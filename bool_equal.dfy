/**
 * The BAM `==` operator: it compares the values its two children last reported,
 * hard with hard and soft with soft, within a comparison tolerance. The
 * tolerance constant is defined outside the modelled files, so it is a parameter.
 */
module BamBoolEqual {
  import opened BamBoolBinaryOperator

  /** 1 when the two values are within `epsilon` of each other, 0 otherwise. */
  function Equal(l: real, r: real, epsilon: real): (v: real)
    ensures v == 0.0 || v == 1.0
    ensures v == 1.0 <==> Abs(l - r) < epsilon
  {
    if Abs(l - r) < epsilon then 1.0 else 0.0
  }

  /** The comparison does not depend on which child is on which side. */
  lemma EqualSymmetric(l: real, r: real, epsilon: real)
    ensures Equal(l, r, epsilon) == Equal(r, l, epsilon)
  {
    assert Abs(l - r) == Abs(r - l);
  }

  /** A value always equals itself once the tolerance is positive. */
  lemma EqualReflexive(x: real, epsilon: real)
    requires epsilon > 0.0
    ensures Equal(x, x, epsilon) == 1.0
  {
  }

  /** Evaluation with the hard values cached by the operator. */
  function ValueHard(op: BoolBinaryOperator, epsilon: real): (v: real)
    reads op
    ensures v == 0.0 || v == 1.0
    ensures v == 1.0 <==> Abs(op.leftHard - op.rightHard) < epsilon
  {
    Equal(op.leftHard, op.rightHard, epsilon)
  }

  /** Evaluation with the soft values cached by the operator. */
  function ValueSoft(op: BoolBinaryOperator, epsilon: real): (v: real)
    reads op
    ensures v == 0.0 || v == 1.0
    ensures v == 1.0 <==> Abs(op.leftSoft - op.rightSoft) < epsilon
  {
    Equal(op.leftSoft, op.rightSoft, epsilon)
  }
}
