/**
 * A BAM boolean operator with two children. The operator caches the hard and
 * soft values it last took from each child, and two flags: whether its state is
 * known and whether it is in downtime.
 */
module BamBoolBinaryOperator {

  /** Threshold below which a child's value is not considered to have moved. */
  const Eps: real := 0.000001

  function Abs(x: real): (r: real)
    ensures r >= 0.0 && (r == x || r == -x)
  {
    if x < 0.0 then -x else x
  }

  /**
   * A child expression, reduced to what the operator asks of it: its current
   * hard and soft values, whether its state is known, whether it is in downtime.
   */
  class BoolValue {
    var hard: real
    var soft: real
    var known: bool
    var downtime: bool

    constructor (hard: real, soft: real, known: bool, downtime: bool)
      ensures this.hard == hard && this.soft == soft
      ensures this.known == known && this.downtime == downtime
    {
      this.hard, this.soft, this.known, this.downtime := hard, soft, known, downtime;
    }
  }

  /** A cached pair of values needs refreshing when either moved by more than Eps. */
  predicate Moved(cachedHard: real, cachedSoft: real, hard: real, soft: real)
  {
    Abs(cachedHard - hard) > Eps || Abs(cachedSoft - soft) > Eps
  }

  /** Values that are equal never count as moved, so a repeated update is a no-op. */
  lemma SameValuesNotMoved(hard: real, soft: real)
    ensures !Moved(hard, soft, hard, soft)
  {
  }

  /** The state is known only when both children are set and both know theirs. */
  function KnownOf(left: BoolValue?, right: BoolValue?): (b: bool)
    reads left, right
    ensures b ==> left != null && right != null
    ensures left == null || right == null ==> !b
    ensures left != null && right != null ==> (b <==> left.known && right.known)
  {
    left != null && right != null && left.known && right.known
  }

  /** Downtime when some set child is in downtime. */
  function DowntimeOf(left: BoolValue?, right: BoolValue?): (b: bool)
    reads left, right
    ensures b <==> exists c :: c in {left, right} && c != null && c.downtime
  {
    assert left in {left, right} && right in {left, right};
    (left != null && left.downtime) || (right != null && right.downtime)
  }

  class BoolBinaryOperator {
    var left: BoolValue?
    var right: BoolValue?
    var leftHard: real
    var leftSoft: real
    var rightHard: real
    var rightSoft: real
    var stateKnownFlag: bool
    var inDowntimeFlag: bool

    /** A new operator has no children, all cached values 0 and both flags false. */
    constructor ()
      ensures left == null && right == null
      ensures leftHard == 0.0 && leftSoft == 0.0 && rightHard == 0.0 && rightSoft == 0.0
      ensures !stateKnownFlag && !inDowntimeFlag
    {
      left, right := null, null;
      leftHard, leftSoft, rightHard, rightSoft := 0.0, 0.0, 0.0, 0.0;
      stateKnownFlag, inDowntimeFlag := false, false;
    }

    /** Whether the state is known, computed from the children. */
    function StateKnown(): (b: bool)
      reads this, left, right
      ensures b <==> left != null && right != null && left.known && right.known
    {
      KnownOf(left, right)
    }

    /** Whether the expression is in downtime, computed from the children. */
    function InDowntime(): (b: bool)
      reads this, left, right
      ensures b <==> (left != null && left.downtime) || (right != null && right.downtime)
    {
      DowntimeOf(left, right)
    }

    /**
     * A child reports an update. The left child is tested first; a side's cached
     * values are replaced only when one of them moved by more than Eps. Any other
     * child changes nothing. A null child recomputes both flags.
     */
    method ChildHasUpdate(child: BoolValue?) returns (changed: bool)
      modifies this
      ensures left == old(left) && right == old(right)
      ensures child != null && child == left ==>
        && changed == Moved(old(leftHard), old(leftSoft), child.hard, child.soft)
        && (if changed then leftHard == child.hard && leftSoft == child.soft
            else leftHard == old(leftHard) && leftSoft == old(leftSoft))
        && rightHard == old(rightHard) && rightSoft == old(rightSoft)
        && stateKnownFlag == old(stateKnownFlag) && inDowntimeFlag == old(inDowntimeFlag)
      ensures child != null && child != left && child == right ==>
        && changed == Moved(old(rightHard), old(rightSoft), child.hard, child.soft)
        && (if changed then rightHard == child.hard && rightSoft == child.soft
            else rightHard == old(rightHard) && rightSoft == old(rightSoft))
        && leftHard == old(leftHard) && leftSoft == old(leftSoft)
        && stateKnownFlag == old(stateKnownFlag) && inDowntimeFlag == old(inDowntimeFlag)
      ensures child != null && child != left && child != right ==>
        && !changed
        && leftHard == old(leftHard) && leftSoft == old(leftSoft)
        && rightHard == old(rightHard) && rightSoft == old(rightSoft)
        && stateKnownFlag == old(stateKnownFlag) && inDowntimeFlag == old(inDowntimeFlag)
      ensures child == null ==>
        && stateKnownFlag == StateKnown() && inDowntimeFlag == InDowntime()
        && changed == (stateKnownFlag != old(stateKnownFlag) || inDowntimeFlag != old(inDowntimeFlag))
        && leftHard == old(leftHard) && leftSoft == old(leftSoft)
        && rightHard == old(rightHard) && rightSoft == old(rightSoft)
    {
      changed := false;
      if child != null {
        if child == left {
          var valueHard, valueSoft := left.hard, left.soft;
          if Abs(leftHard - valueHard) > Eps || Abs(leftSoft - valueSoft) > Eps {
            leftHard, leftSoft := valueHard, valueSoft;
            changed := true;
          }
        } else if child == right {
          var valueHard, valueSoft := right.hard, right.soft;
          if Abs(rightHard - valueHard) > Eps || Abs(rightSoft - valueSoft) > Eps {
            rightHard, rightSoft := valueHard, valueSoft;
            changed := true;
          }
        }
        return;
      }
      var known := StateKnown();
      if stateKnownFlag != known {
        stateKnownFlag := known;
        changed := true;
      }
      var inDt := InDowntime();
      if inDowntimeFlag != inDt {
        inDowntimeFlag := inDt;
        changed := true;
      }
    }

    /** Sets the left child, copies its values and recomputes both flags. */
    method SetLeft(child: BoolValue)
      modifies this
      ensures left == child && right == old(right)
      ensures leftHard == child.hard && leftSoft == child.soft
      ensures rightHard == old(rightHard) && rightSoft == old(rightSoft)
      ensures stateKnownFlag == StateKnown() && inDowntimeFlag == InDowntime()
    {
      left := child;
      leftHard, leftSoft := child.hard, child.soft;
      stateKnownFlag := StateKnown();
      inDowntimeFlag := InDowntime();
    }

    /** Sets the right child, copies its values and recomputes both flags. */
    method SetRight(child: BoolValue)
      modifies this
      ensures right == child && left == old(left)
      ensures rightHard == child.hard && rightSoft == child.soft
      ensures leftHard == old(leftHard) && leftSoft == old(leftSoft)
      ensures stateKnownFlag == StateKnown() && inDowntimeFlag == InDowntime()
    {
      right := child;
      rightHard, rightSoft := child.hard, child.soft;
      stateKnownFlag := StateKnown();
      inDowntimeFlag := InDowntime();
    }
  }
}
