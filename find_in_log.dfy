/**
 * The acceptance-test log search `find_in_log`: a bisection over the log's
 * lines on their bracketed dates picks a starting line, then every expected
 * string must appear in some line from there on.
 */
module FindInLog {
  import opened Common

  /** Dates in non-decreasing order, as in a log written chronologically. */
  ghost predicate Sorted(dates: seq<int>)
  {
    forall i, j :: 0 <= i <= j < |dates| ==> dates[i] <= dates[j]
  }

  /** Every expected string is a substring of some line at index `from` or later. */
  ghost predicate AllFoundFrom(lines: seq<string>, from: nat, content: seq<string>)
  {
    forall c :: c in content ==> exists i :: from <= i < |lines| && Contains(lines[i], c)
  }

  /**
   * The bisection: `dates[k]` is the parsed date of line k. The result is 0
   * for at most two lines, and otherwise the last midpoint probed. On sorted
   * dates it is at most one line before the first line dated at or after
   * `myDate`, ignoring the first and last lines, which the bisection never probes.
   */
  method LocateStart(dates: seq<int>, myDate: int) returns (idx: nat)
    ensures |dates| <= 2 ==> idx == 0
    ensures dates != [] ==> idx < |dates|
    ensures |dates| > 2 ==> 0 < idx < |dates| - 1
    ensures Sorted(dates) ==> forall i :: 0 < i < idx ==> dates[i] < myDate
    ensures Sorted(dates) ==> forall i :: idx < i < |dates| - 1 ==> dates[i] >= myDate
  {
    var start := 0;
    var end := |dates| - 1;
    idx := start;
    while end - start > 1
      invariant dates == [] ==> start == 0 && end == -1 && idx == 0
      invariant dates != [] ==> 0 <= start <= end < |dates|
      invariant idx == start || idx == end
      invariant |dates| > 2 && end - start <= 1 ==> 0 < idx < |dates| - 1
      invariant idx == 0 ==> start == 0
      invariant |dates| <= 2 ==> idx == 0
      invariant Sorted(dates) && 0 < start ==> dates[start] < myDate
      invariant Sorted(dates) && end < |dates| - 1 ==> dates[end] >= myDate
      decreases end - start
    {
      idx := (start + end) / 2;
      if myDate <= dates[idx] {
        end := idx;
      } else {
        start := idx;
      }
    }
  }

  /** Whether `c` is in some line from `from` on: the inner loop with its `found` flag. */
  method FindOne(lines: seq<string>, from: nat, c: string) returns (found: bool)
    ensures found <==> exists i :: from <= i < |lines| && Contains(lines[i], c)
  {
    found := false;
    var i := from;
    while i < |lines|
      invariant from <= i
      invariant forall k :: from <= k < |lines| && k < i ==> !Contains(lines[k], c)
      decreases |lines| - i
    {
      if Contains(lines[i], c) {
        found := true;
        return;
      }
      i := i + 1;
    }
  }

  /** The content loop: stops at the first expected string that is missing. */
  method FindAll(lines: seq<string>, from: nat, content: seq<string>) returns (found: bool)
    ensures found <==> AllFoundFrom(lines, from, content)
  {
    var n := 0;
    while n < |content|
      invariant 0 <= n <= |content|
      invariant forall k :: 0 <= k < n ==> exists i :: from <= i < |lines| && Contains(lines[i], content[k])
      decreases |content| - n
    {
      var one := FindOne(lines, from, content[n]);
      if !one {
        assert content[n] in content;
        return false;
      }
      n := n + 1;
    }
    found := true;
  }

  /**
   * `find_in_log`: `log` is the file's lines, or None when it cannot be
   * opened; `dates` are the lines' parsed dates. `from` is where the search began.
   */
  method Find(log: Option<seq<string>>, dates: seq<int>, myDate: int, content: seq<string>)
    returns (found: bool, from: nat)
    requires log.Some? ==> |dates| == |log.value|
    ensures dates != [] ==> from < |dates|
    ensures log.None? ==> !found
    ensures log.Some? ==> (found <==> AllFoundFrom(log.value, from, content))
    ensures log.Some? && |log.value| <= 2 ==> from == 0
    ensures log.Some? && Sorted(dates) ==> forall i :: from < i < |dates| - 1 ==> dates[i] >= myDate
    ensures log.Some? && Sorted(dates) ==> forall i :: 0 < i < from ==> dates[i] < myDate
  {
    if log.None? {
      return false, 0;
    }
    from := LocateStart(dates, myDate);
    found := FindAll(log.value, from, content);
  }

  /** Nothing expected: found as soon as the file opens. */
  lemma EmptyContentFound(lines: seq<string>, from: nat)
    ensures AllFoundFrom(lines, from, [])
  {
  }

  /** Expecting more can only make the search fail more often. */
  lemma {:induction false} MoreContentHarder(lines: seq<string>, from: nat, content: seq<string>, extra: seq<string>)
    requires AllFoundFrom(lines, from, content + extra)
    ensures AllFoundFrom(lines, from, content)
  {
    forall c | c in content
      ensures exists i :: from <= i < |lines| && Contains(lines[i], c)
    {
      assert c in content + extra;
    }
  }

  /** Starting later can only make the search fail more often. */
  lemma {:induction false} LaterStartHarder(lines: seq<string>, from: nat, later: nat, content: seq<string>)
    requires from <= later
    requires AllFoundFrom(lines, later, content)
    ensures AllFoundFrom(lines, from, content)
  {
    forall c | c in content
      ensures exists i :: from <= i < |lines| && Contains(lines[i], c)
    {
      var i :| later <= i < |lines| && Contains(lines[i], c);
    }
  }

  /** Three lines all dated after `myDate`: the search starts at line 1, so line 0 is never searched. */
  method FirstLineSkipped() returns (from: nat)
    ensures from == 1
  {
    from := LocateStart([10, 20, 30], 5);
    assert Sorted([10, 20, 30]);
  }
}
