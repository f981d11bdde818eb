/** Grouping a set of line indices into maximal contiguous runs. */
module LineRuns {
  import opened Collections

  type Run = seq<int>

  /** One past the last index of a run. */
  function End(run: Run): int
    requires run != []
  {
    run[0] + |run|
  }

  predicate Consecutive(run: Run) {
    run != [] && forall j :: 0 <= j < |run| ==> run[j] == run[0] + j
  }

  predicate Contains(run: Run, i: int) {
    run != [] && run[0] <= i < End(run)
  }

  ghost predicate Covered(runs: seq<Run>, i: int) {
    exists a :: 0 <= a < |runs| && Contains(runs[a], i)
  }

  ghost predicate Separated(runs: seq<Run>) {
    && (forall a :: 0 <= a < |runs| ==> Consecutive(runs[a]))
    && (forall a, b :: 0 <= a < b < |runs| ==> End(runs[a]) < runs[b][0])
  }

  /** The runs list, in order and with a gap of at least one line between them, exactly the
      members of `lines` below `bound`. */
  ghost predicate AreRuns(runs: seq<Run>, lines: set<int>, bound: int) {
    && Separated(runs)
    && forall i :: Covered(runs, i) <==> 0 <= i < bound && i in lines
  }

  /** One step of the grouping loop: extend the last run or open a new one. */
  function Grow(runs: seq<Run>, i: int): seq<Run> {
    var n := |runs|;
    if n > 0 && runs[n - 1] != [] && i == runs[n - 1][|runs[n - 1]| - 1] + 1
    then runs[..n - 1] + [runs[n - 1] + [i]]
    else runs + [[i]]
  }

  function RunsBelow(lines: set<int>, bound: nat): seq<Run> {
    if bound == 0 then []
    else if bound - 1 in lines then Grow(RunsBelow(lines, bound - 1), bound - 1)
    else RunsBelow(lines, bound - 1)
  }

  /** `sorted(lines)` walked in order, as the source does. */
  method GroupLines(lines: set<int>, bound: nat) returns (groups: seq<Run>)
    ensures groups == RunsBelow(lines, bound)
  {
    groups := [];
    for idx := 0 to bound
      invariant groups == RunsBelow(lines, idx)
    {
      if idx in lines {
        var n := |groups|;
        if n > 0 && groups[n - 1] != [] && idx == groups[n - 1][|groups[n - 1]| - 1] + 1 {
          groups := groups[n - 1 := groups[n - 1] + [idx]];
          assert groups == RunsBelow(lines, idx)[..n - 1] + [RunsBelow(lines, idx)[n - 1] + [idx]];
        } else {
          groups := groups + [[idx]];
        }
      }
    }
  }

  lemma GrowAreRuns(runs: seq<Run>, lines: set<int>, i: nat)
    requires AreRuns(runs, lines, i) && i in lines
    ensures AreRuns(Grow(runs, i), lines, i + 1)
  {
    var n := |runs|;
    var next := Grow(runs, i);
    forall a | 0 <= a < n ensures End(runs[a]) <= i {
      assert Contains(runs[a], End(runs[a]) - 1);
      assert Covered(runs, End(runs[a]) - 1);
    }
    assert Contains(next[|next| - 1], i);
    assert Covered(next, i);
    forall k | k != i ensures Covered(next, k) <==> Covered(runs, k) {
      if a :| 0 <= a < n && Contains(runs[a], k) {
        assert Contains(next[a], k);
      }
      if a :| 0 <= a < |next| && Contains(next[a], k) {
        assert a < n && Contains(runs[a], k);
      }
    }
  }

  /** The grouping loop produces the maximal contiguous runs. */
  lemma {:induction false} RunsBelowAreRuns(lines: set<int>, bound: nat)
    ensures AreRuns(RunsBelow(lines, bound), lines, bound)
    decreases bound
  {
    if bound > 0 {
      RunsBelowAreRuns(lines, bound - 1);
      if bound - 1 in lines {
        GrowAreRuns(RunsBelow(lines, bound - 1), lines, bound - 1);
      }
    }
  }

  lemma RunEdges(runs: seq<Run>, lines: set<int>, bound: int, a: int)
    requires AreRuns(runs, lines, bound) && 0 <= a < |runs|
    ensures 0 <= runs[a][0] < End(runs[a]) <= bound
    ensures !Covered(runs, End(runs[a])) && !Covered(runs, runs[a][0] - 1)
    ensures forall i :: Contains(runs[a], i) ==> i in lines
  {
    assert Contains(runs[a], runs[a][0]) && Contains(runs[a], End(runs[a]) - 1);
    assert Covered(runs, runs[a][0]) && Covered(runs, End(runs[a]) - 1);
    forall i | Contains(runs[a], i) ensures i in lines {
      assert Covered(runs, i);
    }
  }

  /** Two groupings of the same set start with the same run. */
  lemma FirstRunsAgree(x: seq<Run>, y: seq<Run>, lines: set<int>, bound: int)
    requires AreRuns(x, lines, bound) && AreRuns(y, lines, bound)
    requires x != [] && y != []
    ensures x[0] == y[0]
  {
    RunEdges(x, lines, bound, 0);
    RunEdges(y, lines, bound, 0);
    FirstIsLeast(x, y, lines, bound);
    FirstIsLeast(y, x, lines, bound);
    var xEnd, yEnd := End(x[0]), End(y[0]);
    assert Covered(y, xEnd) <== Contains(y[0], xEnd);
    assert Covered(x, yEnd) <== Contains(x[0], yEnd);
  }

  lemma FirstIsLeast(x: seq<Run>, y: seq<Run>, lines: set<int>, bound: int)
    requires AreRuns(x, lines, bound) && AreRuns(y, lines, bound)
    requires x != [] && y != []
    ensures x[0][0] <= y[0][0]
  {
    assert Contains(y[0], y[0][0]);
    assert Covered(y, y[0][0]) && Covered(x, y[0][0]);
    var a :| 0 <= a < |x| && Contains(x[a], y[0][0]);
    assert a > 0 ==> End(x[0]) < x[a][0];
  }

  /** Runs of a set are unique: the description determines the grouping. */
  lemma {:induction false} RunsAreUnique(x: seq<Run>, y: seq<Run>, lines: set<int>, bound: int)
    requires AreRuns(x, lines, bound) && AreRuns(y, lines, bound)
    ensures x == y
    decreases |x|
  {
    if x == [] || y == [] {
      EmptyAgree(x, y, lines, bound);
    } else {
      FirstRunsAgree(x, y, lines, bound);
      TailAreRuns(x, lines, bound);
      TailAreRuns(y, lines, bound);
      RunsAreUnique(x[1..], y[1..], (set i | i in lines && i >= End(x[0])), bound);
      assert x == [x[0]] + x[1..] && y == [y[0]] + y[1..];
    }
  }

  lemma EmptyAgree(x: seq<Run>, y: seq<Run>, lines: set<int>, bound: int)
    requires AreRuns(x, lines, bound) && AreRuns(y, lines, bound)
    requires x == [] || y == []
    ensures x == y
  {
    assert x != [] ==> Contains(x[0], x[0][0]) && Covered(x, x[0][0]);
    assert y != [] ==> Contains(y[0], y[0][0]) && Covered(y, y[0][0]);
  }

  lemma TailAreRuns(x: seq<Run>, lines: set<int>, bound: int)
    requires AreRuns(x, lines, bound) && x != []
    ensures AreRuns(x[1..], (set i | i in lines && i >= End(x[0])), bound)
  {
    var tail := x[1..];
    forall i ensures Covered(tail, i) <==> Covered(x, i) && i >= End(x[0]) {
      if a :| 0 <= a < |tail| && Contains(tail[a], i) {
        assert Contains(x[a + 1], i) && End(x[0]) < x[a + 1][0];
      }
      if Covered(x, i) && i >= End(x[0]) {
        var a :| 0 <= a < |x| && Contains(x[a], i);
        assert a > 0 && Contains(tail[a - 1], i);
      }
    }
    forall i | 0 <= i < bound && i in lines && i < End(x[0]) ensures Contains(x[0], i) {
      assert Covered(x, i);
      var a :| 0 <= a < |x| && Contains(x[a], i);
    }
  }
}
