/**
 * Run-length compression of nights, as both channel pushes do it: consecutive nights of one value
 * become one range whose last date is inclusive. Expanding undoes it, and no list of ranges that
 * says the same is shorter.
 */
module Runs {
  import opened Common

  /** A value (rooms free, or a price) on one night; dates are day numbers. */
  datatype Night = Night(date: int, value: int)

  /** Both ends inclusive. */
  datatype Run = Run(from: int, to: int, value: int)

  function ExpandRun(r: Run): seq<Night>
    decreases r.to + 1 - r.from
  {
    if r.from > r.to then [] else [Night(r.from, r.value)] + ExpandRun(r.(from := r.from + 1))
  }

  function Expand(runs: seq<Run>): seq<Night> {
    if runs == [] then [] else ExpandRun(runs[0]) + Expand(runs[1..])
  }

  function Single(n: Night): Run {
    Run(n.date, n.date, n.value)
  }

  predicate Extends(open: Run, n: Night) {
    n.date == open.to + 1 && n.value == open.value
  }

  /** The ranges emitted from here on, the current one still open. */
  function CompressFrom(open: Run, nights: seq<Night>): seq<Run>
    decreases |nights|
  {
    if nights == [] then [open]
    else if Extends(open, nights[0]) then CompressFrom(open.(to := nights[0].date), nights[1..])
    else [open] + CompressFrom(Single(nights[0]), nights[1..])
  }

  function Compress(nights: seq<Night>): seq<Run> {
    if nights == [] then [] else CompressFrom(Single(nights[0]), nights[1..])
  }

  // ---------- Nothing is lost ----------

  lemma {:induction false} ExpandRunSnoc(r: Run)
    requires r.from <= r.to + 1
    ensures ExpandRun(r.(to := r.to + 1)) == ExpandRun(r) + [Night(r.to + 1, r.value)]
    decreases r.to + 1 - r.from
  {
    if r.from <= r.to {
      ExpandRunSnoc(r.(from := r.from + 1));
      assert r.(to := r.to + 1).(from := r.from + 1) == r.(from := r.from + 1).(to := r.to + 1);
    } else {
      assert ExpandRun(r.(to := r.to + 1).(from := r.from + 1)) == [];
    }
  }

  lemma {:induction false} ExpandCompressFrom(open: Run, nights: seq<Night>)
    requires open.from <= open.to
    ensures Expand(CompressFrom(open, nights)) == ExpandRun(open) + nights
    decreases |nights|
  {
    if nights == [] {
      assert Expand([open]) == ExpandRun(open) + Expand([open][1..]);
    } else if Extends(open, nights[0]) {
      ExpandRunSnoc(open);
      ExpandCompressFrom(open.(to := nights[0].date), nights[1..]);
    } else {
      var rest := CompressFrom(Single(nights[0]), nights[1..]);
      ExpandCompressFrom(Single(nights[0]), nights[1..]);
      ExpandSingle(nights[0]);
      assert ([open] + rest)[1..] == rest;
    }
  }

  lemma ExpandSingle(n: Night)
    ensures ExpandRun(Single(n)) == [n]
  {
    assert ExpandRun(Single(n).(from := n.date + 1)) == [];
  }

  /** Expanding the ranges gives back the nights, one for one and in order, whatever the list. */
  lemma ExpandCompress(nights: seq<Night>)
    ensures Expand(Compress(nights)) == nights
  {
    if nights != [] {
      ExpandCompressFrom(Single(nights[0]), nights[1..]);
      ExpandSingle(nights[0]);
    }
  }

  // ---------- Nothing is wasted ----------

  ghost predicate Ascending(nights: seq<Night>) {
    forall i, j :: 0 <= i < j < |nights| ==> nights[i].date < nights[j].date
  }

  /** Non-empty ranges, in order, disjoint, and no two neighbours that could be one. */
  ghost predicate OrderedAndMaximal(runs: seq<Run>) {
    && (forall k :: 0 <= k < |runs| ==> runs[k].from <= runs[k].to)
    && (forall j, k :: 0 <= j < k < |runs| ==> runs[j].to < runs[k].from)
    && (forall k :: 0 <= k < |runs| - 1 ==> !(runs[k + 1].from == runs[k].to + 1 && runs[k + 1].value == runs[k].value))
  }

  lemma {:induction false} CompressFromShape(open: Run, nights: seq<Night>)
    requires open.from <= open.to && Ascending(nights) && (nights != [] ==> open.to < nights[0].date)
    ensures var runs := CompressFrom(open, nights);
      && runs != [] && runs[0].from == open.from && runs[0].value == open.value
      && OrderedAndMaximal(runs)
    decreases |nights|
  {
    if nights != [] {
      var next := if Extends(open, nights[0]) then open.(to := nights[0].date) else Single(nights[0]);
      CompressFromShape(next, nights[1..]);
      var rest := CompressFrom(next, nights[1..]);
      if !Extends(open, nights[0]) {
        var runs := [open] + rest;
        assert forall k :: 0 < k < |runs| ==> runs[k] == rest[k - 1];
      }
    }
  }

  lemma CompressShape(nights: seq<Night>)
    requires Ascending(nights)
    ensures OrderedAndMaximal(Compress(nights))
  {
    if nights != [] {
      CompressFromShape(Single(nights[0]), nights[1..]);
    }
  }

  ghost predicate Covers(r: Run, n: Night) {
    r.from <= n.date <= r.to && r.value == n.value
  }

  lemma {:induction false} InExpandRun(r: Run, n: Night)
    ensures n in ExpandRun(r) <==> Covers(r, n)
    decreases r.to + 1 - r.from
  {
    if r.from <= r.to {
      InExpandRun(r.(from := r.from + 1), n);
    }
  }

  lemma {:induction false} InExpand(runs: seq<Run>, n: Night)
    ensures n in Expand(runs) <==> exists k :: 0 <= k < |runs| && Covers(runs[k], n)
  {
    if runs != [] {
      InExpandRun(runs[0], n);
      InExpand(runs[1..], n);
      assert forall k :: 0 < k < |runs| ==> runs[k] == runs[1..][k - 1];
      if n in Expand(runs[1..]) {
        var k :| 0 <= k < |runs[1..]| && Covers(runs[1..][k], n);
        assert Covers(runs[k + 1], n);
      }
    }
  }

  ghost function Heads(runs: seq<Run>): set<Night> {
    set k | 0 <= k < |runs| :: Night(runs[k].from, runs[k].value)
  }

  lemma {:induction false} HeadsCount(runs: seq<Run>)
    ensures |Heads(runs)| <= |runs|
    ensures (forall j, k :: 0 <= j < k < |runs| ==> runs[j].from < runs[k].from) ==> |Heads(runs)| == |runs|
  {
    if runs != [] {
      var init, last := runs[..|runs| - 1], runs[|runs| - 1];
      HeadsCount(init);
      assert Heads(runs) == Heads(init) + {Night(last.from, last.value)};
    }
  }

  /** Where a maximal range begins, the night before carries another value or none. */
  lemma HeadHasNoPredecessor(runs: seq<Run>, k: nat)
    requires OrderedAndMaximal(runs) && k < |runs|
    ensures Night(runs[k].from, runs[k].value) in Expand(runs)
    ensures Night(runs[k].from - 1, runs[k].value) !in Expand(runs)
  {
    var head, before := Night(runs[k].from, runs[k].value), Night(runs[k].from - 1, runs[k].value);
    InExpand(runs, head);
    InExpand(runs, before);
    assert Covers(runs[k], head);
    forall j | 0 <= j < |runs| ensures !Covers(runs[j], before) {
      if j < k - 1 {
        assert runs[j].to < runs[j + 1].from <= runs[j + 1].to < runs[k].from;
      } else if j == k - 1 {
        assert runs[j + 1] == runs[k];
      }
    }
  }

  /** A night without a predecessor of its value begins a range of any list that has it. */
  lemma HeadIsAHead(runs: seq<Run>, h: Night)
    requires h in Expand(runs) && Night(h.date - 1, h.value) !in Expand(runs)
    ensures h in Heads(runs)
  {
    InExpand(runs, h);
    var j :| 0 <= j < |runs| && Covers(runs[j], h);
    InExpand(runs, Night(h.date - 1, h.value));
    assert !Covers(runs[j], Night(h.date - 1, h.value));
  }

  /** Where a maximal range begins, any list that says the same begins one too. */
  lemma HeadsRecur(runs: seq<Run>, others: seq<Run>)
    requires OrderedAndMaximal(runs) && forall n :: n in Expand(others) <==> n in Expand(runs)
    ensures Heads(runs) <= Heads(others)
  {
    hide Expand, OrderedAndMaximal;
    forall h | h in Heads(runs) ensures h in Heads(others) {
      var k :| 0 <= k < |runs| && h == Night(runs[k].from, runs[k].value);
      HeadHasNoPredecessor(runs, k);
      HeadIsAHead(others, h);
    }
  }

  lemma StartsAscend(runs: seq<Run>)
    requires OrderedAndMaximal(runs)
    ensures |Heads(runs)| == |runs|
  {
    HeadsCount(runs);
    assert forall j, k :: 0 <= j < k < |runs| ==> runs[j].from < runs[k].from;
  }

  /** Any ranges that expand to the same nights number at least as many. */
  lemma FewestRuns(nights: seq<Night>, others: seq<Run>)
    requires Ascending(nights)
    requires forall n :: n in Expand(others) <==> n in nights
    ensures |Compress(nights)| <= |others|
  {
    var runs := Compress(nights);
    hide *;
    ExpandCompress(nights);
    CompressShape(nights);
    HeadsRecur(runs, others);
    StartsAscend(runs);
    HeadsCount(others);
    SubsetCount(Heads(runs), Heads(others));
  }

  lemma {:induction false} SubsetCount(a: set<Night>, b: set<Night>)
    requires a <= b
    ensures |a| <= |b|
  {
    assert b == a + (b - a);
  }

  // ---------- Several lists sent one after another ----------

  function Flatten(lists: seq<seq<Night>>): seq<Night> {
    if lists == [] then [] else Flatten(lists[..|lists| - 1]) + lists[|lists| - 1]
  }

  /** What a reader that keeps the last figure sent shows for a night. */
  function Shown(nights: seq<Night>, date: int): Option<int> {
    if nights == [] then None
    else if nights[|nights| - 1].date == date then Some(nights[|nights| - 1].value)
    else Shown(nights[..|nights| - 1], date)
  }

  lemma {:induction false} ShownAppend(a: seq<Night>, b: seq<Night>, date: int)
    ensures Shown(a + b, date) == if Shown(b, date).Some? then Shown(b, date) else Shown(a, date)
    decreases |b|
  {
    if b == [] {
      assert a + b == a;
    } else {
      assert (a + b)[..|a + b| - 1] == a + b[..|b| - 1];
      ShownAppend(a, b[..|b| - 1], date);
    }
  }

  /** The last list with a figure for the night. */
  predicate IsLastWith(lists: seq<seq<Night>>, date: int, j: nat) {
    j < |lists| && Shown(lists[j], date).Some? && forall i :: j < i < |lists| ==> Shown(lists[i], date).None?
  }

  lemma {:induction false} LastListIsShown(lists: seq<seq<Night>>, date: int, j: nat)
    requires IsLastWith(lists, date, j)
    ensures Shown(Flatten(lists), date) == Shown(lists[j], date)
  {
    var init, last := lists[..|lists| - 1], lists[|lists| - 1];
    ShownAppend(Flatten(init), last, date);
    if j < |init| {
      assert forall i :: 0 <= i < |init| ==> init[i] == lists[i];
      LastListIsShown(init, date, j);
    }
  }

  lemma {:induction false} SomeListIsLast(lists: seq<seq<Night>>, date: int, k: nat) returns (j: nat)
    requires k < |lists| && Shown(lists[k], date).Some?
    ensures k <= j && IsLastWith(lists, date, j)
  {
    hide Shown;
    j := |lists| - 1;
    while Shown(lists[j], date).None?
      invariant k <= j < |lists| && forall i :: j < i < |lists| ==> Shown(lists[i], date).None?
      decreases j
    {
      j := j - 1;
    }
  }

  /** The figure of list `k` is the one shown exactly when the last list with a figure for the night agrees with it. */
  lemma OwnIsShown(lists: seq<seq<Night>>, date: int, k: nat)
    requires k < |lists| && Shown(lists[k], date).Some?
    ensures Shown(Flatten(lists), date) == Shown(lists[k], date)
       <==> forall j :: k <= j && IsLastWith(lists, date, j) ==> Shown(lists[j], date) == Shown(lists[k], date)
  {
    var last := SomeListIsLast(lists, date, k);
    forall j | k <= j && IsLastWith(lists, date, j) ensures Shown(Flatten(lists), date) == Shown(lists[j], date) {
      LastListIsShown(lists, date, j);
    }
    hide Shown, Flatten;
    assert k <= last && IsLastWith(lists, date, last);
  }
}
