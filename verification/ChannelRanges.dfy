/** From nightly counts to the inclusive date ranges the channel manager takes, and the whole availability push. */
module ChannelRanges {
  import opened Runs
  import opened Availability

  /** `dateTo` is inclusive on the channel's side. */
  datatype Update = Update(propertyId: string, roomTypeId: string, dateFrom: int, dateTo: int, availability: int)

  // ---------- toAvailabilityRanges ----------

  function TypesOf(nights: seq<TypeNight>): seq<string> {
    seq(|nights|, i requires 0 <= i < |nights| => nights[i].roomType)
  }

  /** One type's nights in list order. */
  function NightsFor(nights: seq<TypeNight>, t: string): seq<Night> {
    if nights == [] then []
    else
      var last := nights[|nights| - 1];
      NightsFor(nights[..|nights| - 1], t) + (if last.roomType == t then [Night(last.date, last.available)] else [])
  }

  function Insert(n: Night, sorted: seq<Night>): seq<Night> {
    if sorted == [] || n.date <= sorted[0].date then [n] + sorted else [sorted[0]] + Insert(n, sorted[1..])
  }

  /** The list copied and sorted by date. */
  function SortByDate(nights: seq<Night>): seq<Night> {
    if nights == [] then [] else Insert(nights[0], SortByDate(nights[1..]))
  }

  /** An absent or empty channel id is falsy. */
  predicate IsMapped(roomTypeMap: map<string, string>, t: string) {
    t in roomTypeMap && roomTypeMap[t] != ""
  }

  function ToUpdates(propertyId: string, roomTypeId: string, runs: seq<Run>): seq<Update> {
    seq(|runs|, i requires 0 <= i < |runs| => Update(propertyId, roomTypeId, runs[i].from, runs[i].to, runs[i].value))
  }

  function RunsFor(nights: seq<TypeNight>, t: string): seq<Run> {
    Compress(SortByDate(NightsFor(nights, t)))
  }

  function RangesFor(propertyId: string, nights: seq<TypeNight>, types: seq<string>,
      roomTypeMap: map<string, string>): seq<Update> {
    if types == [] then []
    else
      var t := types[|types| - 1];
      RangesFor(propertyId, nights, types[..|types| - 1], roomTypeMap)
      + (if IsMapped(roomTypeMap, t) then ToUpdates(propertyId, roomTypeMap[t], RunsFor(nights, t)) else [])
  }

  function Unmapped(types: seq<string>, roomTypeMap: map<string, string>): seq<string> {
    if types == [] then []
    else
      var t := types[|types| - 1];
      Unmapped(types[..|types| - 1], roomTypeMap) + (if IsMapped(roomTypeMap, t) then [] else [t])
  }

  /** The types reported as skipped are exactly the listed ones without a channel id. */
  lemma {:induction false} UnmappedExactly(types: seq<string>, roomTypeMap: map<string, string>, t: string)
    ensures t in Unmapped(types, roomTypeMap) <==> t in types && (t !in roomTypeMap || roomTypeMap[t] == "")
  {
    if types != [] {
      UnmappedExactly(types[..|types| - 1], roomTypeMap, t);
      assert types == types[..|types| - 1] + [types[|types| - 1]];
    }
  }

  lemma NightsForStep(nights: seq<TypeNight>, i: nat, t: string)
    requires i < |nights|
    ensures NightsFor(nights[..i + 1], t)
         == NightsFor(nights[..i], t) + (if nights[i].roomType == t then [Night(nights[i].date, nights[i].available)] else [])
  {
    assert nights[..i + 1][..i] == nights[..i];
  }

  lemma TypesStep(nights: seq<TypeNight>, i: nat)
    requires i < |nights|
    ensures var before, t := FirstSeen(TypesOf(nights[..i])), nights[i].roomType;
      FirstSeen(TypesOf(nights[..i + 1])) == if t in before then before else before + [t]
  {
    assert TypesOf(nights[..i + 1])[..i] == TypesOf(nights[..i]);
  }

  method GroupByType(nights: seq<TypeNight>) returns (types: seq<string>, byType: map<string, seq<Night>>)
    ensures types == FirstSeen(TypesOf(nights))
    ensures forall t :: t in types ==> t in byType && byType[t] == NightsFor(nights, t) && byType[t] != []
  {
    types, byType := [], map[];
    assert types == FirstSeen(TypesOf(nights[..0])) && forall t :: NightsFor(nights[..0], t) == [];
    hide *;
    for i := 0 to |nights|
      invariant types == FirstSeen(TypesOf(nights[..i]))
      invariant forall t :: t in byType <==> t in types
      invariant forall t :: t in byType ==> byType[t] != []
      invariant forall t :: NightsFor(nights[..i], t) == if t in byType then byType[t] else []
    {
      var n := nights[i];
      TypesStep(nights, i);
      forall t { NightsForStep(nights, i, t); }
      if n.roomType !in byType { types := types + [n.roomType]; }
      var list := if n.roomType in byType then byType[n.roomType] else [];
      byType := byType[n.roomType := list + [Night(n.date, n.available)]];
    }
    assert nights[..|nights|] == nights;
  }

  /** What is still to be sent from night `i` on, the current run open. */
  function Remaining(propertyId: string, roomTypeId: string, open: Run, nights: seq<Night>, i: nat): seq<Update>
    requires i <= |nights|
  {
    ToUpdates(propertyId, roomTypeId, CompressFrom(open, nights[i..]))
  }

  lemma RemainingStep(propertyId: string, roomTypeId: string, open: Run, nights: seq<Night>, i: nat)
    requires i < |nights|
    ensures Remaining(propertyId, roomTypeId, open, nights, i)
         == if nights[i].date == open.to + 1 && nights[i].value == open.value
            then Remaining(propertyId, roomTypeId, Run(open.from, nights[i].date, open.value), nights, i + 1)
            else
              ([Update(propertyId, roomTypeId, open.from, open.to, open.value)]
               + Remaining(propertyId, roomTypeId, Run(nights[i].date, nights[i].date, nights[i].value), nights, i + 1))
  {
    assert nights[i..][1..] == nights[i + 1..];
  }

  lemma RemainingEnd(propertyId: string, roomTypeId: string, open: Run, nights: seq<Night>)
    ensures Remaining(propertyId, roomTypeId, open, nights, |nights|)
         == [Update(propertyId, roomTypeId, open.from, open.to, open.value)]
  {}

  lemma RemainingStart(propertyId: string, roomTypeId: string, nights: seq<Night>)
    requires nights != []
    ensures Remaining(propertyId, roomTypeId, Run(nights[0].date, nights[0].date, nights[0].value), nights, 1)
         == ToUpdates(propertyId, roomTypeId, Compress(nights))
  {}

  /** One type: walk its sorted nights, flushing whenever the run breaks, and once more at the end. */
  method PushRuns(updates: seq<Update>, propertyId: string, roomTypeId: string, list: seq<Night>)
    returns (more: seq<Update>)
    requires list != []
    ensures more == updates + ToUpdates(propertyId, roomTypeId, Compress(SortByDate(list)))
  {
    hide *;
    SortMultiset(list);
    var sorted := SortByDate(list);
    assert |sorted| == |list| by { assert |multiset(sorted)| == |multiset(list)|; }
    var runStart, runEnd := sorted[0], sorted[0];
    more := updates;
    RemainingStart(propertyId, roomTypeId, sorted);
    ghost var target := updates + ToUpdates(propertyId, roomTypeId, Compress(sorted));
    for i := 1 to |sorted|
      invariant target == more + Remaining(propertyId, roomTypeId, Run(runStart.date, runEnd.date, runStart.value), sorted, i)
    {
      var night := sorted[i];
      RemainingStep(propertyId, roomTypeId, Run(runStart.date, runEnd.date, runStart.value), sorted, i);
      if night.date == runEnd.date + 1 && night.value == runStart.value {
        runEnd := night;
      } else {
        more := more + [Update(propertyId, roomTypeId, runStart.date, runEnd.date, runStart.value)];
        runStart, runEnd := night, night;
      }
    }
    more := more + [Update(propertyId, roomTypeId, runStart.date, runEnd.date, runStart.value)];
    RemainingEnd(propertyId, roomTypeId, Run(runStart.date, runEnd.date, runStart.value), sorted);
  }

  method ToAvailabilityRanges(propertyId: string, nights: seq<TypeNight>, roomTypeMap: map<string, string>)
    returns (updates: seq<Update>, unmapped: seq<string>)
    ensures updates == RangesFor(propertyId, nights, FirstSeen(TypesOf(nights)), roomTypeMap)
    ensures forall i :: 0 <= i < |updates| ==> updates[i].propertyId == propertyId
    ensures unmapped == Unmapped(FirstSeen(TypesOf(nights)), roomTypeMap)
  {
    hide FirstSeen, NightsFor, SortByDate;
    var types, byType := GroupByType(nights);
    updates, unmapped := [], [];
    for k := 0 to |types|
      invariant updates == RangesFor(propertyId, nights, types[..k], roomTypeMap)
      invariant unmapped == Unmapped(types[..k], roomTypeMap)
    {
      var t := types[k];
      assert types[..k + 1][..k] == types[..k];
      if IsMapped(roomTypeMap, t) {
        updates := PushRuns(updates, propertyId, roomTypeMap[t], byType[t]);
      } else {
        unmapped := unmapped + [t];
      }
    }
    assert types[..|types|] == types;
    AllForTheProperty(propertyId, nights, types, roomTypeMap);
  }

  lemma {:induction false} AllForTheProperty(propertyId: string, nights: seq<TypeNight>, types: seq<string>,
      roomTypeMap: map<string, string>)
    ensures forall i :: 0 <= i < |RangesFor(propertyId, nights, types, roomTypeMap)| ==>
      RangesFor(propertyId, nights, types, roomTypeMap)[i].propertyId == propertyId
  {
    hide RunsFor;
    if types != [] {
      AllForTheProperty(propertyId, nights, types[..|types| - 1], roomTypeMap);
    }
  }

  // ---------- What the channel sees ----------

  /** The ranges sent for one channel room type, in the order sent. */
  function RunsOn(updates: seq<Update>, channelId: string): seq<Run> {
    if updates == [] then []
    else
      var u := updates[|updates| - 1];
      RunsOn(updates[..|updates| - 1], channelId)
      + (if u.roomTypeId == channelId then [Run(u.dateFrom, u.dateTo, u.availability)] else [])
  }

  lemma {:induction false} RunsOnAppend(a: seq<Update>, propertyId: string, roomTypeId: string,
      runs: seq<Run>, channelId: string)
    ensures RunsOn(a + ToUpdates(propertyId, roomTypeId, runs), channelId)
         == RunsOn(a, channelId) + (if roomTypeId == channelId then runs else [])
    decreases |runs|
  {
    var b := ToUpdates(propertyId, roomTypeId, runs);
    if runs == [] {
      assert a + b == a;
    } else {
      var init := runs[..|runs| - 1];
      assert b[..|b| - 1] == ToUpdates(propertyId, roomTypeId, init);
      assert (a + b)[..|a + b| - 1] == a + b[..|b| - 1];
      RunsOnAppend(a, propertyId, roomTypeId, init, channelId);
      assert runs == init + [runs[|runs| - 1]];
    }
  }

  /** No listed type but `t` is published under the channel id of `t`. */
  predicate SoleUser(types: seq<string>, roomTypeMap: map<string, string>, t: string) {
    IsMapped(roomTypeMap, t)
    && forall i :: 0 <= i < |types| && IsMapped(roomTypeMap, types[i]) && roomTypeMap[types[i]] == roomTypeMap[t] ==> types[i] == t
  }

  lemma {:induction false} RunsOnOne(propertyId: string, nights: seq<TypeNight>, types: seq<string>,
      roomTypeMap: map<string, string>, t: string)
    requires SoleUser(types, roomTypeMap, t)
    requires forall i, j :: 0 <= i < j < |types| ==> types[i] != types[j]
    ensures RunsOn(RangesFor(propertyId, nights, types, roomTypeMap), roomTypeMap[t])
         == if t in types then RunsFor(nights, t) else []
  {
    if types != [] {
      var init, u := types[..|types| - 1], types[|types| - 1];
      assert types == init + [u];
      RunsOnOne(propertyId, nights, init, roomTypeMap, t);
      if IsMapped(roomTypeMap, u) {
        RunsOnAppend(RangesFor(propertyId, nights, init, roomTypeMap), propertyId, roomTypeMap[u], RunsFor(nights, u), roomTypeMap[t]);
      } else {
        assert RangesFor(propertyId, nights, types, roomTypeMap) == RangesFor(propertyId, nights, init, roomTypeMap);
      }
    }
  }

  /** Nothing is sent under an id no listed type maps to. */
  lemma {:induction false} NothingForOthers(propertyId: string, nights: seq<TypeNight>,
      types: seq<string>, roomTypeMap: map<string, string>, channelId: string)
    requires forall i :: 0 <= i < |types| && IsMapped(roomTypeMap, types[i]) ==> roomTypeMap[types[i]] != channelId
    ensures RunsOn(RangesFor(propertyId, nights, types, roomTypeMap), channelId) == []
  {
    if types != [] {
      var init, u := types[..|types| - 1], types[|types| - 1];
      NothingForOthers(propertyId, nights, init, roomTypeMap, channelId);
      if IsMapped(roomTypeMap, u) {
        RunsOnAppend(RangesFor(propertyId, nights, init, roomTypeMap), propertyId, roomTypeMap[u], RunsFor(nights, u), channelId);
      } else {
        assert RangesFor(propertyId, nights, types, roomTypeMap) == RangesFor(propertyId, nights, init, roomTypeMap);
      }
    }
  }

  lemma {:induction false} AbsentType(nights: seq<TypeNight>, t: string)
    requires t !in TypesOf(nights)
    ensures NightsFor(nights, t) == []
  {
    if nights != [] {
      assert TypesOf(nights)[|nights| - 1] == nights[|nights| - 1].roomType;
      assert TypesOf(nights[..|nights| - 1]) == TypesOf(nights)[..|nights| - 1];
      AbsentType(nights[..|nights| - 1], t);
    }
  }

  ghost predicate OnePerDate(nights: seq<Night>) {
    forall i, j :: 0 <= i < j < |nights| ==> nights[i].date != nights[j].date
  }

  lemma {:induction false} InsertMultiset(n: Night, sorted: seq<Night>)
    ensures multiset(Insert(n, sorted)) == multiset(sorted) + multiset{n}
  {
    if sorted != [] {
      InsertMultiset(n, sorted[1..]);
      assert sorted == [sorted[0]] + sorted[1..];
    }
  }

  /** Sorting keeps every night, as often as it was there. */
  lemma {:induction false} SortMultiset(nights: seq<Night>)
    ensures multiset(SortByDate(nights)) == multiset(nights)
    ensures forall n :: n in SortByDate(nights) <==> n in nights
  {
    if nights != [] {
      SortMultiset(nights[1..]);
      InsertMultiset(nights[0], SortByDate(nights[1..]));
      assert nights == [nights[0]] + nights[1..];
    }
    SameElements(SortByDate(nights), nights);
  }

  lemma SameElements(a: seq<Night>, b: seq<Night>)
    requires multiset(a) == multiset(b)
    ensures forall n :: n in a <==> n in b
  {
    forall n ensures n in a <==> n in b {
      assert n in a <==> n in multiset(a);
      assert n in b <==> n in multiset(b);
    }
  }

  lemma {:induction false} InsertMembers(n: Night, sorted: seq<Night>)
    ensures forall m :: m in Insert(n, sorted) <==> m == n || m in sorted
  {
    if sorted != [] {
      InsertMembers(n, sorted[1..]);
      assert sorted == [sorted[0]] + sorted[1..];
    }
  }

  lemma {:induction false} InsertAscending(n: Night, sorted: seq<Night>)
    requires Ascending(sorted)
    requires forall i :: 0 <= i < |sorted| ==> sorted[i].date != n.date
    ensures Ascending(Insert(n, sorted))
    ensures sorted != [] && n.date > sorted[0].date ==> Insert(n, sorted)[0] == sorted[0]
  {
    if sorted != [] && n.date > sorted[0].date {
      InsertAscending(n, sorted[1..]);
      InsertMembers(n, sorted[1..]);
      var r := Insert(n, sorted[1..]);
      forall i | 0 <= i < |r| ensures sorted[0].date < r[i].date {
        assert r[i] in r;
      }
    }
  }

  lemma {:induction false} DistinctDatesAscend(nights: seq<Night>)
    requires OnePerDate(nights)
    ensures Ascending(SortByDate(nights))
  {
    if nights != [] {
      DistinctDatesAscend(nights[1..]);
      SortMultiset(nights[1..]);
      var rest := SortByDate(nights[1..]);
      forall i | 0 <= i < |rest| ensures rest[i].date != nights[0].date {
        assert rest[i] in rest && rest[i] in nights[1..];
      }
      InsertAscending(nights[0], rest);
    }
  }

  /**
   * Read back night by night, what was sent for a mapped type is exactly its nights, each once; with
   * one entry per date the ranges are ordered, disjoint and maximal.
   */
  lemma {:induction false} ChannelSeesTheNights(propertyId: string, nights: seq<TypeNight>,
      roomTypeMap: map<string, string>, t: string)
    requires SoleUser(FirstSeen(TypesOf(nights)), roomTypeMap, t)
    ensures var runs := RunsOn(RangesFor(propertyId, nights, FirstSeen(TypesOf(nights)), roomTypeMap), roomTypeMap[t]);
      && runs == RunsFor(nights, t)
      && multiset(Expand(runs)) == multiset(NightsFor(nights, t))
      && (OnePerDate(NightsFor(nights, t)) ==> OrderedAndMaximal(runs))
  {
    RunsOnOne(propertyId, nights, FirstSeen(TypesOf(nights)), roomTypeMap, t);
    if t !in FirstSeen(TypesOf(nights)) {
      AbsentType(nights, t);
    }
    ExpandCompress(SortByDate(NightsFor(nights, t)));
    SortMultiset(NightsFor(nights, t));
    if OnePerDate(NightsFor(nights, t)) {
      DistinctDatesAscend(NightsFor(nights, t));
      CompressShape(SortByDate(NightsFor(nights, t)));
    }
  }

  /** No shorter list of ranges tells the channel the same. */
  lemma {:induction false} FewestUpdates(nights: seq<TypeNight>, t: string, others: seq<Run>)
    requires OnePerDate(NightsFor(nights, t))
    requires forall n :: n in Expand(others) <==> n in NightsFor(nights, t)
    ensures |RunsFor(nights, t)| <= |others|
  {
    var list := NightsFor(nights, t);
    DistinctDatesAscend(list);
    SortMultiset(list);
    FewestRuns(SortByDate(list), others);
  }

  // ---------- Two types under one id ----------

  /** How many nights all the listed types under one channel id have together. */
  function NightsUnder(nights: seq<TypeNight>, types: seq<string>, roomTypeMap: map<string, string>,
      channelId: string): nat {
    if types == [] then 0
    else
      var t := types[|types| - 1];
      NightsUnder(nights, types[..|types| - 1], roomTypeMap, channelId)
      + (if IsMapped(roomTypeMap, t) && roomTypeMap[t] == channelId then |NightsFor(nights, t)| else 0)
  }

  lemma {:induction false} ExpandAppend(a: seq<Run>, b: seq<Run>)
    ensures Expand(a + b) == Expand(a) + Expand(b)
  {
    if a == [] {
      assert a + b == b;
    } else {
      assert (a + b)[1..] == a[1..] + b;
      ExpandAppend(a[1..], b);
    }
  }

  lemma {:induction false} NightsReadUnder(propertyId: string, nights: seq<TypeNight>,
      types: seq<string>, roomTypeMap: map<string, string>, channelId: string)
    ensures |Expand(RunsOn(RangesFor(propertyId, nights, types, roomTypeMap), channelId))| ==
        NightsUnder(nights, types, roomTypeMap, channelId)
  {
    hide Expand, RunsOn, NightsFor, RunsFor;
    if types == [] {
      NothingRead(channelId);
    } else {
      var init, u := types[..|types| - 1], types[|types| - 1];
      var before := RangesFor(propertyId, nights, init, roomTypeMap);
      NightsReadUnder(propertyId, nights, init, roomTypeMap, channelId);
      if IsMapped(roomTypeMap, u) {
        RunsOnAppend(before, propertyId, roomTypeMap[u], RunsFor(nights, u), channelId);
        ExpandAppend(RunsOn(before, channelId), if roomTypeMap[u] == channelId then RunsFor(nights, u) else []);
        RunsForLength(nights, u);
        NothingRead(channelId);
      } else {
        assert RangesFor(propertyId, nights, types, roomTypeMap) == before;
      }
    }
  }

  lemma NothingRead(channelId: string)
    ensures RunsOn([], channelId) == [] && Expand([]) == []
  {}

  lemma RunsForLength(nights: seq<TypeNight>, t: string)
    ensures |Expand(RunsFor(nights, t))| == |NightsFor(nights, t)|
  {
    ExpandCompress(SortByDate(NightsFor(nights, t)));
    SortMultiset(NightsFor(nights, t));
    assert |multiset(SortByDate(NightsFor(nights, t)))| == |multiset(NightsFor(nights, t))|;
  }

  lemma {:induction false} OthersAdd(nights: seq<TypeNight>, types: seq<string>,
      roomTypeMap: map<string, string>, t: string)
    requires IsMapped(roomTypeMap, t)
    requires forall i :: 0 <= i < |types| ==> NightsFor(nights, types[i]) != []
    ensures NightsUnder(nights, types, roomTypeMap, roomTypeMap[t])
         >= (if t in types then |NightsFor(nights, t)| else 0) + (if SoleUser(types, roomTypeMap, t) then 0 else 1)
  {
    hide NightsFor;
    if types != [] {
      var init, u := types[..|types| - 1], types[|types| - 1];
      OthersAdd(nights, init, roomTypeMap, t);
      assert types == init + [u];
      assert NightsFor(nights, types[|types| - 1]) != [];
    }
  }

  lemma {:induction false} ListedHaveNights(nights: seq<TypeNight>, t: string)
    requires t in TypesOf(nights)
    ensures NightsFor(nights, t) != []
  {
    var init := nights[..|nights| - 1];
    assert TypesOf(nights) == TypesOf(init) + [nights[|nights| - 1].roomType];
    if nights[|nights| - 1].roomType != t {
      ListedHaveNights(init, t);
    }
  }

  /** What each listed type sends under a channel id, in the order listed. */
  function ListsUnder(nights: seq<TypeNight>, types: seq<string>, roomTypeMap: map<string, string>,
      channelId: string): seq<seq<Night>> {
    seq(|types|, i requires 0 <= i < |types| =>
      if IsMapped(roomTypeMap, types[i]) && roomTypeMap[types[i]] == channelId then SortByDate(NightsFor(nights, types[i])) else [])
  }

  lemma RunsForExpand(nights: seq<TypeNight>, t: string)
    ensures Expand(RunsFor(nights, t)) == SortByDate(NightsFor(nights, t))
  {
    ExpandCompress(SortByDate(NightsFor(nights, t)));
  }

  /** For every mapping, an id is sent the date-ordered nights of every listed type under it. */
  lemma {:induction false} IdIsSentTheLists(propertyId: string, nights: seq<TypeNight>, types: seq<string>,
      roomTypeMap: map<string, string>, channelId: string)
    ensures Expand(RunsOn(RangesFor(propertyId, nights, types, roomTypeMap), channelId))
         == Flatten(ListsUnder(nights, types, roomTypeMap, channelId))
  {
    hide Expand, RunsOn, NightsFor, RunsFor, SortByDate;
    if types == [] {
      NothingRead(channelId);
    } else {
      var init, u, lists := types[..|types| - 1], types[|types| - 1], ListsUnder(nights, types, roomTypeMap, channelId);
      var before := RangesFor(propertyId, nights, init, roomTypeMap);
      IdIsSentTheLists(propertyId, nights, init, roomTypeMap, channelId);
      assert lists[..|lists| - 1] == ListsUnder(nights, init, roomTypeMap, channelId);
      if IsMapped(roomTypeMap, u) {
        RunsOnAppend(before, propertyId, roomTypeMap[u], RunsFor(nights, u), channelId);
        ExpandAppend(RunsOn(before, channelId), if roomTypeMap[u] == channelId then RunsFor(nights, u) else []);
        RunsForExpand(nights, u);
        NothingRead(channelId);
      } else {
        assert RangesFor(propertyId, nights, types, roomTypeMap) == before;
      }
    }
  }

  /**
   * A channel that keeps the last figure sent shows a type's own figure for a night if and only if the
   * last listed type under its id with a figure for that night has the same.
   */
  lemma LastFigureIsShown(propertyId: string, nights: seq<TypeNight>, types: seq<string>,
      roomTypeMap: map<string, string>, k: nat, date: int)
    requires k < |types| && IsMapped(roomTypeMap, types[k]) && Shown(SortByDate(NightsFor(nights, types[k])), date).Some?
    ensures var id := roomTypeMap[types[k]];
      var sent, lists := Expand(RunsOn(RangesFor(propertyId, nights, types, roomTypeMap), id)), ListsUnder(nights, types, roomTypeMap, id);
      var own := Shown(SortByDate(NightsFor(nights, types[k])), date);
      Shown(sent, date) == own <==> forall j :: k <= j && IsLastWith(lists, date, j) ==> Shown(lists[j], date) == own
  {
    var id := roomTypeMap[types[k]];
    IdIsSentTheLists(propertyId, nights, types, roomTypeMap, id);
    assert ListsUnder(nights, types, roomTypeMap, id)[k] == SortByDate(NightsFor(nights, types[k]));
    hide Shown, Flatten, SortByDate, Expand, RunsOn, RangesFor, NightsFor;
    OwnIsShown(ListsUnder(nights, types, roomTypeMap, id), date, k);
  }

  /**
   * The mapping must not give two listed types one channel id: a listed mapped type's id is sent only
   * its own nights exactly when it is the only listed one under the id.
   */
  lemma IdIsSentOnlyOwnNights(propertyId: string, nights: seq<TypeNight>, roomTypeMap: map<string, string>, t: string)
    requires t in TypesOf(nights) && IsMapped(roomTypeMap, t)
    ensures multiset(Expand(RunsOn(RangesFor(propertyId, nights, FirstSeen(TypesOf(nights)), roomTypeMap), roomTypeMap[t])))
              == multiset(NightsFor(nights, t))
       <==> SoleUser(FirstSeen(TypesOf(nights)), roomTypeMap, t)
  {
    hide Expand, RunsOn, NightsFor, RangesFor, RunsFor;
    var types := FirstSeen(TypesOf(nights));
    var read := Expand(RunsOn(RangesFor(propertyId, nights, types, roomTypeMap), roomTypeMap[t]));
    if SoleUser(types, roomTypeMap, t) {
      ChannelSeesTheNights(propertyId, nights, roomTypeMap, t);
    } else {
      forall i | 0 <= i < |types| ensures NightsFor(nights, types[i]) != [] {
        assert types[i] in types;
        ListedHaveNights(nights, types[i]);
      }
      NightsReadUnder(propertyId, nights, types, roomTypeMap, roomTypeMap[t]);
      OthersAdd(nights, types, roomTypeMap, t);
      assert |multiset(read)| == |read| && |multiset(NightsFor(nights, t))| == |NightsFor(nights, t)|;
    }
  }

  /** What two listed types send under one id, in the order listed. */
  lemma TwoUnderOneId(propertyId: string, nights: seq<TypeNight>, a: string, b: string, ids: map<string, string>)
    requires IsMapped(ids, a) && IsMapped(ids, b) && ids[a] == ids[b]
    ensures RunsOn(RangesFor(propertyId, nights, [a, b], ids), ids[a]) == RunsFor(nights, a) + RunsFor(nights, b)
  {
    var first := ToUpdates(propertyId, ids[a], RunsFor(nights, a));
    assert RangesFor(propertyId, nights, [a, b][..1][..0], ids) == [];
    assert [a, b][..1] == [a] && [a][..0] == [];
    assert RangesFor(propertyId, nights, [a], ids) == [] + first;
    RunsOnAppend([], propertyId, ids[a], RunsFor(nights, a), ids[a]);
    RunsOnAppend([] + first, propertyId, ids[a], RunsFor(nights, b), ids[a]);
    NothingRead(ids[a]);
  }

  lemma OneNight(n: TypeNight)
    ensures RunsFor([n], n.roomType) == [Run(n.date, n.date, n.available)]
  {
    var only := Night(n.date, n.available);
    assert [n][..0] == [];
    assert NightsFor([n], n.roomType) == NightsFor([n][..0], n.roomType) + [only] == [only];
    assert [only][1..] == [];
    assert SortByDate([only]) == Insert(only, SortByDate([only][1..])) == [only];
  }

  /** Another type's night makes no difference. */
  lemma OtherNight(nights: seq<TypeNight>, n: TypeNight, t: string)
    requires n.roomType != t
    ensures RunsFor(nights + [n], t) == RunsFor(nights, t) && RunsFor([n] + nights, t) == RunsFor(nights, t)
  {
    assert (nights + [n])[..|nights|] == nights;
    assert NightsFor(nights + [n], t) == NightsFor(nights, t);
    OtherNightFirst(nights, n, t);
  }

  lemma {:induction false} OtherNightFirst(nights: seq<TypeNight>, n: TypeNight, t: string)
    requires n.roomType != t
    ensures NightsFor([n] + nights, t) == NightsFor(nights, t)
  {
    if nights == [] {
      assert [n] + nights == [n] && NightsFor([n][..0], t) == [];
    } else {
      assert ([n] + nights)[..|nights|] == [n] + nights[..|nights| - 1];
      OtherNightFirst(nights[..|nights| - 1], n, t);
    }
  }

  /** Two types under one id, one with three rooms free and one with none: the channel reads both figures for
      one night. */
  lemma SharedIdOverwrites()
    ensures var nights := [TypeNight("deluxe", 0, 3), TypeNight("suite", 0, 0)];
      var updates := RangesFor("p", nights, ["deluxe", "suite"], map["deluxe" := "id", "suite" := "id"]);
      RunsOn(updates, "id") == [Run(0, 0, 3), Run(0, 0, 0)]
  {
    var deluxe, suite := TypeNight("deluxe", 0, 3), TypeNight("suite", 0, 0);
    var ids := map["deluxe" := "id", "suite" := "id"];
    assert [deluxe] + [suite] == [deluxe, suite];
    hide RunsFor, RunsOn, RangesFor;
    OneNight(deluxe);
    OneNight(suite);
    OtherNight([deluxe], suite, "deluxe");
    OtherNight([suite], deluxe, "suite");
    TwoUnderOneId("p", [deluxe, suite], "deluxe", "suite", ids);
  }
}
