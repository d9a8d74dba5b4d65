/** Free rooms per type and night: how many a type has, less the stays in house, never below zero. */
module Availability {
  import opened Rounding

  /** `checkOut` is exclusive; dates are day numbers. */
  datatype Stay = Stay(roomType: string, checkIn: int, checkOut: int) {
    predicate InHouse(date: int) {
      checkIn <= date < checkOut
    }
  }

  datatype TypeNight = TypeNight(roomType: string, date: int, available: int)

  // ---------- What the numbers mean ----------

  function RoomCount(rooms: seq<string>, t: string): nat {
    if rooms == [] then 0
    else RoomCount(rooms[..|rooms| - 1], t) + (if rooms[|rooms| - 1] == t then 1 else 0)
  }

  function Occupied(stays: seq<Stay>, t: string, date: int): nat {
    if stays == [] then 0
    else (if stays[0].roomType == t && stays[0].InHouse(date) then 1 else 0) + Occupied(stays[1..], t, date)
  }

  function Free(rooms: seq<string>, stays: seq<Stay>, t: string, date: int): int {
    Max(0, RoomCount(rooms, t) - Occupied(stays, t, date))
  }

  /** The distinct elements in the order they first occur: the key order of a JavaScript Map. */
  function FirstSeen(xs: seq<string>): (keys: seq<string>)
    ensures forall x :: x in keys <==> x in xs
    ensures forall i, j :: 0 <= i < j < |keys| ==> keys[i] != keys[j]
  {
    if xs == [] then []
    else
      var keys, x := FirstSeen(xs[..|xs| - 1]), xs[|xs| - 1];
      assert xs == xs[..|xs| - 1] + [x];
      if x in keys then keys else keys + [x]
  }

  /** Nights `start` up to but not including `date` for one type. */
  function NightsOf(rooms: seq<string>, stays: seq<Stay>, t: string, start: int, date: int): (nights: seq<TypeNight>)
    ensures |nights| == Max(0, date - start)
    ensures forall i :: 0 <= i < |nights| ==> nights[i] == TypeNight(t, start + i, Free(rooms, stays, t, start + i))
    decreases date - start
  {
    if date <= start then []
    else NightsOf(rooms, stays, t, start, date - 1) + [TypeNight(t, date - 1, Free(rooms, stays, t, date - 1))]
  }

  function NightsOfAll(rooms: seq<string>, stays: seq<Stay>, types: seq<string>, start: int, end: int): seq<TypeNight> {
    if types == [] then []
    else
      NightsOfAll(rooms, stays, types[..|types| - 1], start, end)
      + NightsOf(rooms, stays, types[|types| - 1], start, end)
  }

  /** Rooms of a type are counted once for each time the list names it. */
  lemma {:induction false} RoomCountIsMultiplicity(rooms: seq<string>, t: string)
    ensures RoomCount(rooms, t) == multiset(rooms)[t]
  {
    if rooms != [] {
      RoomCountIsMultiplicity(rooms[..|rooms| - 1], t);
      assert rooms == rooms[..|rooms| - 1] + [rooms[|rooms| - 1]];
    }
  }

  /** The stays that take a room of the type on the night: arrived by then, and leaving on a later day. */
  ghost function InHouseOn(stays: seq<Stay>, t: string, date: int): set<int> {
    set i | 0 <= i < |stays| && stays[i].roomType == t && stays[i].checkIn <= date && date < stays[i].checkOut
  }

  lemma {:induction false} OccupiedSnoc(stays: seq<Stay>, s: Stay, t: string, date: int)
    ensures Occupied(stays + [s], t, date) == Occupied(stays, t, date) + (if s.roomType == t && s.InHouse(date) then 1 else 0)
  {
    if stays == [] {
      assert [] + [s] == [s] && [s][1..] == [];
    } else {
      assert (stays + [s])[1..] == stays[1..] + [s];
      OccupiedSnoc(stays[1..], s, t, date);
    }
  }

  lemma InHouseSnoc(stays: seq<Stay>, s: Stay, t: string, date: int)
    ensures |InHouseOn(stays + [s], t, date)|
         == |InHouseOn(stays, t, date)| + (if s.roomType == t && s.InHouse(date) then 1 else 0)
  {
    var all := stays + [s];
    forall i | 0 <= i < |stays| ensures i in InHouseOn(all, t, date) <==> i in InHouseOn(stays, t, date) {
      assert all[i] == stays[i];
    }
    assert |stays| in InHouseOn(all, t, date) <==> s.roomType == t && s.InHouse(date);
    var own := if s.roomType == t && s.InHouse(date) then {|stays|} else {};
    assert InHouseOn(all, t, date) == InHouseOn(stays, t, date) + own;
  }

  lemma {:induction false} OccupiedIsInHouse(stays: seq<Stay>, t: string, date: int)
    ensures Occupied(stays, t, date) == |InHouseOn(stays, t, date)|
  {
    if stays == [] {
      assert InHouseOn(stays, t, date) == {};
    } else {
      var init, last := stays[..|stays| - 1], stays[|stays| - 1];
      assert stays == init + [last];
      hide Occupied, InHouseOn;
      OccupiedIsInHouse(init, t, date);
      OccupiedSnoc(init, last, t, date);
      InHouseSnoc(init, last, t, date);
    }
  }

  lemma FreeIsRoomsLessStays(rooms: seq<string>, stays: seq<Stay>, t: string, date: int)
    ensures Free(rooms, stays, t, date)
         == if multiset(rooms)[t] > |InHouseOn(stays, t, date)| then multiset(rooms)[t] - |InHouseOn(stays, t, date)| else 0
  {
    RoomCountIsMultiplicity(rooms, t);
    OccupiedIsInHouse(stays, t, date);
  }

  /** Each type stands where it is first seen: everything before that place is listed before it. */
  lemma {:induction false} FirstSeenInOrder(xs: seq<string>, k: nat)
    requires k < |FirstSeen(xs)|
    ensures exists p :: 0 <= p < |xs| && xs[p] == FirstSeen(xs)[k] && forall q :: 0 <= q < p ==> xs[q] in FirstSeen(xs)[..k]
  {
    var init := xs[..|xs| - 1];
    var before, all := FirstSeen(init), FirstSeen(xs);
    if k < |before| {
      FirstSeenInOrder(init, k);
      var p :| 0 <= p < |init| && init[p] == before[k] && forall q :: 0 <= q < p ==> init[q] in before[..k];
      assert all[..k] == before[..k] && xs[p] == all[k] && forall q :: 0 <= q < p ==> xs[q] == init[q];
    } else {
      assert all == before + [xs[|xs| - 1]] && all[..k] == before;
      assert xs[|xs| - 1] == all[k] && forall q :: 0 <= q < |xs| - 1 ==> xs[q] == init[q] && init[q] in init;
    }
  }

  // ---------- computeAvailability ----------

  function StaysOf(stays: seq<Stay>, t: string): seq<Stay> {
    if stays == [] then []
    else (if stays[0].roomType == t then [stays[0]] else []) + StaysOf(stays[1..], t)
  }

  function CountInHouse(stays: seq<Stay>, date: int): nat {
    if stays == [] then 0 else (if stays[0].InHouse(date) then 1 else 0) + CountInHouse(stays[1..], date)
  }

  /** Filtering by type first and by night second counts the same stays. */
  lemma {:induction false} FilteredCount(stays: seq<Stay>, t: string, date: int)
    ensures CountInHouse(StaysOf(stays, t), date) == Occupied(stays, t, date)
  {
    if stays != [] {
      FilteredCount(stays[1..], t, date);
      if stays[0].roomType == t {
        assert StaysOf(stays, t)[1..] == StaysOf(stays[1..], t);
      } else {
        assert StaysOf(stays, t) == StaysOf(stays[1..], t);
      }
    }
  }

  /** The Map of room counts: its keys in insertion order, and the count of each. */
  method CountRooms(rooms: seq<string>) returns (types: seq<string>, total: map<string, nat>)
    ensures types == FirstSeen(rooms)
    ensures forall t :: t in types ==> t in total && total[t] == RoomCount(rooms, t)
  {
    types, total := [], map[];
    for i := 0 to |rooms|
      invariant types == FirstSeen(rooms[..i])
      invariant forall t :: t in total <==> t in types
      invariant forall t :: RoomCount(rooms[..i], t) == if t in total then total[t] else 0
    {
      assert rooms[..i + 1][..i] == rooms[..i];
      var r := rooms[i];
      if r !in total { types := types + [r]; }
      total := total[r := (if r in total then total[r] else 0) + 1];
    }
    assert rooms[..|rooms|] == rooms;
  }

  /** The inner loop: one type, night by night, `total` rooms less the stays of the type in house. */
  method PushNights(out: seq<TypeNight>, rooms: seq<string>, stays: seq<Stay>, t: string, total: int,
      start: int, end: int)
    returns (more: seq<TypeNight>)
    requires total == RoomCount(rooms, t)
    ensures more == out + NightsOf(rooms, stays, t, start, end)
  {
    hide RoomCount, Occupied, CountInHouse;
    var ofType := StaysOf(stays, t);
    more := out;
    var date := start;
    while date < end
      invariant start <= date <= Max(start, end)
      invariant more == out + NightsOf(rooms, stays, t, start, date)
    {
      FilteredCount(stays, t, date);
      var occupied: int := CountInHouse(ofType, date);
      more := more + [TypeNight(t, date, Max(0, total - occupied))];
      date := date + 1;
    }
  }

  method ComputeAvailability(rooms: seq<string>, stays: seq<Stay>, start: int, end: int)
    returns (out: seq<TypeNight>)
    ensures out == NightsOfAll(rooms, stays, FirstSeen(rooms), start, end)
  {
    var types, total := CountRooms(rooms);
    out := [];
    for k := 0 to |types|
      invariant out == NightsOfAll(rooms, stays, types[..k], start, end)
    {
      out := PushNights(out, rooms, stays, types[k], total[types[k]], start, end);
      assert types[..k + 1][..k] == types[..k];
    }
    assert types[..|types|] == types;
  }

  // ---------- Exactly once ----------

  /** How often a list mentions a type on a date. */
  function Mentions(nights: seq<TypeNight>, t: string, date: int): nat {
    if nights == [] then 0
    else
      var last := nights[|nights| - 1];
      Mentions(nights[..|nights| - 1], t, date) + (if last.roomType == t && last.date == date then 1 else 0)
  }

  lemma {:induction false} MentionsAppend(a: seq<TypeNight>, b: seq<TypeNight>, t: string, date: int)
    ensures Mentions(a + b, t, date) == Mentions(a, t, date) + Mentions(b, t, date)
    decreases |b|
  {
    if b == [] {
      assert a + b == a;
    } else {
      assert (a + b)[..|a + b| - 1] == a + b[..|b| - 1];
      MentionsAppend(a, b[..|b| - 1], t, date);
    }
  }

  lemma NoMentions(t: string, date: int)
    ensures Mentions([], t, date) == 0
  {}

  lemma MentionsSnoc(nights: seq<TypeNight>, n: TypeNight, t: string, date: int)
    ensures Mentions(nights + [n], t, date) == Mentions(nights, t, date) + (if n.roomType == t && n.date == date then 1 else 0)
  {
    assert (nights + [n])[..|nights|] == nights;
  }

  lemma {:induction false} NightsOfMention(rooms: seq<string>, stays: seq<Stay>, u: string, start: int,
      end: int, t: string, date: int)
    ensures Mentions(NightsOf(rooms, stays, u, start, end), t, date) == if t == u && start <= date < end then 1 else 0
    decreases end - start
  {
    hide Free, Mentions;
    if start < end {
      var before := NightsOf(rooms, stays, u, start, end - 1);
      NightsOfMention(rooms, stays, u, start, end - 1, t, date);
      MentionsSnoc(before, TypeNight(u, end - 1, Free(rooms, stays, u, end - 1)), t, date);
    } else {
      NoMentions(t, date);
    }
  }

  lemma {:induction false} NightsOfAllMention(rooms: seq<string>, stays: seq<Stay>, types: seq<string>,
      start: int, end: int, t: string, date: int)
    requires forall i, j :: 0 <= i < j < |types| ==> types[i] != types[j]
    ensures Mentions(NightsOfAll(rooms, stays, types, start, end), t, date)
         == if t in types && start <= date < end then 1 else 0
  {
    if types != [] {
      var init, u := types[..|types| - 1], types[|types| - 1];
      assert types == init + [u];
      NightsOfAllMention(rooms, stays, init, start, end, t, date);
      NightsOfMention(rooms, stays, u, start, end, t, date);
      MentionsAppend(NightsOfAll(rooms, stays, init, start, end), NightsOf(rooms, stays, u, start, end), t, date);
    }
  }

  lemma {:induction false} NightsOfAllValues(rooms: seq<string>, stays: seq<Stay>, types: seq<string>,
      start: int, end: int, n: TypeNight)
    requires n in NightsOfAll(rooms, stays, types, start, end)
    ensures n.available == Free(rooms, stays, n.roomType, n.date)
  {
    if n in NightsOfAll(rooms, stays, types[..|types| - 1], start, end) {
      NightsOfAllValues(rooms, stays, types[..|types| - 1], start, end, n);
    }
  }

  /**
   * Every type that has a room is listed exactly once on every night of the half-open window, no
   * other pair is listed, and each figure is the rooms left, never below zero.
   */
  lemma EachNightOnce(rooms: seq<string>, stays: seq<Stay>, start: int, end: int)
    ensures var out := NightsOfAll(rooms, stays, FirstSeen(rooms), start, end);
      && (forall t: string, date: int :: Mentions(out, t, date) == if t in rooms && start <= date < end then 1 else 0)
      && (forall n :: n in out ==>
            var total, taken := multiset(rooms)[n.roomType], |InHouseOn(stays, n.roomType, n.date)|;
            n.available == if total > taken then total - taken else 0)
  {
    var out := NightsOfAll(rooms, stays, FirstSeen(rooms), start, end);
    forall t: string, date: int
      ensures Mentions(out, t, date) == if t in rooms && start <= date < end then 1 else 0
    {
      NightsOfAllMention(rooms, stays, FirstSeen(rooms), start, end, t, date);
    }
    forall n | n in out ensures n.available == Free(rooms, stays, n.roomType, n.date) {
      NightsOfAllValues(rooms, stays, FirstSeen(rooms), start, end, n);
    }
    hide Free;
    forall n | n in out {
      FreeIsRoomsLessStays(rooms, stays, n.roomType, n.date);
    }
  }

  // ---------- Counting room-nights two ways ----------

  function OccupiedNights(stays: seq<Stay>, t: string, start: int, end: int): nat
    decreases end - start
  {
    if end <= start then 0 else OccupiedNights(stays, t, start, end - 1) + Occupied(stays, t, end - 1)
  }

  /** The nights a stay spends inside the window. */
  function Overlap(s: Stay, start: int, end: int): nat {
    Max(0, Min(s.checkOut, end) - Max(s.checkIn, start))
  }

  function OverlapNights(stays: seq<Stay>, t: string, start: int, end: int): nat {
    if stays == [] then 0
    else (if stays[0].roomType == t then Overlap(stays[0], start, end) else 0) + OverlapNights(stays[1..], t, start, end)
  }

  lemma {:induction false} OverlapGrows(stays: seq<Stay>, t: string, start: int, end: int)
    requires start < end
    ensures OverlapNights(stays, t, start, end) == OverlapNights(stays, t, start, end - 1) + Occupied(stays, t, end - 1)
  {
    if stays != [] {
      OverlapGrows(stays[1..], t, start, end);
    }
  }

  lemma {:induction false} EmptyOverlap(stays: seq<Stay>, t: string, start: int, end: int)
    requires end <= start
    ensures OverlapNights(stays, t, start, end) == 0
  {
    if stays != [] {
      EmptyOverlap(stays[1..], t, start, end);
    }
  }

  /**
   * Occupied room-nights added night by night are the stays' own nights in the window added stay by
   * stay: a departure and an arrival on one day share no night.
   */
  lemma {:induction false} RoomNightsAddUp(stays: seq<Stay>, t: string, start: int, end: int)
    ensures OccupiedNights(stays, t, start, end) == OverlapNights(stays, t, start, end)
    decreases end - start
  {
    if end <= start {
      EmptyOverlap(stays, t, start, end);
    } else {
      RoomNightsAddUp(stays, t, start, end - 1);
      OverlapGrows(stays, t, start, end);
    }
  }

  /** The stays the query reads: those strictly overlapping the window. */
  function InWindow(stays: seq<Stay>, start: int, end: int): seq<Stay> {
    if stays == [] then []
    else (if stays[0].checkIn < end && stays[0].checkOut > start then [stays[0]] else []) + InWindow(stays[1..], start, end)
  }

  /** Leaving the others unread changes no night of the window. */
  lemma {:induction false} WindowQueryIsEnough(stays: seq<Stay>, start: int, end: int, t: string, date: int)
    requires start <= date < end
    ensures Occupied(InWindow(stays, start, end), t, date) == Occupied(stays, t, date)
  {
    if stays != [] {
      WindowQueryIsEnough(stays[1..], start, end, t, date);
      if stays[0].checkIn < end && stays[0].checkOut > start {
        assert InWindow(stays, start, end)[1..] == InWindow(stays[1..], start, end);
      } else {
        assert InWindow(stays, start, end) == InWindow(stays[1..], start, end);
      }
    }
  }
}
