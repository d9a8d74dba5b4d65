/** The availability push from end to end: count, cap, compress; and what the channel reads out of it. */
module ChannelAvailability {
  import opened Common
  import opened Rounding
  import opened Runs
  import opened Availability
  import opened ChannelRanges

  /** A rate-grid cell: the type's cap for the night (zero when sales are stopped) and any caps set for single
      connections. */
  datatype Cell = Cell(available: int, channels: map<string, int>)

  type Grid = map<(string, int), Cell>

  function Cap(n: TypeNight, grid: Grid, connectionId: string): TypeNight {
    if (n.roomType, n.date) !in grid then n
    else
      var cell := grid[(n.roomType, n.date)];
      var capped := Min(n.available, cell.available);
      n.(available := if connectionId in cell.channels then Min(capped, cell.channels[connectionId]) else capped)
  }

  /** A cap only ever lowers, to the lowest bound that applies. */
  lemma CapIsTheLowestBound(n: TypeNight, grid: Grid, connectionId: string, bound: int)
    ensures var c, key := Cap(n, grid, connectionId), (n.roomType, n.date);
      && c.roomType == n.roomType && c.date == n.date
      && (bound <= c.available <==>
           && bound <= n.available
           && (key in grid ==> bound <= grid[key].available)
           && (key in grid && connectionId in grid[key].channels ==> bound <= grid[key].channels[connectionId]))
  {}

  /** A cap set for this connection is the figure published exactly when it is within the count and the grid's cap. */
  lemma ConnectionCapWins(n: TypeNight, grid: Grid, connectionId: string)
    requires (n.roomType, n.date) in grid && connectionId in grid[(n.roomType, n.date)].channels
    ensures var cell, own := grid[(n.roomType, n.date)], grid[(n.roomType, n.date)].channels[connectionId];
      Cap(n, grid, connectionId).available == own <==> own <= n.available && own <= cell.available
  {}

  /** Six rooms free, a grid cap of two and five for this connection: two are published. */
  lemma ConnectionCapLoses()
    ensures Cap(TypeNight("deluxe", 0, 6), map[("deluxe", 0) := Cell(2, map["ota" := 5])], "ota").available == 2
  {}

  function CapAll(nights: seq<TypeNight>, grid: Grid, connectionId: string): seq<TypeNight> {
    seq(|nights|, i requires 0 <= i < |nights| => Cap(nights[i], grid, connectionId))
  }

  /** What a type offers on a night once every cap is applied; the grid is absent when no rate engine is fitted. */
  function Offered(rooms: seq<string>, stays: seq<Stay>, grid: Option<Grid>, connectionId: string,
      t: string, date: int): int {
    var n := TypeNight(t, date, Free(rooms, stays, t, date));
    if grid.Some? then Cap(n, grid.value, connectionId).available else n.available
  }

  /** What is offered is the lowest of the rooms left, the grid's cap and this connection's: no lower, no higher. */
  lemma OfferedIsTheLowest(rooms: seq<string>, stays: seq<Stay>, grid: Option<Grid>, connectionId: string,
      t: string, date: int, bound: int)
    ensures bound <= Offered(rooms, stays, grid, connectionId, t, date) <==>
      && (bound <= 0 || bound <= multiset(rooms)[t] - |InHouseOn(stays, t, date)|)
      && (grid.Some? && (t, date) in grid.value ==>
           bound <= grid.value[(t, date)].available
           && (connectionId in grid.value[(t, date)].channels ==> bound <= grid.value[(t, date)].channels[connectionId]))
  {
    FreeIsRoomsLessStays(rooms, stays, t, date);
    hide Free, InHouseOn;
  }

  function Nights(rooms: seq<string>, stays: seq<Stay>, start: int, end: int, grid: Option<Grid>,
      connectionId: string): seq<TypeNight> {
    var counted := NightsOfAll(rooms, stays, FirstSeen(rooms), start, end);
    if grid.Some? then CapAll(counted, grid.value, connectionId) else counted
  }

  function Published(propertyId: string, rooms: seq<string>, stays: seq<Stay>, start: int, end: int,
                     grid: Option<Grid>, connectionId: string, roomTypeMap: map<string, string>): seq<Update>
  {
    var nights := Nights(rooms, InWindow(stays, start, end), start, end, grid, connectionId);
    RangesFor(propertyId, nights, FirstSeen(TypesOf(nights)), roomTypeMap)
  }

  /** Reads the stays touching the window, counts, caps and compresses. */
  method PushAvailability(propertyId: string, rooms: seq<string>, stays: seq<Stay>, start: int, end: int,
                          grid: Option<Grid>, connectionId: string, roomTypeMap: map<string, string>)
    returns (updates: seq<Update>, unmapped: seq<string>)
    ensures updates == Published(propertyId, rooms, stays, start, end, grid, connectionId, roomTypeMap)
    ensures forall i :: 0 <= i < |updates| ==> updates[i].propertyId == propertyId
    ensures unmapped == Unmapped(FirstSeen(TypesOf(Nights(rooms, InWindow(stays, start, end), start, end, grid, connectionId))), roomTypeMap)
  {
    var nights := ComputeAvailability(rooms, InWindow(stays, start, end), start, end);
    if grid.Some? {
      nights := CapAll(nights, grid.value, connectionId);
    }
    updates, unmapped := ToAvailabilityRanges(propertyId, nights, roomTypeMap);
  }

  // ---------- What the channel reads ----------

  /** The answer a channel should hold for one type: every night of the window, in order. */
  function Expected(rooms: seq<string>, stays: seq<Stay>, grid: Option<Grid>, connectionId: string,
      t: string, start: int, end: int): (r: seq<Night>)
    ensures |r| == Max(0, end - start)
  {
    seq(Max(0, end - start), i => Night(start + i, Offered(rooms, stays, grid, connectionId, t, start + i)))
  }

  lemma {:induction false} NightsForAppend(a: seq<TypeNight>, b: seq<TypeNight>, t: string)
    ensures NightsFor(a + b, t) == NightsFor(a, t) + NightsFor(b, t)
    decreases |b|
  {
    if b == [] {
      assert a + b == a;
    } else {
      assert (a + b)[..|a + b| - 1] == a + b[..|b| - 1];
      NightsForAppend(a, b[..|b| - 1], t);
    }
  }

  lemma {:induction false} NightsForOne(nights: seq<TypeNight>, u: string, t: string)
    requires forall i :: 0 <= i < |nights| ==> nights[i].roomType == u
    ensures NightsFor(nights, t)
         == if t == u then seq(|nights|, i requires 0 <= i < |nights| => Night(nights[i].date, nights[i].available)) else []
  {
    if nights != [] {
      NightsForOne(nights[..|nights| - 1], u, t);
    }
  }

  function CapIf(nights: seq<TypeNight>, grid: Option<Grid>, connectionId: string): seq<TypeNight> {
    if grid.Some? then CapAll(nights, grid.value, connectionId) else nights
  }

  lemma CapIfAppend(a: seq<TypeNight>, b: seq<TypeNight>, grid: Option<Grid>, connectionId: string)
    ensures CapIf(a + b, grid, connectionId) == CapIf(a, grid, connectionId) + CapIf(b, grid, connectionId)
  {}

  lemma NightsOfOneBlock(rooms: seq<string>, stays: seq<Stay>, u: string, start: int, end: int,
                         grid: Option<Grid>, connectionId: string, t: string)
    ensures NightsFor(CapIf(NightsOf(rooms, stays, u, start, end), grid, connectionId), t)
         == if t == u then Expected(rooms, stays, grid, connectionId, t, start, end) else []
  {
    hide Free, NightsOf;
    var nights := NightsOf(rooms, stays, u, start, end);
    var capped := CapIf(nights, grid, connectionId);
    NightsForOne(capped, u, t);
    if t == u {
      forall i | 0 <= i < |nights|
        ensures Night(capped[i].date, capped[i].available) ==
            Night(start + i, Offered(rooms, stays, grid, connectionId, t, start + i))
      {}
      assert NightsFor(capped, t) == Expected(rooms, stays, grid, connectionId, t, start, end);
    }
  }

  lemma NightsOfTypesStep(rooms: seq<string>, stays: seq<Stay>, types: seq<string>, start: int, end: int,
                          grid: Option<Grid>, connectionId: string, t: string)
    requires types != []
    ensures NightsFor(CapIf(NightsOfAll(rooms, stays, types, start, end), grid, connectionId), t)
         == NightsFor(CapIf(NightsOfAll(rooms, stays, types[..|types| - 1], start, end), grid, connectionId), t)
          + (if t == types[|types| - 1] then Expected(rooms, stays, grid, connectionId, t, start, end) else [])
  {
    hide NightsOf, Expected, NightsFor, CapIf;
    var init, u := types[..|types| - 1], types[|types| - 1];
    var before, nights := NightsOfAll(rooms, stays, init, start, end), NightsOf(rooms, stays, u, start, end);
    CapIfAppend(before, nights, grid, connectionId);
    NightsForAppend(CapIf(before, grid, connectionId), CapIf(nights, grid, connectionId), t);
    NightsOfOneBlock(rooms, stays, u, start, end, grid, connectionId, t);
  }

  lemma {:induction false} NightsOfOneType(rooms: seq<string>, stays: seq<Stay>, types: seq<string>,
      start: int, end: int, grid: Option<Grid>, connectionId: string, t: string)
    requires forall i, j :: 0 <= i < j < |types| ==> types[i] != types[j]
    ensures NightsFor(CapIf(NightsOfAll(rooms, stays, types, start, end), grid, connectionId), t)
         == if t in types then Expected(rooms, stays, grid, connectionId, t, start, end) else []
  {
    hide Expected;
    if types != [] {
      var init := types[..|types| - 1];
      assert types == init + [types[|types| - 1]];
      NightsOfOneType(rooms, stays, init, start, end, grid, connectionId, t);
      NightsOfTypesStep(rooms, stays, types, start, end, grid, connectionId, t);
    }
  }

  lemma ExpectedIgnoresOthers(rooms: seq<string>, stays: seq<Stay>, grid: Option<Grid>, connectionId: string,
      t: string, start: int, end: int)
    ensures Expected(rooms, InWindow(stays, start, end), grid, connectionId, t, start, end)
         == Expected(rooms, stays, grid, connectionId, t, start, end)
  {
    forall date | start <= date < end
      ensures Offered(rooms, InWindow(stays, start, end), grid, connectionId, t, date) ==
          Offered(rooms, stays, grid, connectionId, t, date)
    {
      WindowQueryIsEnough(stays, start, end, t, date);
    }
  }

  /**
   * The whole push, read back at the channel: a mapped type with rooms shows every night of the
   * window once, in order, at exactly the rooms left under the caps, in ordered maximal ranges, and
   * no shorter list of ranges says the same. A type with no rooms sends nothing.
   */
  lemma ChannelReadsWhatIsFree(propertyId: string, rooms: seq<string>, stays: seq<Stay>, start: int, end: int,
                               grid: Option<Grid>, connectionId: string, roomTypeMap: map<string, string>, t: string)
    requires SoleUser(rooms, roomTypeMap, t)
    ensures var runs := RunsOn(Published(propertyId, rooms, stays, start, end, grid, connectionId, roomTypeMap), roomTypeMap[t]);
      && Expand(runs) == (if t in rooms then Expected(rooms, stays, grid, connectionId, t, start, end) else [])
      && OrderedAndMaximal(runs)
      && (forall others :: (forall n :: n in Expand(others) <==> n in Expand(runs)) ==> |runs| <= |others|)
  {
    assert IsMapped(roomTypeMap, t) && t in roomTypeMap;
    hide *;
    var nights := Nights(rooms, InWindow(stays, start, end), start, end, grid, connectionId);
    NightsRead(rooms, stays, start, end, grid, connectionId, t);
    SoleUserOfNights(rooms, InWindow(stays, start, end), start, end, grid, connectionId, roomTypeMap, t);
    PublishedRuns(propertyId, rooms, stays, start, end, grid, connectionId, roomTypeMap, t);
    var list := NightsFor(nights, t);
    ExpandCompress(list);
    CompressShape(list);
    forall others | forall n :: n in Expand(others) <==> n in Expand(Compress(list))
      ensures |Compress(list)| <= |others|
    {
      FewestRuns(list, others);
    }
  }

  lemma NightsRead(rooms: seq<string>, stays: seq<Stay>, start: int, end: int, grid: Option<Grid>,
      connectionId: string, t: string)
    ensures var list := NightsFor(Nights(rooms, InWindow(stays, start, end), start, end, grid, connectionId), t);
      && list == (if t in rooms then Expected(rooms, stays, grid, connectionId, t, start, end) else [])
      && Ascending(list)
  {
    hide NightsFor, NightsOfAll, InWindow, Offered;
    NightsOfOneType(rooms, InWindow(stays, start, end), FirstSeen(rooms), start, end, grid, connectionId, t);
    ExpectedIgnoresOthers(rooms, stays, grid, connectionId, t, start, end);
  }

  lemma PublishedRuns(propertyId: string, rooms: seq<string>, stays: seq<Stay>, start: int, end: int,
                      grid: Option<Grid>, connectionId: string, roomTypeMap: map<string, string>, t: string)
    requires var nights := Nights(rooms, InWindow(stays, start, end), start, end, grid, connectionId);
      SoleUser(FirstSeen(TypesOf(nights)), roomTypeMap, t) && Ascending(NightsFor(nights, t))
    requires IsMapped(roomTypeMap, t) && t in roomTypeMap
    ensures RunsOn(Published(propertyId, rooms, stays, start, end, grid, connectionId, roomTypeMap), roomTypeMap[t])
         == Compress(NightsFor(Nights(rooms, InWindow(stays, start, end), start, end, grid, connectionId), t))
  {
    hide Nights, NightsFor, InWindow, SortByDate, Compress, RangesFor, RunsOn, SoleUser;
    var nights := Nights(rooms, InWindow(stays, start, end), start, end, grid, connectionId);
    ChannelSeesTheNights(propertyId, nights, roomTypeMap, t);
    SortedAlready(NightsFor(nights, t));
  }

  lemma {:induction false} SortedAlready(nights: seq<Night>)
    requires Ascending(nights)
    ensures SortByDate(nights) == nights
  {
    if nights != [] {
      SortedAlready(nights[1..]);
    }
  }

  /** Only types with rooms are ever listed. */
  lemma SoleUserOfNights(rooms: seq<string>, stays: seq<Stay>, start: int, end: int,
                         grid: Option<Grid>, connectionId: string, roomTypeMap: map<string, string>, t: string)
    requires SoleUser(rooms, roomTypeMap, t)
    ensures SoleUser(FirstSeen(TypesOf(Nights(rooms, stays, start, end, grid, connectionId))), roomTypeMap, t)
  {
    var nights := Nights(rooms, stays, start, end, grid, connectionId);
    var types := FirstSeen(TypesOf(nights));
    forall i | 0 <= i < |types| ensures types[i] in rooms {
      assert types[i] in types;
      ListedHaveNights(nights, types[i]);
      NightsOfOneType(rooms, stays, FirstSeen(rooms), start, end, grid, connectionId, types[i]);
    }
  }
}
