/**
 * Cash movements and cashier shifts. Entries and shifts are numbered in insertion order; cash in
 * hand is always the signed sum of the entries, never a stored figure.
 */
module Cash {
  import opened Common

  datatype EntryKind = FolioCash | PosCash | CashIn | Withdrawal | TopUp | Expense

  /** The amount is positive; the kind gives the direction. */
  datatype Entry = Entry(propertyId: string, shiftId: Option<nat>, kind: EntryKind, amountPaise: int)

  /** A shift is open until it has been closed with a declared count. */
  datatype Shift = Shift(
    propertyId: string, staffId: string, openingCash: int, closed: bool, declaredCash: Option<int>, expectedCash: Option<int>)

  datatype Drawer = Drawer(entries: seq<Entry>, shifts: seq<Shift>)

  datatype Error = AmountNotPositive | ShiftAlreadyOpen | NoOpenShift

  datatype Result<+T> = Ok(value: T) | Err(error: Error)

  function Signed(kind: EntryKind, amount: int): int {
    if kind == FolioCash || kind == PosCash || kind == CashIn || kind == TopUp then amount else -amount
  }

  function EntryCash(e: Entry): int {
    Signed(e.kind, e.amountPaise)
  }

  predicate IsOpenFor(s: Shift, propertyId: string, staffId: string) {
    s.propertyId == propertyId && s.staffId == staffId && !s.closed
  }

  function OpenShiftFor(shifts: seq<Shift>, propertyId: string, staffId: string): (r: Option<nat>)
    ensures r.Some? ==> r.value < |shifts| && IsOpenFor(shifts[r.value], propertyId, staffId)
    ensures r.None? ==> forall i :: 0 <= i < |shifts| ==> !IsOpenFor(shifts[i], propertyId, staffId)
  {
    if shifts == [] then None
    else if IsOpenFor(shifts[|shifts| - 1], propertyId, staffId) then Some(|shifts| - 1)
    else OpenShiftFor(shifts[..|shifts| - 1], propertyId, staffId)
  }

  /** The signed sum of a property's entries. */
  function Balance(entries: seq<Entry>, propertyId: string): int {
    if entries == [] then 0
    else
      var e := entries[|entries| - 1];
      Balance(entries[..|entries| - 1], propertyId) + (if e.propertyId == propertyId then EntryCash(e) else 0)
  }

  /** The signed sum of the entries recorded in one shift. */
  function ShiftCash(entries: seq<Entry>, shiftId: nat): int {
    if entries == [] then 0
    else
      var e := entries[|entries| - 1];
      ShiftCash(entries[..|entries| - 1], shiftId) + (if e.shiftId == Some(shiftId) then EntryCash(e) else 0)
  }

  /** A movement joins the recorder's open shift, if the recorder is known and has one. */
  function Record(d: Drawer, propertyId: string, kind: EntryKind, amount: int,
      recordedBy: Option<string>): Result<Drawer> {
    if amount <= 0 then Err(AmountNotPositive)
    else
      var shift := if Truthy(recordedBy) then OpenShiftFor(d.shifts, propertyId, recordedBy.value) else None;
      Ok(d.(entries := d.entries + [Entry(propertyId, shift, kind, amount)]))
  }

  function OpenShift(d: Drawer, propertyId: string, staffId: string, openingCash: int): Result<Drawer> {
    if OpenShiftFor(d.shifts, propertyId, staffId).Some? then Err(ShiftAlreadyOpen)
    else Ok(d.(shifts := d.shifts + [Shift(propertyId, staffId, openingCash, false, None, None)]))
  }

  /** Closing fixes the expected cash, the float plus the shift's movements, and returns declared minus expected. */
  function CloseShift(d: Drawer, propertyId: string, staffId: string, declaredCash: int): Result<(Drawer, int)> {
    var open := OpenShiftFor(d.shifts, propertyId, staffId);
    if open.None? then Err(NoOpenShift)
    else
      var s := d.shifts[open.value];
      var expected := s.openingCash + ShiftCash(d.entries, open.value);
      var closed := s.(closed := true, declaredCash := Some(declaredCash), expectedCash := Some(expected));
      Ok((d.(shifts := d.shifts[open.value := closed]), declaredCash - expected))
  }

  datatype Op =
    | Move(property: string, kind: EntryKind, amount: int, recordedBy: Option<string>)
    | Open(propertyId: string, staffId: string, openingCash: int)
    | Close(at: string, cashier: string, declaredCash: int)

  /** One step; a refused call changes nothing. */
  function Apply(d: Drawer, op: Op): Drawer {
    match op
    case Move(p, kind, amount, recorder) => (var r := Record(d, p, kind, amount, recorder); if r.Ok? then r.value else d)
    case Open(p, staff, cash) => (var r := OpenShift(d, p, staff, cash); if r.Ok? then r.value else d)
    case Close(p, staff, declared) => (var r := CloseShift(d, p, staff, declared); if r.Ok? then r.value.0 else d)
  }

  function Run(d: Drawer, ops: seq<Op>): Drawer
    decreases |ops|
  {
    if ops == [] then d else Run(Apply(d, ops[0]), ops[1..])
  }

  // ---------- What every run keeps ----------

  ghost predicate OneOpenShiftEach(shifts: seq<Shift>) {
    forall i, j :: 0 <= i < j < |shifts| && !shifts[i].closed && !shifts[j].closed ==>
      shifts[i].propertyId != shifts[j].propertyId || shifts[i].staffId != shifts[j].staffId
  }

  /** Entries join shifts of their own property. */
  ghost predicate EntriesBelong(entries: seq<Entry>, shifts: seq<Shift>) {
    forall i :: 0 <= i < |entries| && entries[i].shiftId.Some? ==>
      entries[i].shiftId.value < |shifts| && shifts[entries[i].shiftId.value].propertyId == entries[i].propertyId
  }

  /** What was expected at closing is still the float plus the shift's entries. */
  predicate ExpectedHolds(s: Shift, id: nat, entries: seq<Entry>) {
    if s.closed then s.expectedCash == Some(s.openingCash + ShiftCash(entries, id)) && s.declaredCash.Some?
    else s.expectedCash == None && s.declaredCash == None
  }

  ghost predicate Consistent(d: Drawer) {
    && (forall i :: 0 <= i < |d.entries| ==> d.entries[i].amountPaise > 0)
    && OneOpenShiftEach(d.shifts)
    && EntriesBelong(d.entries, d.shifts)
    && (forall id :: 0 <= id < |d.shifts| ==> ExpectedHolds(d.shifts[id], id, d.entries))
  }

  lemma ShiftCashSnoc(entries: seq<Entry>, e: Entry, id: nat)
    ensures ShiftCash(entries + [e], id) == ShiftCash(entries, id) + if e.shiftId == Some(id) then EntryCash(e) else 0
  {
    assert (entries + [e])[..|entries|] == entries;
  }

  lemma {:induction false} NoEntryNoCash(entries: seq<Entry>, id: nat)
    requires forall i :: 0 <= i < |entries| ==> entries[i].shiftId != Some(id)
    ensures ShiftCash(entries, id) == 0
  {
    if entries != [] {
      NoEntryNoCash(entries[..|entries| - 1], id);
    }
  }

  lemma MoveKeeps(d: Drawer, propertyId: string, kind: EntryKind, amount: int, recordedBy: Option<string>)
    requires Consistent(d)
    ensures Consistent(Apply(d, Move(propertyId, kind, amount, recordedBy)))
  {
    var after := Apply(d, Move(propertyId, kind, amount, recordedBy));
    forall id | 0 <= id < |d.shifts| ensures ExpectedHolds(after.shifts[id], id, after.entries) {
      assert ExpectedHolds(d.shifts[id], id, d.entries);
      if after != d {
        ShiftCashSnoc(d.entries, after.entries[|d.entries|], id);
      }
    }
  }

  lemma OpenKeeps(d: Drawer, propertyId: string, staffId: string, openingCash: int)
    requires Consistent(d)
    ensures Consistent(Apply(d, Open(propertyId, staffId, openingCash)))
  {
    hide ShiftCash;
  }

  lemma CloseKeeps(d: Drawer, propertyId: string, staffId: string, declaredCash: int)
    requires Consistent(d)
    ensures Consistent(Apply(d, Close(propertyId, staffId, declaredCash)))
  {
    hide ShiftCash;
  }

  lemma ApplyKeeps(d: Drawer, op: Op)
    requires Consistent(d)
    ensures Consistent(Apply(d, op))
  {
    hide Consistent, Apply;
    match op
    case Move(p, kind, amount, recorder) => MoveKeeps(d, p, kind, amount, recorder);
    case Open(p, staff, cash) => OpenKeeps(d, p, staff, cash);
    case Close(p, staff, declared) => CloseKeeps(d, p, staff, declared);
  }

  /**
   * Over any run: every amount positive, at most one open shift a member of staff and property, every
   * entry in a shift of its own property, and a closed shift's expected cash still the float plus its entries' signed sum.
   */
  lemma {:induction false} RunKeeps(d: Drawer, ops: seq<Op>)
    requires Consistent(d)
    ensures Consistent(Run(d, ops))
    decreases |ops|
  {
    hide Consistent, Apply;
    if ops != [] {
      ApplyKeeps(d, ops[0]);
      RunKeeps(Apply(d, ops[0]), ops[1..]);
    }
  }

  /** The entries of one shift, in order. */
  function EntriesOf(entries: seq<Entry>, shiftId: nat): seq<Entry> {
    if entries == [] then []
    else
      var e := entries[|entries| - 1];
      EntriesOf(entries[..|entries| - 1], shiftId) + (if e.shiftId == Some(shiftId) then [e] else [])
  }

  lemma ClosedStays(d: Drawer, op: Op, id: nat)
    requires id < |d.shifts| && d.shifts[id].closed
    ensures id < |Apply(d, op).shifts| && Apply(d, op).shifts[id] == d.shifts[id]
    ensures EntriesOf(Apply(d, op).entries, id) == EntriesOf(d.entries, id)
  {
    var after := Apply(d, op);
    if op.Move? && after != d {
      assert after.entries[..|d.entries|] == d.entries;
    }
  }

  /** Once closed a shift is final: its row never changes and no entry ever joins it. */
  lemma {:induction false} ClosedIsFinal(d: Drawer, ops: seq<Op>, id: nat)
    requires id < |d.shifts| && d.shifts[id].closed
    ensures id < |Run(d, ops).shifts| && Run(d, ops).shifts[id] == d.shifts[id]
    ensures EntriesOf(Run(d, ops).entries, id) == EntriesOf(d.entries, id)
    decreases |ops|
  {
    hide Apply;
    if ops != [] {
      ClosedStays(d, ops[0], id);
      ClosedIsFinal(Apply(d, ops[0]), ops[1..], id);
    }
  }

  /** The amounts of one kind at a property. */
  function OfKind(entries: seq<Entry>, propertyId: string, kind: EntryKind): int {
    if entries == [] then 0
    else
      var e := entries[|entries| - 1];
      OfKind(entries[..|entries| - 1], propertyId, kind) + (if e.propertyId == propertyId && e.kind == kind then e.amountPaise else 0)
  }

  /** Cash in hand is folio cash, till cash, cash put in and top-ups, less withdrawals and expenses. */
  lemma {:induction false} BalanceIsInLessOut(entries: seq<Entry>, propertyId: string)
    ensures Balance(entries, propertyId)
         == OfKind(entries, propertyId, FolioCash) + OfKind(entries, propertyId, PosCash) + OfKind(entries, propertyId, CashIn)
          + OfKind(entries, propertyId, TopUp) - OfKind(entries, propertyId, Withdrawal) - OfKind(entries, propertyId, Expense)
  {
    if entries != [] {
      BalanceIsInLessOut(entries[..|entries| - 1], propertyId);
    }
  }

  // ---------- The cash of a property, counted by shift ----------

  function Unattached(entries: seq<Entry>, propertyId: string): int {
    if entries == [] then 0
    else
      var e := entries[|entries| - 1];
      Unattached(entries[..|entries| - 1], propertyId) + (if e.propertyId == propertyId && e.shiftId == None then EntryCash(e) else 0)
  }

  /** What the first `n` shifts contribute: closed ones their expected less their float, open ones their entries
      so far. */
  function OverShifts(d: Drawer, propertyId: string, n: nat): int
    requires n <= |d.shifts|
  {
    if n == 0 then 0
    else
      var s := d.shifts[n - 1];
      OverShifts(d, propertyId, n - 1)
      + (if s.propertyId != propertyId then 0
         else if s.closed then s.expectedCash.GetOr(0) - s.openingCash
         else ShiftCash(d.entries, n - 1))
  }

  /** The same from the entries alone. */
  function EntriesOverShifts(entries: seq<Entry>, shifts: seq<Shift>, propertyId: string, n: nat): int
    requires n <= |shifts|
  {
    if n == 0 then 0
    else
      EntriesOverShifts(entries, shifts, propertyId, n - 1)
      + (if shifts[n - 1].propertyId == propertyId then ShiftCash(entries, n - 1) else 0)
  }

  lemma {:induction false} EntriesOverShiftsSnoc(entries: seq<Entry>, e: Entry, shifts: seq<Shift>,
      propertyId: string, n: nat)
    requires n <= |shifts|
    ensures EntriesOverShifts(entries + [e], shifts, propertyId, n) == EntriesOverShifts(entries, shifts, propertyId, n)
          + (if e.shiftId.Some? && e.shiftId.value < n && shifts[e.shiftId.value].propertyId == propertyId then EntryCash(e) else 0)
  {
    if n > 0 {
      EntriesOverShiftsSnoc(entries, e, shifts, propertyId, n - 1);
      ShiftCashSnoc(entries, e, n - 1);
    }
  }

  lemma {:induction false} NoEntries(shifts: seq<Shift>, propertyId: string, n: nat)
    requires n <= |shifts|
    ensures EntriesOverShifts([], shifts, propertyId, n) == 0
  {
    if n > 0 {
      NoEntries(shifts, propertyId, n - 1);
    }
  }

  lemma {:induction false} BalanceByShift(entries: seq<Entry>, shifts: seq<Shift>, propertyId: string)
    requires EntriesBelong(entries, shifts)
    ensures Balance(entries, propertyId) == EntriesOverShifts(entries, shifts, propertyId, |shifts|) + Unattached(entries, propertyId)
  {
    if entries == [] {
      NoEntries(shifts, propertyId, |shifts|);
    } else {
      var init, e := entries[..|entries| - 1], entries[|entries| - 1];
      BalanceByShift(init, shifts, propertyId);
      EntriesOverShiftsSnoc(init, e, shifts, propertyId, |shifts|);
      assert entries == init + [e];
    }
  }

  lemma {:induction false} ShiftsAgree(d: Drawer, propertyId: string, n: nat)
    requires Consistent(d) && n <= |d.shifts|
    ensures OverShifts(d, propertyId, n) == EntriesOverShifts(d.entries, d.shifts, propertyId, n)
  {
    if n > 0 {
      ShiftsAgree(d, propertyId, n - 1);
      assert ExpectedHolds(d.shifts[n - 1], n - 1, d.entries);
    }
  }

  /**
   * After any run from an empty drawer, the cash of a property is what its closed shifts took
   * (expected less float), what its open shifts hold so far, and what was recorded outside any shift.
   */
  lemma CashIsAccountedFor(ops: seq<Op>, propertyId: string)
    ensures var d := Run(Drawer([], []), ops);
      Balance(d.entries, propertyId) == OverShifts(d, propertyId, |d.shifts|) + Unattached(d.entries, propertyId)
  {
    RunKeeps(Drawer([], []), ops);
    var d := Run(Drawer([], []), ops);
    BalanceByShift(d.entries, d.shifts, propertyId);
    ShiftsAgree(d, propertyId, |d.shifts|);
  }

  lemma BalanceSnoc(entries: seq<Entry>, e: Entry, propertyId: string)
    ensures Balance(entries + [e], propertyId) == Balance(entries, propertyId) + if e.propertyId ==
        propertyId then EntryCash(e) else 0
  {
    assert (entries + [e])[..|entries|] == entries;
  }

  /** Nobody is left with an open shift once theirs is closed. */
  lemma NoneLeftOpen(shifts: seq<Shift>, id: nat, closed: Shift)
    requires OneOpenShiftEach(shifts) && id < |shifts| && !shifts[id].closed && closed.closed
    ensures OpenShiftFor(shifts[id := closed], shifts[id].propertyId, shifts[id].staffId) == None
  {
    var after := shifts[id := closed];
    forall i | 0 <= i < |after| ensures !IsOpenFor(after[i], shifts[id].propertyId, shifts[id].staffId) {
      assert i == id || i < id || id < i;
    }
  }

  // ---------- Writes that come late ----------

  /**
   * Recording, opening and closing read first and write afterwards, in no transaction. An entry written
   * into the shift found earlier keeps the drawer in order exactly when that shift is still open.
   */
  lemma LateEntry(d: Drawer, e: Entry)
    requires Consistent(d) && e.amountPaise > 0
    requires e.shiftId.Some? ==> e.shiftId.value < |d.shifts| && d.shifts[e.shiftId.value].propertyId == e.propertyId
    ensures Consistent(d.(entries := d.entries + [e])) <==> e.shiftId.None? || !d.shifts[e.shiftId.value].closed
  {
    var after := d.(entries := d.entries + [e]);
    forall id | 0 <= id < |d.shifts|
      ensures ExpectedHolds(after.shifts[id], id, after.entries) <==> !(e.shiftId == Some(id) && d.shifts[id].closed)
    {
      assert ExpectedHolds(d.shifts[id], id, d.entries);
      ShiftCashSnoc(d.entries, e, id);
    }
    hide ShiftCash, ExpectedHolds;
    if e.shiftId.Some? && d.shifts[e.shiftId.value].closed {
      assert !ExpectedHolds(after.shifts[e.shiftId.value], e.shiftId.value, after.entries);
    }
  }

  /** Opening on an earlier reading keeps it in order exactly when they still have no open shift. */
  lemma LateOpen(d: Drawer, propertyId: string, staffId: string, openingCash: int)
    requires Consistent(d)
    ensures Consistent(d.(shifts := d.shifts + [Shift(propertyId, staffId, openingCash, false, None, None)]))
       <==> OpenShiftFor(d.shifts, propertyId, staffId).None?
  {
    var after := d.(shifts := d.shifts + [Shift(propertyId, staffId, openingCash, false, None, None)]);
    var open := OpenShiftFor(d.shifts, propertyId, staffId);
    if open.Some? {
      var first, second := after.shifts[open.value], after.shifts[|d.shifts|];
      assert first == d.shifts[open.value] && !second.closed && IsOpenFor(first, propertyId, staffId);
      assert first.propertyId == second.propertyId && first.staffId == second.staffId;
    } else {
      OpenKeeps(d, propertyId, staffId, openingCash);
    }
  }

  /** Closing with a sum taken earlier keeps it in order exactly when the sum is still the shift's. */
  lemma LateClose(d: Drawer, id: nat, declared: int, expected: int)
    requires Consistent(d) && id < |d.shifts|
    ensures Consistent(d.(shifts := d.shifts[id :=
              d.shifts[id].(closed := true, declaredCash := Some(declared), expectedCash := Some(expected))]))
       <==> expected == d.shifts[id].openingCash + ShiftCash(d.entries, id)
  {
    hide ShiftCash;
    var closed := d.shifts[id].(closed := true, declaredCash := Some(declared), expectedCash := Some(expected));
    var after := d.(shifts := d.shifts[id := closed]);
    assert ExpectedHolds(after.shifts[id], id, after.entries) <==> expected == d.shifts[id].openingCash + ShiftCash(d.entries, id);
    forall i | 0 <= i < |d.shifts| && i != id ensures ExpectedHolds(after.shifts[i], i, after.entries) {
      assert ExpectedHolds(d.shifts[i], i, d.entries);
    }
  }

  /** A shift closed at nothing, and an entry that found it open: the books expect nothing where one rupee lies. */
  lemma EntryJoinsClosedShift()
    ensures var d := Run(Drawer([], []), [Open("p", "ann", 0), Close("p", "ann", 0)]);
      Consistent(d) && !Consistent(d.(entries := [Entry("p", Some(0), CashIn, 100)]))
  {
    var ops := [Open("p", "ann", 0), Close("p", "ann", 0)];
    var started := Drawer([], [Shift("p", "ann", 0, false, None, None)]);
    var d := Drawer([], [Shift("p", "ann", 0, true, Some(0), Some(0))]);
    assert Apply(Drawer([], []), ops[0]) == started && Apply(started, ops[1]) == d;
    assert ops[1..] == [ops[1]] && Run(started, [ops[1]]) == Run(d, [ops[1]][1..]);
    RunKeeps(Drawer([], []), ops);
    LateEntry(d, Entry("p", Some(0), CashIn, 100));
    assert d.entries + [Entry("p", Some(0), CashIn, 100)] == [Entry("p", Some(0), CashIn, 100)];
  }

  // ---------- The service ----------

  /** The drawer behind its calls, each proved against its step and shown to keep shifts and entries in order. */
  class Service {
    var entries: seq<Entry>
    var shifts: seq<Shift>

    ghost function State(): Drawer
      reads this
    {
      Drawer(entries, shifts)
    }

    ghost predicate Valid()
      reads this
    {
      Consistent(State())
    }

    constructor ()
      ensures Valid() && State() == Drawer([], [])
    {
      entries, shifts := [], [];
    }

    /** Cash in hand moves by the signed amount, and the entry is in the recorder's open shift or they have none. */
    method RecordEntry(propertyId: string, kind: EntryKind, amount: int, recordedBy: Option<string>)
      returns (error: Option<Error>)
      requires Valid()
      modifies this
      ensures Valid() && shifts == old(shifts)
      ensures if amount > 0 then error == None else error == Some(AmountNotPositive) && entries == old(entries)
      ensures forall p ::
        Balance(entries, p) - Balance(old(entries), p)
          == if amount <= 0 || p != propertyId then 0
             else if kind in {Withdrawal, Expense} then -amount
             else amount
      ensures error.None? ==>
        |entries| == |old(entries)| + 1
        && var shift := entries[|old(entries)|].shiftId;
           && entries == old(entries) + [Entry(propertyId, shift, kind, amount)]
           && if shift.Some? then
                && recordedBy.Some? && recordedBy.value != "" && shift.value < |shifts|
                && var s := shifts[shift.value];
                   s.propertyId == propertyId && s.staffId == recordedBy.value && !s.closed
              else
                recordedBy.Some? && recordedBy.value != "" ==>
                  forall i :: 0 <= i < |shifts| ==>
                    shifts[i].propertyId != propertyId || shifts[i].staffId != recordedBy.value || shifts[i].closed
      ensures var step := Record(old(State()), propertyId, kind, amount, recordedBy);
        if step.Ok? then error == None && State() == step.value else error == Some(step.error) && State() == old(State())
    {
      ApplyKeeps(State(), Move(propertyId, kind, amount, recordedBy));
      hide Consistent, Balance;
      if amount <= 0 { return Some(AmountNotPositive); }
      var shift := None;
      if Truthy(recordedBy) {
        shift := OpenShiftFor(shifts, propertyId, recordedBy.value);
      }
      var e := Entry(propertyId, shift, kind, amount);
      forall p {
        BalanceSnoc(entries, e, p);
      }
      entries := entries + [e];
      return None;
    }

    /** Opens a shift only for someone without one; either way they have one afterwards, and no cash moved. */
    method OpenStaffShift(propertyId: string, staffId: string, openingCash: int) returns (error: Option<Error>)
      requires Valid()
      modifies this
      ensures Valid() && entries == old(entries)
      ensures
        var open :=
          exists i :: 0 <= i < |old(shifts)| && old(shifts)[i].propertyId == propertyId && old(shifts)[i].staffId == staffId
                      && !old(shifts)[i].closed;
        if open then error == Some(ShiftAlreadyOpen) && shifts == old(shifts)
        else error == None && shifts == old(shifts) + [Shift(propertyId, staffId, openingCash, false, None, None)]
      ensures exists i :: 0 <= i < |shifts| && IsOpenFor(shifts[i], propertyId, staffId)
      ensures var step := OpenShift(old(State()), propertyId, staffId, openingCash);
        if step.Ok? then error == None && State() == step.value else error == Some(step.error) && State() == old(State())
    {
      ApplyKeeps(State(), Open(propertyId, staffId, openingCash));
      hide Consistent;
      var open := OpenShiftFor(shifts, propertyId, staffId);
      if open.Some? { return Some(ShiftAlreadyOpen); }
      shifts := shifts + [Shift(propertyId, staffId, openingCash, false, None, None)];
      assert IsOpenFor(shifts[|old(shifts)|], propertyId, staffId);
      return None;
    }

    /** Closes their one open shift, over or short by declared less float and movements; they have none afterwards. */
    method CloseStaffShift(propertyId: string, staffId: string, declaredCash: int) returns (r: Result<int>)
      requires Valid()
      modifies this
      ensures Valid() && entries == old(entries) && |shifts| == |old(shifts)|
      ensures r.Ok? || r == Err(NoOpenShift)
      ensures r.Ok? <==>
        exists i :: 0 <= i < |old(shifts)| && old(shifts)[i].propertyId == propertyId && old(shifts)[i].staffId == staffId
                    && !old(shifts)[i].closed
      ensures OpenShiftFor(shifts, propertyId, staffId).None?
      ensures forall i :: 0 <= i < |shifts| ==>
        var was := old(shifts)[i];
        if was.propertyId == propertyId && was.staffId == staffId && !was.closed then
          var expected := was.openingCash + ShiftCash(entries, i);
          && shifts[i] == Shift(propertyId, staffId, was.openingCash, true, Some(declaredCash), Some(expected))
          && r == Ok(declaredCash - expected)
        else shifts[i] == was
      ensures var step := CloseShift(old(State()), propertyId, staffId, declaredCash);
        if step.Ok? then r == Ok(step.value.1) && State() == step.value.0 else r == Err(step.error) && State() == old(State())
    {
      ApplyKeeps(State(), Close(propertyId, staffId, declaredCash));
      var open := OpenShiftFor(shifts, propertyId, staffId);
      if open.None? { return Err(NoOpenShift); }
      var s := shifts[open.value];
      var expected := s.openingCash + ShiftCash(entries, open.value);
      var closed := s.(closed := true, declaredCash := Some(declaredCash), expectedCash := Some(expected));
      NoneLeftOpen(shifts, open.value, closed);
      forall i | 0 <= i < |shifts| && i != open.value ensures !IsOpenFor(shifts[i], propertyId, staffId) {
        assert i < open.value || open.value < i;
      }
      hide Consistent, ShiftCash, OpenShiftFor;
      shifts := shifts[open.value := closed];
      return Ok(declaredCash - expected);
    }
  }
}
