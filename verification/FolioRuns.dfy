/** Retries, the balance and the cached figures of the folio, over every run. */
module FolioRuns {
  import opened Common
  import opened Rounding
  import opened Gst
  import opened Folio

  // ---------- Retries ----------

  datatype Key = SourceKey(sourceType: string, sourceId: string) | PaymentKey(reservationId: ReservationId, key: string)

  /** What makes two calls the same call, however they differ otherwise. */
  function KeyOf(op: Op): Option<Key> {
    if op.Charge? && op.input.sourceType.Some? && op.input.sourceId.Some? then
      Some(SourceKey(op.input.sourceType.value, op.input.sourceId.value))
    else if op.Pay? && op.payment.idempotencyKey.Some? then
      Some(PaymentKey(op.payment.reservationId, op.payment.idempotencyKey.value))
    else None
  }

  ghost predicate Present(b: Books, k: Key) {
    match k
    case SourceKey(t, id) => exists i :: 0 <= i < |b.lines| && FromSource(b.lines[i], Some(t), Some(id))
    case PaymentKey(r, key) => KeyTaken(b.payments, r, Some(key))
  }

  /** A call that names a known stay is not refused. */
  predicate NamesStay(reservations: set<ReservationId>, op: Op) {
    (op.Charge? ==> op.input.reservationId in reservations) && (op.Pay? ==> op.payment.reservationId in reservations)
  }

  lemma RepeatIsNoOp(b: Books, op: Op)
    requires KeyOf(op).Some? && Present(b, KeyOf(op).value)
    ensures Apply(b, op) == b
  {
    if op.Charge? {
      var i :| 0 <= i < |b.lines| && FromSource(b.lines[i], op.input.sourceType, op.input.sourceId);
    }
  }

  lemma FirstIsPresent(b: Books, op: Op)
    requires KeyOf(op).Some? && NamesStay(b.reservations.Keys, op)
    ensures Present(Apply(b, op), KeyOf(op).value)
  {
    var after := Apply(b, op);
    if op.Charge? {
      var found := FindLine(b.lines, op.input.sourceType, op.input.sourceId);
      if found.None? {
        assert FromSource(after.lines[|b.lines|], op.input.sourceType, op.input.sourceId);
      } else {
        assert FromSource(b.lines[found.value], op.input.sourceType, op.input.sourceId);
      }
    } else if !KeyTaken(b.payments, op.payment.reservationId, op.payment.idempotencyKey) {
      assert HasKey(after.payments[|b.payments|], op.payment.reservationId, op.payment.idempotencyKey);
    }
  }

  /** No operation forgets a key: voiding and exempting keep a line's source, and nothing is deleted. */
  lemma PresentStays(b: Books, op: Op, k: Key)
    requires Present(b, k)
    ensures Present(Apply(b, op), k) && Apply(b, op).reservations.Keys == b.reservations.Keys
  {
    var after := Apply(b, op);
    LinesOnlyGrow(b, op);
    match k
    case SourceKey(t, id) =>
      var i :| 0 <= i < |b.lines| && FromSource(b.lines[i], Some(t), Some(id));
      assert FromSource(after.lines[i], Some(t), Some(id));
    case PaymentKey(r, key) =>
      var i :| 0 <= i < |b.payments| && HasKey(b.payments[i], r, Some(key));
      assert HasKey(after.payments[i], r, Some(key));
  }

  lemma LinesOnlyGrow(b: Books, op: Op)
    ensures var after := Apply(b, op);
      && |b.lines| <= |after.lines| && b.payments <= after.payments
      && (forall i :: 0 <= i < |b.lines| ==>
            after.lines[i].sourceType == b.lines[i].sourceType && after.lines[i].sourceId == b.lines[i].sourceId
            && after.lines[i].reservationId == b.lines[i].reservationId && after.lines[i].amountPaise == b.lines[i].amountPaise)
      && after.reservations.Keys == b.reservations.Keys
  {
    hide FindLine, NewLine, LineTax, LineRateBp, NetPaid, IntraState;
  }

  /** The run without its repeats: a keyed call is dropped once an earlier one with its key was not refused. */
  function RemoveRepeats(known: set<ReservationId>, seen: set<Key>, ops: seq<Op>): seq<Op>
    decreases |ops|
  {
    if ops == [] then []
    else
      var op, k := ops[0], KeyOf(ops[0]);
      if k.Some? && k.value in seen then RemoveRepeats(known, seen, ops[1..])
      else [op] + RemoveRepeats(known, if k.Some? && NamesStay(known, op) then seen + {k.value} else seen, ops[1..])
  }

  lemma {:induction false} RepeatsDoNotMatterFrom(b: Books, seen: set<Key>, ops: seq<Op>)
    requires forall k :: k in seen ==> Present(b, k)
    ensures Run(b, ops) == Run(b, RemoveRepeats(b.reservations.Keys, seen, ops))
    decreases |ops|
  {
    hide Apply, Present;
    if ops != [] {
      var op, k, known := ops[0], KeyOf(ops[0]), b.reservations.Keys;
      if k.Some? && k.value in seen {
        RepeatIsNoOp(b, op);
        RepeatsDoNotMatterFrom(b, seen, ops[1..]);
      } else {
        var after := Apply(b, op);
        var seen' := if k.Some? && NamesStay(known, op) then seen + {k.value} else seen;
        LinesOnlyGrow(b, op);
        forall q | q in seen' ensures Present(after, q) {
          if q in seen { PresentStays(b, op, q); } else { FirstIsPresent(b, op); }
        }
        RepeatsDoNotMatterFrom(after, seen', ops[1..]);
        var rest := RemoveRepeats(known, seen', ops[1..]);
        assert ([op] + rest)[1..] == rest;
      }
    }
  }

  /** Any run ends on the folio of the run with its repeats removed. */
  lemma RepeatsDoNotMatter(b: Books, ops: seq<Op>)
    ensures Run(b, ops) == Run(b, RemoveRepeats(b.reservations.Keys, {}, ops))
  {
    RepeatsDoNotMatterFrom(b, {}, ops);
  }

  lemma {:induction false} RunAppend(b: Books, first: seq<Op>, second: seq<Op>)
    ensures Run(b, first + second) == Run(Run(b, first), second)
    decreases |first|
  {
    if first == [] {
      assert first + second == second;
    } else {
      assert (first + second)[1..] == first[1..] + second;
      RunAppend(Apply(b, first[0]), first[1..], second);
    }
  }

  lemma {:induction false} PresentOverRun(b: Books, ops: seq<Op>, k: Key)
    requires Present(b, k)
    ensures Present(Run(b, ops), k)
    decreases |ops|
  {
    hide Apply, Present;
    if ops != [] {
      PresentStays(b, ops[0], k);
      PresentOverRun(Apply(b, ops[0]), ops[1..], k);
    }
  }

  lemma {:induction false} StaysKnown(b: Books, ops: seq<Op>)
    ensures Run(b, ops).reservations.Keys == b.reservations.Keys
    decreases |ops|
  {
    hide Apply;
    if ops != [] {
      LinesOnlyGrow(b, ops[0]);
      StaysKnown(Apply(b, ops[0]), ops[1..]);
    }
  }

  /**
   * A retry may come at any later point, after any other work (a void of the very line included) and
   * carrying anything under the same key: the folio ends as if it had not.
   */
  lemma RetryAnywhere(b: Books, before: seq<Op>, op: Op, between: seq<Op>, retry: Op, rest: seq<Op>)
    requires KeyOf(op).Some? && KeyOf(retry) == KeyOf(op) && NamesStay(b.reservations.Keys, op)
    ensures Run(b, before + [op] + between + [retry] + rest) == Run(b, before + [op] + between + rest)
  {
    hide Apply, Present;
    var start := Run(b, before);
    StaysKnown(b, before);
    FirstIsPresent(start, op);
    PresentOverRun(Apply(start, op), between, KeyOf(op).value);
    var then' := Run(Apply(start, op), between);
    RepeatIsNoOp(then', retry);
    RunAppend(b, before, [op]);
    assert Run(start, [op]) == Run(Apply(start, op), []);
    RunAppend(b, before + [op], between);
    RunAppend(b, before + [op] + between, [retry]);
    assert Run(then', [retry]) == Run(Apply(then', retry), []);
    RunAppend(b, before + [op] + between + [retry], rest);
    RunAppend(b, before + [op] + between, rest);
  }

  // ---------- The balance moves by what was done ----------

  /** What a line adds to a stay's bill. */
  function Worth(l: Line, r: ReservationId): int {
    if l.reservationId == r && !l.voided then l.amountPaise + l.taxPaise else 0
  }

  function PaymentWorth(p: FolioPayment, r: ReservationId): int {
    if p.reservationId != r then 0 else if p.direction == Collected then -p.amountPaise else p.amountPaise
  }

  /** Some line, voided or not, already carries both parts of the source. */
  predicate SourceUsed(lines: seq<Line>, sourceType: Option<string>, sourceId: Option<string>) {
    sourceType.Some? && sourceId.Some?
    && exists i :: 0 <= i < |lines| && lines[i].sourceType == sourceType && lines[i].sourceId == sourceId
  }

  /** Some payment of the same stay already carries the same key. */
  predicate KeyUsed(payments: seq<FolioPayment>, r: ReservationId, key: Option<string>) {
    key.Some? && exists i :: 0 <= i < |payments| && payments[i].reservationId == r && payments[i].idempotencyKey == key
  }

  /** Whether a call does something rather than repeat or be refused. */
  predicate Posts(b: Books, input: ChargeInput) {
    input.reservationId in b.reservations && !SourceUsed(b.lines, input.sourceType, input.sourceId)
  }

  predicate Records(b: Books, p: FolioPayment) {
    p.reservationId in b.reservations && !KeyUsed(b.payments, p.reservationId, p.idempotencyKey)
  }

  /** The statutory rate, in per cent: by the category when one is given, else by the kind of line. */
  function Percent(category: Option<Category>, kind: LineKind, amount: int): int {
    match category
    case None => if kind == RestaurantLine then 5 else 18
    case Some(Restaurant) => 5
    case Some(Accommodation) => if amount <= 750_000 then 12 else 18
    case Some(_) => 18
  }

  /** What is owed on an amount while it is not exempt: the statutory rate of it, to the nearest paisa. */
  function TaxOwed(category: Option<Category>, kind: LineKind, amount: int): (tax: int)
    ensures -100 < 200 * tax - 2 * (amount * Percent(category, kind, amount)) <= 100
  {
    RoundDiv(amount * Percent(category, kind, amount), 100)
  }

  /** The engine, its categories and its slabs come to the statutory figures, wherever the buyer is registered. */
  lemma EngineIsStatutory(category: Option<Category>, kind: LineKind, amount: int, intraState: bool)
    ensures LineTax(category.GetOr(CategoryFor(kind)), amount, false, intraState) == TaxOwed(category, kind, amount)
    ensures LineRateBp(category.GetOr(CategoryFor(kind)), amount, false) == 100 * Percent(category, kind, amount)
  {
    RateTable(category.GetOr(CategoryFor(kind)), amount);
  }

  /** The lookups the service runs find a line or a key exactly when there is one. */
  lemma LookupsAreExact(b: Books, sourceType: Option<string>, sourceId: Option<string>, r: ReservationId, key: Option<string>)
    ensures FindLine(b.lines, sourceType, sourceId).Some? <==> SourceUsed(b.lines, sourceType, sourceId)
    ensures KeyTaken(b.payments, r, key) <==> KeyUsed(b.payments, r, key)
  {
    if SourceUsed(b.lines, sourceType, sourceId) {
      var i :| 0 <= i < |b.lines| && b.lines[i].sourceType == sourceType && b.lines[i].sourceId == sourceId;
      assert FromSource(b.lines[i], sourceType, sourceId);
    }
    if KeyUsed(b.payments, r, key) {
      var i :| 0 <= i < |b.payments| && b.payments[i].reservationId == r && b.payments[i].idempotencyKey == key;
      assert HasKey(b.payments[i], r, key);
    }
  }

  /** How far one operation should move the balance of `r`. */
  function Contribution(b: Books, op: Op, r: ReservationId): int {
    match op
    case Charge(input) =>
      if Posts(b, input) && input.reservationId == r then
        input.amountPaise + (if input.taxExempt || input.kind == Adjustment then 0
          else TaxOwed(input.taxCategory, input.kind, input.amountPaise))
      else 0
    case Pay(p) => if Records(b, p) then PaymentWorth(p, r) else 0
    case Discount(stay, amount) =>
      if stay == r && stay in b.reservations then (if amount < 0 then amount else -amount) else 0
    case Void(stay, id) => if id < |b.lines| && b.lines[id].reservationId == stay then -Worth(b.lines[id], r) else 0
    case SetExempt(stay, id, exempt) =>
      if id < |b.lines| && b.lines[id].reservationId == stay == r && !b.lines[id].voided then
        (if exempt then 0 else TaxOwed(b.lines[id].taxCategory, b.lines[id].kind, b.lines[id].amountPaise))
        - b.lines[id].taxPaise
      else 0
  }

  function LinesTotal(lines: seq<Line>, r: ReservationId): int {
    if lines == [] then 0 else LinesTotal(lines[..|lines| - 1], r) + Worth(lines[|lines| - 1], r)
  }

  lemma {:induction false} LinesTotalIsBoth(lines: seq<Line>, r: ReservationId)
    ensures LinesTotal(lines, r) == Ancillary(lines, r) + StoredTax(lines, r)
  {
    if lines != [] {
      LinesTotalIsBoth(lines[..|lines| - 1], r);
    }
  }

  lemma {:induction false} LinesTotalUpdate(lines: seq<Line>, id: nat, l: Line, r: ReservationId)
    requires id < |lines|
    ensures LinesTotal(lines[id := l], r) == LinesTotal(lines, r) - Worth(lines[id], r) + Worth(l, r)
  {
    var n := |lines| - 1;
    if id == n {
      assert lines[id := l][..n] == lines[..n];
    } else {
      assert lines[id := l][..n] == lines[..n][id := l];
      LinesTotalUpdate(lines[..n], id, l, r);
    }
  }

  lemma LinesTotalSnoc(lines: seq<Line>, l: Line, r: ReservationId)
    ensures LinesTotal(lines + [l], r) == LinesTotal(lines, r) + Worth(l, r)
  {
    assert (lines + [l])[..|lines|] == lines;
  }

  lemma {:induction false} NetIsCollectedLessReturned(payments: seq<FolioPayment>, r: ReservationId)
    ensures NetPaid(payments, r) == Moved(payments, r, Collected) - Moved(payments, r, Returned)
  {
    if payments != [] {
      NetIsCollectedLessReturned(payments[..|payments| - 1], r);
    }
  }

  lemma NetPaidSnoc(payments: seq<FolioPayment>, p: FolioPayment, r: ReservationId)
    ensures NetPaid(payments + [p], r) == NetPaid(payments, r) - PaymentWorth(p, r)
  {
    assert (payments + [p])[..|payments|] == payments;
  }

  /** The part of the bill no folio operation touches. */
  function RoomPart(b: Books, r: ReservationId): int {
    if r in b.reservations && !b.reservations[r].deleted then
      b.reservations[r].totalPaise + RoomGst(b, r, b.reservations[r]) + PropertyTaxes(b.taxes, b.reservations[r])
    else 0
  }

  /**
   * The price of a night decides the slab, and the rate is then taken on all of the room total; a
   * stay unknown, deleted or with no room total to tax has none.
   */
  lemma RoomGstFollowsTheNight(b: Books, r: ReservationId)
    ensures var tax := Summarise(b, r).roomTax;
      if r in b.reservations && !b.reservations[r].deleted && b.reservations[r].totalPaise > 0 then
        var res := b.reservations[r];
        var rate := if res.ratePaise <= 750_000 then 12 else 18;
        -100 < 200 * tax - 2 * (res.totalPaise * rate) <= 100
      else tax == 0
  {
    if r in b.reservations {
      RateTable(Accommodation, b.reservations[r].ratePaise);
    }
    hide Ancillary, StoredTax, Moved, PropertyTaxes;
  }

  /**
   * What one of the hotel's own taxes adds to a bill: basis points of the room total to the nearest
   * paisa, or a sum per night, per guest or per stay; at least one of each is counted.
   */
  lemma PropertyTaxByItsBasis(b: Books, r: ReservationId, t: PropertyTax)
    requires b.taxes == [t]
    ensures var amount := Summarise(b, r).propertyTax;
      if r !in b.reservations || b.reservations[r].deleted || t.propertyId != b.reservations[r].propertyId
         || !t.active || t.scope == Elsewhere then amount == 0
      else
        var res := b.reservations[r];
        if t.percent then -10_000 < 20_000 * amount - 2 * (res.totalPaise * t.value) <= 10_000
        else
          match t.basis
          case PerNight => amount == t.value * (if res.checkOut - res.checkIn < 1 then 1 else res.checkOut - res.checkIn)
          case PerGuest => amount == t.value * (if res.adults + res.children < 1 then 1 else res.adults + res.children)
          case PerStay => amount == t.value
  {
    hide Ancillary, StoredTax, Moved, RoomGst;
    if r in b.reservations {
      assert PropertyTaxes([t][..0], b.reservations[r]) == 0;
    }
  }

  /** Taxes do not compound: a bill under two lists of them owes what it would under each. */
  lemma {:induction false} PropertyTaxesAddUp(b: Books, r: ReservationId, these: seq<PropertyTax>, those: seq<PropertyTax>)
    ensures Summarise(b.(taxes := these + those), r).propertyTax
         == Summarise(b.(taxes := these), r).propertyTax + Summarise(b.(taxes := those), r).propertyTax
    decreases |those|
  {
    hide Ancillary, StoredTax, Moved, RoomGst, PropertyTaxAmount;
    if those == [] {
      assert these + those == these;
    } else {
      var n := |those| - 1;
      assert (these + those)[..|these + those| - 1] == these + those[..n];
      PropertyTaxesAddUp(b, r, these, those[..n]);
    }
  }

  /** On a folio with no line and no payment the bill is the room total, the GST on it and the hotel's own taxes. */
  lemma RoomOnBill(b: Books, r: ReservationId)
    requires b.lines == [] && b.payments == []
    ensures var bill := Summarise(b, r);
      var room := if r in b.reservations && !b.reservations[r].deleted then b.reservations[r].totalPaise else 0;
      var tax := bill.roomTax + bill.propertyTax;
      bill == Summary(room, bill.roomTax, 0, 0, bill.propertyTax, tax, room, room + tax, 0, 0, 0, room + tax)
  {
    hide RoomGst, PropertyTaxes;
  }

  /** Each live line of the stay adds its amount to the charges and its stored tax to the taxes, and no other line does. */
  lemma LineOnBill(b: Books, l: Line, r: ReservationId)
    ensures var bill := Summarise(b, r);
      Summarise(b.(lines := b.lines + [l]), r)
        == if l.reservationId != r || l.voided then bill
           else
             bill.(ancillary := bill.ancillary + l.amountPaise, lineTax := bill.lineTax + l.taxPaise,
                   tax := bill.tax + l.taxPaise, subtotal := bill.subtotal + l.amountPaise,
                   charges := bill.charges + l.amountPaise + l.taxPaise, balance := bill.balance + l.amountPaise + l.taxPaise)
  {
    assert (b.lines + [l])[..|b.lines|] == b.lines;
    hide RoomGst, PropertyTaxes, Moved;
  }

  /** Each payment of the stay counts as collected or as returned, and only what is collected and kept is off the balance. */
  lemma PaymentOnBill(b: Books, p: FolioPayment, r: ReservationId)
    ensures var bill := Summarise(b, r);
      Summarise(b.(payments := b.payments + [p]), r)
        == if p.reservationId != r then bill
           else if p.direction == Collected then
             bill.(payments := bill.payments + p.amountPaise, netPaid := bill.netPaid + p.amountPaise,
                   balance := bill.balance - p.amountPaise)
           else
             bill.(refunds := bill.refunds + p.amountPaise, netPaid := bill.netPaid - p.amountPaise,
                   balance := bill.balance + p.amountPaise)
  {
    assert (b.payments + [p])[..|b.payments|] == b.payments;
    hide RoomGst, PropertyTaxes, Ancillary, StoredTax;
  }

  lemma BalanceInParts(b: Books, r: ReservationId)
    ensures Balance(b, r) == RoomPart(b, r) + LinesTotal(b.lines, r) - NetPaid(b.payments, r)
  {
    LinesTotalIsBoth(b.lines, r);
    NetIsCollectedLessReturned(b.payments, r);
  }

  lemma {:induction false} PropertyTaxesIgnorePaid(taxes: seq<PropertyTax>, res: Reservation, paid: int)
    ensures PropertyTaxes(taxes, res.(paidPaise := paid)) == PropertyTaxes(taxes, res)
  {
    if taxes != [] {
      PropertyTaxesIgnorePaid(taxes[..|taxes| - 1], res, paid);
    }
  }

  lemma RoomPartStays(b: Books, op: Op, r: ReservationId)
    ensures RoomPart(Apply(b, op), r) == RoomPart(b, r)
  {
    hide FindLine, NewLine, LineTax, ComputeForCategory;
    if op.Pay? && r in b.reservations {
      PropertyTaxesIgnorePaid(b.taxes, b.reservations[r], Apply(b, op).reservations[r].paidPaise);
    }
  }

  lemma ExemptIsUntaxed(category: Category, amount: int, intraState: bool)
    ensures LineTax(category, amount, true, intraState) == 0 && LineRateBp(category, amount, true) == 0
  {}

  lemma LinesMove(b: Books, op: Op, r: ReservationId)
    ensures LinesTotal(Apply(b, op).lines, r) == LinesTotal(b.lines, r) + (if op.Pay? then 0 else Contribution(b, op, r))
  {
    hide FindLine, LinesTotal, IntraState, LineTax, LineRateBp, CategoryFor, TaxOwed, SourceUsed;
    match op
    case Charge(input) =>
      LookupsAreExact(b, input.sourceType, input.sourceId, r, None);
      LinesTotalSnoc(b.lines, NewLine(b, input), r);
      ExemptIsUntaxed(input.taxCategory.GetOr(CategoryFor(input.kind)), input.amountPaise, IntraState(b, input.reservationId));
      EngineIsStatutory(input.taxCategory, input.kind, input.amountPaise, IntraState(b, input.reservationId));
    case Pay(_) =>
    case Discount(stay, amount) =>
      NoSourceIsNotFound(b.lines);
      LinesTotalSnoc(b.lines, NewLine(b, DiscountInput(stay, amount)), r);
      ExemptIsUntaxed(CategoryFor(Adjustment), -Abs(amount), IntraState(b, stay));
    case Void(stay, id) =>
      if id < |b.lines| {
        LinesTotalUpdate(b.lines, id, b.lines[id].(voided := true), r);
      }
    case SetExempt(stay, id, exempt) =>
      if id < |b.lines| {
        var line := b.lines[id];
        ExemptIsUntaxed(line.taxCategory.GetOr(CategoryFor(line.kind)), line.amountPaise, IntraState(b, stay));
        EngineIsStatutory(line.taxCategory, line.kind, line.amountPaise, IntraState(b, stay));
        LinesTotalUpdate(b.lines, id, SetLineTaxExempt(b, stay, id, exempt).lines[id], r);
      }
  }

  lemma NetMoves(b: Books, op: Op, r: ReservationId)
    ensures NetPaid(Apply(b, op).payments, r) == NetPaid(b.payments, r) - (if op.Pay? then Contribution(b, op, r) else 0)
  {
    hide FindLine, NewLine, NetPaid, KeyUsed;
    if op.Pay? {
      LookupsAreExact(b, None, None, op.payment.reservationId, op.payment.idempotencyKey);
      NetPaidSnoc(b.payments, op.payment, r);
    }
  }

  /**
   * Every operation moves a stay's balance by exactly its contribution: a charge up by amount and
   * stored tax, a discount down by its magnitude, a first void down by that line and a second by
   * nothing, a payment down and a refund up, a repeat or a refusal by nothing.
   */
  lemma BalanceMoves(b: Books, op: Op, r: ReservationId)
    ensures Balance(Apply(b, op), r) == Balance(b, r) + Contribution(b, op, r)
  {
    BalanceInParts(b, r);
    BalanceInParts(Apply(b, op), r);
    RoomPartStays(b, op, r);
    LinesMove(b, op, r);
    NetMoves(b, op, r);
  }

  function Contributions(b: Books, ops: seq<Op>, r: ReservationId): int
    decreases |ops|
  {
    if ops == [] then 0 else Contribution(b, ops[0], r) + Contributions(Apply(b, ops[0]), ops[1..], r)
  }

  /** Over a whole run nothing is gained or lost. */
  lemma {:induction false} BalanceIsConserved(b: Books, ops: seq<Op>, r: ReservationId)
    ensures Balance(Run(b, ops), r) == Balance(b, r) + Contributions(b, ops, r)
    decreases |ops|
  {
    hide Balance, Contribution, Apply;
    if ops != [] {
      BalanceMoves(b, ops[0], r);
      BalanceIsConserved(Apply(b, ops[0]), ops[1..], r);
    }
  }

  // ---------- The cached figures ----------

  /** Each stay's cached figure is its payments less its refunds, and each line carries the statutory tax or none. */
  ghost predicate CachesOk(b: Books) {
    && (forall r :: r in b.reservations ==> b.reservations[r].paidPaise == NetPaid(b.payments, r))
    && (forall i :: 0 <= i < |b.lines| ==> TaxOk(b.lines[i]))
  }

  predicate TaxOk(l: Line) {
    && l.taxPaise == (if l.taxExempt then 0 else TaxOwed(l.taxCategory, l.kind, l.amountPaise))
    && l.taxRateBp == (if l.taxExempt then 0 else 100 * Percent(l.taxCategory, l.kind, l.amountPaise))
  }

  lemma NewLineTaxOk(b: Books, input: ChargeInput)
    ensures TaxOk(NewLine(b, input))
  {
    EngineIsStatutory(input.taxCategory, input.kind, input.amountPaise, IntraState(b, input.reservationId));
  }

  lemma ReTaxedOk(b: Books, l: Line, r: ReservationId, exempt: bool)
    ensures var category := l.taxCategory.GetOr(CategoryFor(l.kind));
      TaxOk(l.(taxExempt := exempt, taxPaise := LineTax(category, l.amountPaise, exempt, IntraState(b, r)),
               taxRateBp := LineRateBp(category, l.amountPaise, exempt)))
  {
    EngineIsStatutory(l.taxCategory, l.kind, l.amountPaise, IntraState(b, r));
  }

  lemma LinesStayTaxed(b: Books, op: Op)
    requires forall i :: 0 <= i < |b.lines| ==> TaxOk(b.lines[i])
    ensures forall i :: 0 <= i < |Apply(b, op).lines| ==> TaxOk(Apply(b, op).lines[i])
  {
    VoidKeepsTax();
    hide FindLine, LineRateBp, LineTax, NewLine, TaxOk;
    if op.Charge? {
      NewLineTaxOk(b, op.input);
    } else if op.Discount? {
      NewLineTaxOk(b, DiscountInput(op.stay, op.amount));
    } else if op.SetExempt? && op.id < |b.lines| {
      ReTaxedOk(b, b.lines[op.id], op.on, op.exempt);
    }
  }

  lemma VoidKeepsTax()
    ensures forall l: Line :: TaxOk(l) ==> TaxOk(l.(voided := true))
  {}

  lemma ApplyKeepsCaches(b: Books, op: Op)
    requires CachesOk(b)
    ensures CachesOk(Apply(b, op))
  {
    LinesStayTaxed(b, op);
    hide FindLine, NewLine, TaxOk, LineTax, LineRateBp;
    var after := Apply(b, op);
    forall r | r in after.reservations ensures after.reservations[r].paidPaise == NetPaid(after.payments, r) {
      if op.Pay? && after != b && r != op.payment.reservationId {
        NetPaidSnoc(b.payments, op.payment, r);
      }
    }
  }

  /** From an empty folio both hold after every step, whatever was retried, voided or exempted. */
  lemma {:induction false} CachesOverRun(b: Books, ops: seq<Op>)
    requires CachesOk(b) || (b.lines == [] && b.payments == [] && forall r :: r in b.reservations ==> b.reservations[r].paidPaise == 0)
    ensures CachesOk(Run(b, ops))
    decreases |ops|
  {
    hide Apply;
    if ops != [] {
      ApplyKeepsCaches(b, ops[0]);
      CachesOverRun(Apply(b, ops[0]), ops[1..]);
    }
  }

  /** The books after a stay's net was written from a sum taken some time before. */
  function WriteNet(b: Books, r: ReservationId, net: int): Books
    requires r in b.reservations
  {
    b.(reservations := b.reservations[r := b.reservations[r].(paidPaise := net)])
  }

  /**
   * A payment recorded outside a transaction is inserted, summed and cached in three statements: the
   * cached figure is right afterwards exactly when what the stay moved since the sum nets to nothing.
   */
  lemma LateNet(b: Books, p: FolioPayment, later: seq<FolioPayment>)
    requires CachesOk(b) && p.reservationId in b.reservations
    ensures var r := p.reservationId;
      var net := NetPaid(b.payments + [p], r);
      var after := WriteNet(b.(payments := b.payments + [p] + later), r, net);
      after.reservations[r].paidPaise == NetPaid(after.payments, r) <==> NetPaid(later, r) == 0
  {
    NetPaidAppend(b.payments + [p], later, p.reservationId);
  }

  lemma {:induction false} NetPaidAppend(a: seq<FolioPayment>, b: seq<FolioPayment>, r: ReservationId)
    ensures NetPaid(a + b, r) == NetPaid(a, r) + NetPaid(b, r)
    decreases |b|
  {
    if b == [] {
      assert a + b == a;
    } else {
      assert (a + b)[..|a + b| - 1] == a + b[..|b| - 1];
      NetPaidAppend(a, b[..|b| - 1], r);
    }
  }

  // ---------- Once per source, once per key ----------

  /** No two lines share a source and no two payments of a stay share a key. */
  ghost predicate PostedOnce(b: Books) {
    && (forall i, j :: 0 <= i < j < |b.lines| ==> !FromSource(b.lines[j], b.lines[i].sourceType, b.lines[i].sourceId))
    && (forall i, j :: 0 <= i < j < |b.payments| ==>
          !HasKey(b.payments[j], b.payments[i].reservationId, b.payments[i].idempotencyKey))
  }

  lemma ChargePostsOnce(b: Books, input: ChargeInput)
    requires PostedOnce(b)
    ensures PostedOnce(Apply(b, Charge(input)))
  {
    hide FindLine, LineTax, LineRateBp, HasKey;
    var after := Apply(b, Charge(input));
    assert after != b ==> forall i :: 0 <= i < |b.lines| ==> !FromSource(b.lines[i], input.sourceType, input.sourceId);
  }

  lemma ApplyPostsOnce(b: Books, op: Op)
    requires PostedOnce(b)
    ensures PostedOnce(Apply(b, op))
  {
    match op
    case Charge(input) => ChargePostsOnce(b, input);
    case Discount(r, amount) => ChargePostsOnce(b, DiscountInput(r, amount));
    case Pay(p) =>
      hide NetPaid, FromSource;
      var after := Apply(b, op);
      assert after != b ==> forall i :: 0 <= i < |b.payments| ==> !HasKey(b.payments[i], p.reservationId, p.idempotencyKey);
    case _ =>
      hide LineTax, LineRateBp, HasKey;
  }

  /** However often calls are repeated, no source is charged twice and no key is paid twice. */
  lemma {:induction false} PostedOnceOverRun(b: Books, ops: seq<Op>)
    requires PostedOnce(b)
    ensures PostedOnce(Run(b, ops))
    decreases |ops|
  {
    hide Apply, PostedOnce;
    if ops != [] {
      ApplyPostsOnce(b, ops[0]);
      PostedOnceOverRun(Apply(b, ops[0]), ops[1..]);
    }
  }

  // ---------- Exempting and back ----------

  /**
   * Exempting a line and taking the exemption back gives the line back exactly when it was taxed
   * before: an adjustment or an exempt charge comes back taxed at its statutory rate.
   */
  lemma ExemptionUndone(b: Books, r: ReservationId, id: nat)
    requires id < |b.lines| && b.lines[id].reservationId == r && TaxOk(b.lines[id])
    ensures var after := SetLineTaxExempt(SetLineTaxExempt(b, r, id, true), r, id, false);
      && (after.lines == b.lines <==> !b.lines[id].taxExempt)
      && after.lines[id].taxPaise == TaxOwed(b.lines[id].taxCategory, b.lines[id].kind, b.lines[id].amountPaise)
  {
    var exempted := SetLineTaxExempt(b, r, id, true);
    var after := SetLineTaxExempt(exempted, r, id, false);
    var line := b.lines[id];
    EngineIsStatutory(line.taxCategory, line.kind, line.amountPaise, IntraState(exempted, r));
    assert after.lines == b.lines[id := after.lines[id]];
    if !line.taxExempt {
      assert after.lines[id] == line;
    }
  }

  /** A misc charge of 1000 rupees posted exempt: exempting it again and taking that back leaves 180 rupees of tax. */
  lemma ExemptChargeComesBackTaxed()
    ensures var line := Line("r", MiscLine, 100_000, 0, 0, Some(Other), true, None, None, false);
      var b := Books(map[], [line], [], [], [], map[]);
      var after := SetLineTaxExempt(SetLineTaxExempt(b, "r", 0, true), "r", 0, false);
      TaxOk(line) && after.lines == [line.(taxExempt := false, taxPaise := 18_000, taxRateBp := 1800)]
  {}
}
