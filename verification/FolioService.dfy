/**
 * The folio service over its tables: each call is proved against its step, shown to keep the cached
 * figures right and every source and key single, and to move each stay's balance by its contribution.
 */
module FolioService {
  import opened Common
  import opened Rounding
  import opened Gst
  import opened Folio
  import opened FolioRuns

  class Service {
    var reservations: map<ReservationId, Reservation>
    var lines: seq<Line>
    var payments: seq<FolioPayment>
    var events: seq<Event>
    const taxes: seq<PropertyTax>
    const gstStates: map<string, string>

    ghost function State(): Books
      reads this
    {
      Books(reservations, lines, payments, events, taxes, gstStates)
    }

    /** Cached figures are the sums they stand for, and nothing is posted twice. */
    ghost predicate Valid()
      reads this
    {
      CachesOk(State()) && PostedOnce(State())
    }

    constructor (reservations: map<ReservationId, Reservation>, taxes: seq<PropertyTax>, gstStates: map<string, string>)
      requires forall r :: r in reservations ==> reservations[r].paidPaise == 0
      ensures Valid() && State() == Books(reservations, [], [], [], taxes, gstStates)
    {
      this.reservations, this.taxes, this.gstStates := reservations, taxes, gstStates;
      lines, payments, events := [], [], [];
    }

    /** Across states only for a guest whose company is registered in another state than the property. */
    method IntraStateFor(r: ReservationId) returns (intra: bool)
      ensures !intra <==>
        && r in reservations && reservations[r].companyGstin.Some? && reservations[r].companyGstin.value != ""
        && reservations[r].propertyId in gstStates && gstStates[reservations[r].propertyId] != ""
        && var gstin, state := reservations[r].companyGstin.value, gstStates[reservations[r].propertyId];
           !(state <= gstin && |state| == if |gstin| < 2 then |gstin| else 2)
      ensures intra == IntraState(State(), r)
    {
      if r !in reservations { return true; }
      var res := reservations[r];
      if !Truthy(res.companyGstin) { return true; }
      if res.propertyId !in gstStates || gstStates[res.propertyId] == "" { return true; }
      var gstin := res.companyGstin.value;
      return (if |gstin| < 2 then gstin else gstin[..2]) == gstStates[res.propertyId];
    }

    /** One line a source: a repeat gives the line there is, and only a new source adds one. */
    method PostCharge(input: ChargeInput) returns (r: Result<Option<nat>>)
      requires Valid()
      modifies this
      ensures Valid()
      ensures forall stay ::
        Balance(State(), stay) == Balance(old(State()), stay) + Contribution(old(State()), Charge(input), stay)
      ensures Charged(old(State()), input, r, State())
      ensures var step := Folio.PostCharge(old(State()), input);
        if step.Ok? then r == Ok(step.value.1) && State() == step.value.0 else r == Err(step.error) && State() == old(State())
    {
      ChargeMeans(State(), input);
      hide Balance, Contribution, CachesOk, PostedOnce, FromSource, Charged, TaxOwed, Percent, Posts;
      StepMeans(State(), Charge(input));
      var hasSource := Truthy(input.sourceType) && Truthy(input.sourceId);
      var existing := FindLine(lines, input.sourceType, input.sourceId);
      if hasSource && existing.Some? { return Ok(existing); }
      var category := input.taxCategory.GetOr(CategoryFor(input.kind));
      var intraState := IntraStateFor(input.reservationId);
      var exempt := input.taxExempt || input.kind == Adjustment;
      var tax, rateBp := 0, 0;
      if !exempt {
        var gst := ComputeForCategory(category, input.amountPaise, None, intraState);
        tax, rateBp := gst.tax, 100 * ResolveRate(category, input.amountPaise);
      }
      if existing.Some? { return Ok(None); }
      if input.reservationId !in reservations { return Err(NoSuchReservation); }
      r := Ok(Some(|lines|));
      lines := lines + [Line(input.reservationId, input.kind, input.amountPaise, tax, rateBp, Some(category), exempt,
                             input.sourceType, input.sourceId, false)];
    }

    /** One payment a key: the figure returned is the stay's payments less its refunds, and the one now cached. */
    method RecordPayment(p: FolioPayment) returns (error: Option<Error>, netPaid: int)
      requires Valid()
      modifies this
      ensures Valid()
      ensures forall stay ::
        Balance(State(), stay) == Balance(old(State()), stay) + Contribution(old(State()), Pay(p), stay)
      ensures
        var used := p.idempotencyKey.Some?
          && exists i :: 0 <= i < |old(payments)| && old(payments)[i].reservationId == p.reservationId
                         && old(payments)[i].idempotencyKey == p.idempotencyKey;
        if used then
          State() == old(State()) && error == (if p.idempotencyKey == Some("") then Some(NotRecorded) else None)
        else if p.reservationId !in old(reservations) then
          State() == old(State()) && error == Some(NoSuchReservation)
        else
          && error == None && payments == old(payments) + [p]
          && State() == old(State()).(payments := payments,
               reservations := old(reservations)[p.reservationId := old(reservations)[p.reservationId].(paidPaise := netPaid)])
      ensures netPaid == Moved(payments, p.reservationId, Collected) - Moved(payments, p.reservationId, Returned)
      ensures p.reservationId in reservations ==> reservations[p.reservationId].paidPaise == netPaid
      ensures var step := Folio.RecordPayment(old(State()), p);
        if step.Ok? then error == None && State() == step.value else error == Some(step.error) && State() == old(State())
    {
      hide Balance, Contribution, CachesOk, PostedOnce, HasKey, NetPaid, Moved;
      StepMeans(State(), Pay(p));
      PaidIsKept(State(), p);
      LookupsAreExact(State(), None, None, p.reservationId, p.idempotencyKey);
      var taken := exists i :: 0 <= i < |payments| && HasKey(payments[i], p.reservationId, p.idempotencyKey);
      netPaid := NetPaid(payments, p.reservationId);
      if Truthy(p.idempotencyKey) && taken { return None, netPaid; }
      if taken { return Some(NotRecorded), netPaid; }
      if p.reservationId !in reservations { return Some(NoSuchReservation), netPaid; }
      payments := payments + [p];
      netPaid := NetPaid(payments, p.reservationId);
      reservations := reservations[p.reservationId := reservations[p.reservationId].(paidPaise := netPaid)];
      error := None;
    }

    /** A discount lowers its stay's balance by its magnitude, touches no line there was, and is logged. */
    method ApplyDiscount(r: ReservationId, amount: int) returns (error: Option<Error>)
      requires Valid()
      modifies this
      ensures Valid()
      ensures error == if r in old(reservations) then None else Some(NoSuchReservation)
      ensures error.None? ==>
        var less := if amount < 0 then amount else -amount;
        && Balance(State(), r) == Balance(old(State()), r) + less
        && (forall stay :: stay != r ==> Balance(State(), stay) == Balance(old(State()), stay))
        && lines == old(lines) + [Line(r, Adjustment, less, 0, 0, Some(Other), true, None, None, false)]
        && events == old(events) + [Event(r, DiscountApplied, |old(lines)|)]
        && State() == old(State()).(lines := lines, events := events)
      ensures var step := Folio.ApplyDiscount(old(State()), r, amount);
        if step.Ok? then error == None && State() == step.value else error == Some(step.error) && State() == old(State())
    {
      hide Balance, CachesOk, PostedOnce, FromSource;
      StepMeans(State(), Discount(r, amount));
      NoSourceIsNotFound(lines);
      var posted := PostCharge(ChargeInput(r, Adjustment, -Abs(amount), None, None, None, true));
      if posted.Err? { return Some(posted.error); }
      events := events + [Event(r, DiscountApplied, posted.value.value)];
      return None;
    }

    /** The first void takes the line off its stay's bill, logged; any other call does nothing at all. */
    method VoidLine(r: ReservationId, id: nat) returns (voided: bool)
      requires Valid()
      modifies this
      ensures Valid()
      ensures voided <==> id < |old(lines)| && old(lines)[id].reservationId == r && !old(lines)[id].voided
      ensures voided ==>
        && State() == old(State()).(lines := old(lines)[id := old(lines)[id].(voided := true)],
                                    events := old(events) + [Event(r, LineVoided, id)])
        && Balance(State(), r) == Balance(old(State()), r) - old(lines)[id].amountPaise - old(lines)[id].taxPaise
      ensures forall stay :: stay != r ==> Balance(State(), stay) == Balance(old(State()), stay)
      ensures !voided ==> State() == old(State())
      ensures State() == Folio.VoidLine(old(State()), r, id)
    {
      hide Balance, CachesOk, PostedOnce;
      StepMeans(State(), Void(r, id));
      voided := id < |lines| && lines[id].reservationId == r && !lines[id].voided;
      if voided {
        lines := lines[id := lines[id].(voided := true)];
        events := events + [Event(r, LineVoided, id)];
      }
    }

    /** The line then carries no tax or the engine's, and a live line moves the balance by the difference. */
    method SetLineTaxExempt(r: ReservationId, id: nat, exempt: bool) returns (found: bool)
      requires Valid()
      modifies this
      ensures Valid()
      ensures found <==> id < |old(lines)| && old(lines)[id].reservationId == r
      ensures found ==> ReTaxed(old(State()), r, id, exempt, State())
      ensures !found ==> State() == old(State())
      ensures State() == Folio.SetLineTaxExempt(old(State()), r, id, exempt)
    {
      hide Balance, Contribution, CachesOk, PostedOnce, IntraState, ReTaxed;
      StepMeans(State(), SetExempt(r, id, exempt));
      found := id < |lines| && lines[id].reservationId == r;
      if !found { return; }
      ExemptionMeans(State(), r, id, exempt);
      var line := lines[id];
      var category := line.taxCategory.GetOr(CategoryFor(line.kind));
      var intraState := IntraStateFor(r);
      hide ComputeForCategory, ResolveRate;
      var tax, rateBp := 0, 0;
      if !exempt {
        tax := ComputeForCategory(category, line.amountPaise, None, intraState).tax;
        rateBp := 100 * ResolveRate(category, line.amountPaise);
      }
      lines := lines[id := line.(taxExempt := exempt, taxPaise := tax, taxRateBp := rateBp)];
      events := events + [Event(r, if exempt then TaxExempted else ExemptionRemoved, id)];
    }
  }

  /** The line a charge adds: its own figures, live, and taxed as the law has it. */
  predicate LineFor(input: ChargeInput, l: Line) {
    && l.reservationId == input.reservationId && l.kind == input.kind && l.amountPaise == input.amountPaise
    && l.sourceType == input.sourceType && l.sourceId == input.sourceId && !l.voided
    && (l.taxExempt <==> input.taxExempt || input.kind == Adjustment)
    && l.taxCategory == (if input.taxCategory.Some? then input.taxCategory
                         else Some(if input.kind == RestaurantLine then Restaurant else Other))
    && TaxedByLaw(l)
  }

  /** Nothing when exempt; else 5, 12 or 18 per cent by category, or by kind when none is stored, to half a paisa. */
  predicate TaxedByLaw(l: Line) {
    if l.taxExempt then l.taxPaise == 0 && l.taxRateBp == 0
    else
      var percent :=
        if l.taxCategory == Some(Restaurant) || (l.taxCategory == None && l.kind == RestaurantLine) then 5
        else if l.taxCategory == Some(Accommodation) && l.amountPaise <= 750_000 then 12
        else 18;
      -100 < 200 * l.taxPaise - 2 * (l.amountPaise * percent) <= 100 && l.taxRateBp == 100 * percent
  }

  lemma TaxOkIsByLaw(l: Line)
    requires TaxOk(l)
    ensures TaxedByLaw(l)
  {}

  lemma ReTaxedByLaw(b: Books, l: Line, r: ReservationId, exempt: bool)
    ensures var category := l.taxCategory.GetOr(CategoryFor(l.kind));
      TaxedByLaw(l.(taxExempt := exempt, taxPaise := LineTax(category, l.amountPaise, exempt, IntraState(b, r)),
                    taxRateBp := LineRateBp(category, l.amountPaise, exempt)))
  {
    ReTaxedOk(b, l, r, exempt);
    hide *;
    hide TaxOk;
    var category := l.taxCategory.GetOr(CategoryFor(l.kind));
    TaxOkIsByLaw(l.(taxExempt := exempt, taxPaise := LineTax(category, l.amountPaise, exempt, IntraState(b, r)),
                    taxRateBp := LineRateBp(category, l.amountPaise, exempt)));
  }

  /**
   * What posting a charge should do. A source some line already carries in both parts adds nothing:
   * that line is the answer, unless a part is empty. Any other charge to a known stay adds one line
   * for it, and its stay owes the amount and the tax the line stores: none when exempt, else with no
   * category given 5 per cent on a restaurant line and 18 on any other, to half a paisa.
   */
  ghost predicate Charged(b: Books, input: ChargeInput, r: Result<Option<nat>>, after: Books) {
    var used := input.sourceType.Some? && input.sourceId.Some?
      && exists i :: 0 <= i < |b.lines| && b.lines[i].sourceType == input.sourceType && b.lines[i].sourceId == input.sourceId;
    if used then
      && after == b
      && if input.sourceType == Some("") || input.sourceId == Some("") then r == Ok(None)
         else r.Ok? && r.value.Some? && r.value.value < |b.lines|
              && b.lines[r.value.value].sourceType == input.sourceType && b.lines[r.value.value].sourceId == input.sourceId
    else if input.reservationId !in b.reservations then r == Err(NoSuchReservation) && after == b
    else
      && r == Ok(Some(|b.lines|)) && |after.lines| == |b.lines| + 1
      && var l := after.lines[|b.lines|];
      && after == b.(lines := b.lines + [l]) && LineFor(input, l)
      && (input.taxExempt || input.kind == Adjustment ==> l.taxPaise == 0)
      && (!input.taxExempt && input.kind != Adjustment && input.taxCategory.None? ==>
            -100 < 200 * l.taxPaise - 2 * (input.amountPaise * (if input.kind == RestaurantLine then 5 else 18)) <= 100)
      && (forall stay :: Balance(after, stay)
            == Balance(b, stay) + (if stay == input.reservationId then input.amountPaise + l.taxPaise else 0))
  }

  lemma NewLineFits(b: Books, input: ChargeInput)
    ensures LineFor(input, NewLine(b, input))
  {
    NewLineTaxOk(b, input);
    TaxOkIsByLaw(NewLine(b, input));
    hide LineTax, LineRateBp, TaxOk, TaxedByLaw;
  }

  lemma NewLineMoves(b: Books, l: Line, stay: ReservationId)
    ensures Balance(b.(lines := b.lines + [l]), stay) == Balance(b, stay) + Worth(l, stay)
  {
    BalanceInParts(b, stay);
    BalanceInParts(b.(lines := b.lines + [l]), stay);
    LinesTotalSnoc(b.lines, l, stay);
    hide Balance, LinesTotal, Worth;
  }

  lemma ChargeMeans(b: Books, input: ChargeInput)
    ensures var step := Folio.PostCharge(b, input);
      Charged(b, input, if step.Ok? then Ok(step.value.1) else Err(step.error), if step.Ok? then step.value.0 else b)
  {
    LookupsAreExact(b, input.sourceType, input.sourceId, "", None);
    NewLineFits(b, input);
    forall stay ensures Balance(b.(lines := b.lines + [NewLine(b, input)]), stay)
                     == Balance(b, stay) + Worth(NewLine(b, input), stay) {
      NewLineMoves(b, NewLine(b, input), stay);
    }
    hide Balance, NewLine;
  }

  /**
   * What changing a line's exemption should do: the tax and the rate become none or the statutory
   * ones, nothing else of the line changes, and a live line's stay owes the difference.
   */
  ghost predicate ReTaxed(b: Books, r: ReservationId, id: nat, exempt: bool, after: Books) {
    && id < |b.lines| && |after.lines| == |b.lines|
    && var was, l := b.lines[id], after.lines[id];
    && l == was.(taxExempt := exempt, taxPaise := l.taxPaise, taxRateBp := l.taxRateBp)
    && after == b.(lines := b.lines[id := l],
                   events := b.events + [Event(r, if exempt then TaxExempted else ExemptionRemoved, id)])
    && TaxedByLaw(l)
    && (exempt ==> l.taxPaise == 0)
    && (!exempt && was.taxCategory == Some(Restaurant) ==> -100 < 200 * l.taxPaise - 10 * was.amountPaise <= 100)
    && (!exempt && was.taxCategory == Some(Other) ==> -100 < 200 * l.taxPaise - 36 * was.amountPaise <= 100)
    && (!exempt && was.taxCategory == None ==>
          -100 < 200 * l.taxPaise - 2 * (was.amountPaise * (if was.kind == RestaurantLine then 5 else 18)) <= 100)
    && (forall stay :: Balance(after, stay)
          == Balance(b, stay) + (if stay == r && !was.voided then l.taxPaise - was.taxPaise else 0))
  }

  lemma ChangedLineMoves(b: Books, id: nat, l: Line, events: seq<Event>, stay: ReservationId)
    requires id < |b.lines|
    ensures Balance(b.(lines := b.lines[id := l], events := events), stay)
         == Balance(b, stay) - Worth(b.lines[id], stay) + Worth(l, stay)
  {
    BalanceInParts(b, stay);
    BalanceInParts(b.(lines := b.lines[id := l], events := events), stay);
    LinesTotalUpdate(b.lines, id, l, stay);
    hide Balance, LinesTotal, Worth;
  }

  lemma ExemptionMeans(b: Books, r: ReservationId, id: nat, exempt: bool)
    requires id < |b.lines| && b.lines[id].reservationId == r
    ensures ReTaxed(b, r, id, exempt, Folio.SetLineTaxExempt(b, r, id, exempt))
  {
    var after := Folio.SetLineTaxExempt(b, r, id, exempt);
    ReTaxedByLaw(b, b.lines[id], r, exempt);
    forall stay ensures Balance(after, stay) == Balance(b, stay) - Worth(b.lines[id], stay) + Worth(after.lines[id], stay) {
      ChangedLineMoves(b, id, after.lines[id], after.events, stay);
    }
    hide Balance, LineTax, LineRateBp, IntraState;
  }

  /** What every step keeps, and what it does to every balance. */
  lemma StepMeans(b: Books, op: Op)
    requires CachesOk(b) && PostedOnce(b)
    ensures CachesOk(Apply(b, op)) && PostedOnce(Apply(b, op))
    ensures forall stay :: Balance(Apply(b, op), stay) == Balance(b, stay) + Contribution(b, op, stay)
  {
    hide *;
    ApplyKeepsCaches(b, op);
    ApplyPostsOnce(b, op);
    forall stay ensures Balance(Apply(b, op), stay) == Balance(b, stay) + Contribution(b, op, stay) {
      BalanceMoves(b, op, stay);
    }
  }

  lemma PaidIsKept(b: Books, p: FolioPayment)
    requires CachesOk(b)
    ensures var after := Apply(b, Pay(p));
      && NetPaid(b.payments, p.reservationId) == Moved(b.payments, p.reservationId, Collected) - Moved(b.payments, p.reservationId, Returned)
      && NetPaid(after.payments, p.reservationId)
           == Moved(after.payments, p.reservationId, Collected) - Moved(after.payments, p.reservationId, Returned)
      && (p.reservationId in after.reservations ==>
           after.reservations[p.reservationId].paidPaise == NetPaid(after.payments, p.reservationId))
      && (KeyTaken(b.payments, p.reservationId, p.idempotencyKey) ==> after == b)
      && (p.idempotencyKey.Some? && p.reservationId in b.reservations ==> KeyTaken(after.payments, p.reservationId, p.idempotencyKey))
  {
    NetIsCollectedLessReturned(b.payments, p.reservationId);
    NetIsCollectedLessReturned(Apply(b, Pay(p)).payments, p.reservationId);
    if p.idempotencyKey.Some? && p.reservationId in b.reservations {
      FirstIsPresent(b, Pay(p));
    }
    hide Moved, NetPaid, HasKey;
  }
}
