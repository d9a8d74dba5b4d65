/**
 * The guest folio: charges, payments, voids and exemptions over the tables behind a stay's bill.
 * Lines and payments are numbered in insertion order; amounts are paise.
 */
module Folio {
  import opened Common
  import opened Rounding
  import opened Gst

  type ReservationId = string

  datatype LineKind = RestaurantLine | SpaLine | MiscLine | Adjustment

  /** PAYMENT and REFUND in the tables. */
  datatype Direction = Collected | Returned

  datatype Reservation = Reservation(
    propertyId: string, totalPaise: int, ratePaise: int, checkIn: int, checkOut: int, adults: int, children: int,
    companyGstin: Option<string>, deleted: bool, paidPaise: int)

  datatype Line = Line(
    reservationId: ReservationId, kind: LineKind, amountPaise: int, taxPaise: int, taxRateBp: int,
    taxCategory: Option<Category>, taxExempt: bool, sourceType: Option<string>, sourceId: Option<string>, voided: bool)

  /** Always a magnitude; the direction carries the sign. */
  datatype FolioPayment = FolioPayment(
    reservationId: ReservationId, direction: Direction, amountPaise: int, idempotencyKey: Option<string>)

  datatype TaxScope = OnRoom | OnAll | Elsewhere
  datatype TaxBasis = PerNight | PerGuest | PerStay
  datatype PropertyTax = PropertyTax(propertyId: string, active: bool, scope: TaxScope, percent: bool,
      value: int, basis: TaxBasis)

  datatype EventKind = DiscountApplied | LineVoided | TaxExempted | ExemptionRemoved
  datatype Event = Event(reservationId: ReservationId, kind: EventKind, lineId: nat)

  datatype Books = Books(
    reservations: map<ReservationId, Reservation>, lines: seq<Line>, payments: seq<FolioPayment>, events: seq<Event>,
    taxes: seq<PropertyTax>, gstStates: map<string, string>)

  datatype Error = NoSuchReservation | NotRecorded

  datatype Result<+T> = Ok(value: T) | Err(error: Error)

  // ---------- Tax on a line ----------

  /** Billed across states only when both state codes are known and differ. */
  function IntraState(b: Books, r: ReservationId): bool {
    if r !in b.reservations then true
    else
      var res := b.reservations[r];
      if !Truthy(res.companyGstin) then true
      else if res.propertyId !in b.gstStates || b.gstStates[res.propertyId] == "" then true
      else
        var gstin := res.companyGstin.value;
        gstin[..Min(2, |gstin|)] == b.gstStates[res.propertyId]
  }

  function CategoryFor(kind: LineKind): Category {
    if kind == RestaurantLine then Restaurant else Other
  }

  function LineTax(category: Category, amount: int, exempt: bool, intraState: bool): int {
    if exempt then 0 else ComputeForCategory(category, amount, None, intraState).tax
  }

  function LineRateBp(category: Category, amount: int, exempt: bool): int {
    if exempt then 0 else 100 * ResolveRate(category, amount)
  }

  // ---------- Charges ----------

  datatype ChargeInput = ChargeInput(
    reservationId: ReservationId, kind: LineKind, amountPaise: int, sourceType: Option<string>, sourceId: Option<string>,
    taxCategory: Option<Category>, taxExempt: bool)

  predicate FromSource(l: Line, sourceType: Option<string>, sourceId: Option<string>) {
    sourceType.Some? && sourceId.Some? && l.sourceType == sourceType && l.sourceId == sourceId
  }

  function FindLine(lines: seq<Line>, sourceType: Option<string>, sourceId: Option<string>): (r: Option<nat>)
    ensures r.Some? ==> r.value < |lines| && FromSource(lines[r.value], sourceType, sourceId)
    ensures r.None? ==> forall i :: 0 <= i < |lines| ==> !FromSource(lines[i], sourceType, sourceId)
  {
    if lines == [] then None
    else
      var earlier := FindLine(lines[..|lines| - 1], sourceType, sourceId);
      if earlier.Some? then earlier
      else if FromSource(lines[|lines| - 1], sourceType, sourceId) then Some(|lines| - 1)
      else None
  }

  /** A charge without a source is never taken for an earlier one. */
  lemma NoSourceIsNotFound(lines: seq<Line>)
    ensures FindLine(lines, None, None) == None
  {}

  function IsExempt(input: ChargeInput): bool {
    input.taxExempt || input.kind == Adjustment
  }

  function NewLine(b: Books, input: ChargeInput): Line {
    var category, exempt := input.taxCategory.GetOr(CategoryFor(input.kind)), IsExempt(input);
    Line(input.reservationId, input.kind, input.amountPaise,
         LineTax(category, input.amountPaise, exempt, IntraState(b, input.reservationId)),
         LineRateBp(category, input.amountPaise, exempt), Some(category), exempt, input.sourceType, input.sourceId, false)
  }

  /**
   * Posts a charge once per source. A source with both parts non-empty is looked up first; one with
   * an empty part is not, and then only the unique index stops the second insert, which yields no row.
   */
  function PostCharge(b: Books, input: ChargeInput): Result<(Books, Option<nat>)> {
    var existing := FindLine(b.lines, input.sourceType, input.sourceId);
    if existing.Some? then
      Ok((b, if Truthy(input.sourceType) && Truthy(input.sourceId) then existing else None))
    else if input.reservationId !in b.reservations then Err(NoSuchReservation)
    else Ok((b.(lines := b.lines + [NewLine(b, input)]), Some(|b.lines|)))
  }

  function DiscountInput(r: ReservationId, amount: int): ChargeInput {
    ChargeInput(r, Adjustment, -Abs(amount), None, None, None, true)
  }

  /** Giving money off adds an untaxed line below zero and an event; what was charged stays as it is. */
  function ApplyDiscount(b: Books, r: ReservationId, amount: int): Result<Books> {
    var posted := PostCharge(b, DiscountInput(r, amount));
    if posted.Err? then Err(posted.error)
    else
      var after := posted.value.0;
      Ok(after.(events := after.events + [Event(r, DiscountApplied, |b.lines|)]))
  }

  /** Voids a live line of the stay; anything else is left alone and not logged. */
  function VoidLine(b: Books, r: ReservationId, id: nat): Books {
    if id < |b.lines| && b.lines[id].reservationId == r && !b.lines[id].voided then
      b.(lines := b.lines[id := b.lines[id].(voided := true)], events := b.events + [Event(r, LineVoided, id)])
    else b
  }

  /** Grants or withdraws an exemption, recomputing the stored tax; voided lines too. */
  function SetLineTaxExempt(b: Books, r: ReservationId, id: nat, exempt: bool): Books {
    if id < |b.lines| && b.lines[id].reservationId == r then
      var line := b.lines[id];
      var category := line.taxCategory.GetOr(CategoryFor(line.kind));
      b.(lines := b.lines[id := line.(taxExempt := exempt,
                                       taxPaise := LineTax(category, line.amountPaise, exempt, IntraState(b, r)),
                                       taxRateBp := LineRateBp(category, line.amountPaise, exempt))],
         events := b.events + [Event(r, if exempt then TaxExempted else ExemptionRemoved, id)])
    else b
  }

  // ---------- Payments ----------

  predicate HasKey(p: FolioPayment, r: ReservationId, key: Option<string>) {
    key.Some? && p.reservationId == r && p.idempotencyKey == key
  }

  predicate KeyTaken(payments: seq<FolioPayment>, r: ReservationId, key: Option<string>) {
    exists i :: 0 <= i < |payments| && HasKey(payments[i], r, key)
  }

  /** The query behind the cached figure: collected minus returned. */
  function NetPaid(payments: seq<FolioPayment>, r: ReservationId): int {
    if payments == [] then 0
    else
      var p := payments[|payments| - 1];
      NetPaid(payments[..|payments| - 1], r)
      + (if p.reservationId != r then 0 else if p.direction == Returned then -p.amountPaise else p.amountPaise)
  }

  /** A repeated key is a no-op; an empty key is not looked up, so its repeat fails on the unique index instead. */
  function RecordPayment(b: Books, p: FolioPayment): Result<Books> {
    if KeyTaken(b.payments, p.reservationId, p.idempotencyKey) then
      (if Truthy(p.idempotencyKey) then Ok(b) else Err(NotRecorded))
    else if p.reservationId !in b.reservations then Err(NoSuchReservation)
    else
      var payments := b.payments + [p];
      var paid := b.reservations[p.reservationId].(paidPaise := NetPaid(payments, p.reservationId));
      Ok(b.(payments := payments, reservations := b.reservations[p.reservationId := paid]))
  }

  // ---------- The bill ----------

  function NightsBetween(checkIn: int, checkOut: int): int {
    Max(1, checkOut - checkIn)
  }

  function PropertyTaxAmount(t: PropertyTax, base: int, nights: int, guests: int): int {
    if t.percent then RoundDiv(base * t.value, 10_000)
    else if t.basis == PerNight then t.value * nights
    else if t.basis == PerGuest then t.value * guests
    else t.value
  }

  function PropertyTaxes(taxes: seq<PropertyTax>, res: Reservation): int {
    if taxes == [] then 0
    else
      var t := taxes[|taxes| - 1];
      PropertyTaxes(taxes[..|taxes| - 1], res)
      + (if t.propertyId == res.propertyId && t.active && (t.scope == OnRoom || t.scope == OnAll) then
           PropertyTaxAmount(t, res.totalPaise, NightsBetween(res.checkIn, res.checkOut), Max(1, res.adults + res.children))
         else 0)
  }

  /** GST on the room total at the slab of the nightly tariff. */
  function RoomGst(b: Books, r: ReservationId, res: Reservation): int {
    if res.totalPaise > 0 then ComputeForCategory(Accommodation, res.totalPaise, Some(res.ratePaise), IntraState(b, r)).tax else 0
  }

  function Ancillary(lines: seq<Line>, r: ReservationId): int {
    if lines == [] then 0
    else
      var l := lines[|lines| - 1];
      Ancillary(lines[..|lines| - 1], r) + (if l.reservationId == r && !l.voided then l.amountPaise else 0)
  }

  function StoredTax(lines: seq<Line>, r: ReservationId): int {
    if lines == [] then 0
    else
      var l := lines[|lines| - 1];
      StoredTax(lines[..|lines| - 1], r) + (if l.reservationId == r && !l.voided then l.taxPaise else 0)
  }

  function Moved(payments: seq<FolioPayment>, r: ReservationId, direction: Direction): int {
    if payments == [] then 0
    else
      var p := payments[|payments| - 1];
      Moved(payments[..|payments| - 1], r, direction)
      + (if p.reservationId == r && p.direction == direction then p.amountPaise else 0)
  }

  datatype Summary = Summary(
    roomCharge: int, roomTax: int, ancillary: int, lineTax: int, propertyTax: int, tax: int, subtotal: int, charges: int,
    payments: int, refunds: int, netPaid: int, balance: int)

  /** The full bill of one stay; a deleted or unknown stay has no room part. */
  function Summarise(b: Books, r: ReservationId): Summary {
    var live := r in b.reservations && !b.reservations[r].deleted;
    var roomCharge := if live then b.reservations[r].totalPaise else 0;
    var roomTax := if live then RoomGst(b, r, b.reservations[r]) else 0;
    var propertyTax := if live then PropertyTaxes(b.taxes, b.reservations[r]) else 0;
    var ancillary, lineTax := Ancillary(b.lines, r), StoredTax(b.lines, r);
    var payments, refunds := Moved(b.payments, r, Collected), Moved(b.payments, r, Returned);
    var subtotal, tax := roomCharge + ancillary, roomTax + propertyTax + lineTax;
    var charges, netPaid := subtotal + tax, payments - refunds;
    Summary(roomCharge, roomTax, ancillary, lineTax, propertyTax, tax, subtotal, charges, payments, refunds, netPaid, charges - netPaid)
  }

  function Balance(b: Books, r: ReservationId): int {
    Summarise(b, r).balance
  }

  // ---------- Runs ----------

  datatype Op =
    | Charge(input: ChargeInput)
    | Pay(payment: FolioPayment)
    | Discount(stay: ReservationId, amount: int)
    | Void(of: ReservationId, lineId: nat)
    | SetExempt(on: ReservationId, id: nat, exempt: bool)

  /** One step; an operation that throws changes nothing. */
  function Apply(b: Books, op: Op): Books {
    match op
    case Charge(input) => (var r := PostCharge(b, input); if r.Ok? then r.value.0 else b)
    case Pay(p) => (var r := RecordPayment(b, p); if r.Ok? then r.value else b)
    case Discount(r, amount) => (var d := ApplyDiscount(b, r, amount); if d.Ok? then d.value else b)
    case Void(r, id) => VoidLine(b, r, id)
    case SetExempt(r, id, exempt) => SetLineTaxExempt(b, r, id, exempt)
  }

  function Run(b: Books, ops: seq<Op>): Books
    decreases |ops|
  {
    if ops == [] then b else Run(Apply(b, ops[0]), ops[1..])
  }
}
