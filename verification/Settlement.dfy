/**
 * Platform billing: how a payment, reported by a gateway or recorded by hand, becomes a renewal and
 * an invoice. Rows of payments, invoices and events are numbered in insertion order.
 */
module Settlement {
  import opened Common
  import opened Calendar
  import Gst

  type SubscriptionId = string
  type OwnerId = string

  datatype PaymentStatus = Pending | Success

  datatype Subscription = Subscription(
    ownerId: OwnerId, durationMonths: int, periodStart: UtcDate, periodEnd: UtcDate, active: bool)

  datatype Payment = Payment(
    ownerId: OwnerId, subscriptionId: Option<SubscriptionId>, invoiceId: Option<nat>, gateway: string,
    gatewayRef: Option<string>, amount: int, status: PaymentStatus, capturedAt: Option<UtcDate>)

  datatype Invoice = Invoice(
    ownerId: OwnerId, subscriptionId: Option<SubscriptionId>, periodStart: UtcDate, periodEnd: UtcDate,
    subtotal: int, cgst: int, sgst: int, igst: int, tax: int, total: int, paidAt: UtcDate)

  /** An entry of the history kept for a subscription. */
  datatype Renewal = Renewal(
    subscriptionId: SubscriptionId, paymentId: nat, invoiceId: nat, amount: int, newPeriodStart: UtcDate, newPeriodEnd: UtcDate)

  /** What an event's own row says: still unprocessed, processed, or its error. */
  datatype WebhookOutcome = Unprocessed | Processed(settled: bool) | Failed(error: Error)

  datatype Error = BadAmount | SubscriptionNotFound | WrongOwner | BadDuration | UnknownProvider | SignatureMismatch

  datatype Result<+T> = Ok(value: T) | Err(error: Error)

  type EventKey = (string, string)

  /** What a captured-payment event says, as far as it says it. */
  datatype Hint = Hint(orderRef: Option<string>, paymentRef: Option<string>, amountPaise: Option<int>)

  /** A webhook call between its transactions: it has claimed its event, or has also read the row it will settle. */
  datatype Flight = Claimed(hint: Option<Hint>) | Found(paymentId: nat, pending: Payment, told: Hint)

  /**
   * The tables, and the webhook calls under way; `dispatched` is a history of the events handed to
   * dispatch, oldest first.
   */
  datatype Db = Db(
    subscriptions: map<SubscriptionId, Subscription>,
    payments: seq<Payment>,
    invoices: seq<Invoice>,
    renewals: seq<Renewal>,
    webhooks: map<EventKey, WebhookOutcome>,
    dispatched: seq<EventKey>,
    inFlight: map<EventKey, Flight>)

  // ---------- The renewal rule ----------

  /** Paid early, the new period follows on the old one; paid late, it starts at once. Plans last 1 to 120 months. */
  function ComputeRenewal(now: UtcDate, currentEnd: UtcDate, months: int): (r: Result<(UtcDate, UtcDate)>)
    ensures r.Ok? <==> 1 <= months <= 120
    ensures r.Ok? ==>
      && NotAfter(now, r.value.0) && NotAfter(currentEnd, r.value.0) && (r.value.0 == now || r.value.0 == currentEnd)
      && Before(r.value.0, r.value.1) && LastsMonths(r.value.0, r.value.1, months)
    ensures r.Err? ==> r.error == BadDuration
  {
    if months < 1 || months > 120 then Err(BadDuration)
    else
      var start := if Instant(now) > Instant(currentEnd) then now else currentEnd;
      InstantOrder(currentEnd, now);
      InstantOrder(now, currentEnd);
      AddMonthsLands(start, months);
      AddMonthsAdvances(start, months);
      Ok((start, AddMonths(start, months)))
  }

  // ---------- Settlement ----------

  datatype SettleInput = SettleInput(
    ownerId: OwnerId, subscriptionId: Option<SubscriptionId>, amountPaise: int, gateway: string,
    gatewayRef: Option<string>, existingPaymentId: Option<nat>)

  /** The period bought: the renewed one, or the empty period at `now` when no subscription is named. */
  function PeriodFor(db: Db, input: SettleInput, now: UtcDate): Result<(UtcDate, UtcDate)> {
    if input.subscriptionId.None? then Ok((now, now))
    else if input.subscriptionId.value !in db.subscriptions then Err(SubscriptionNotFound)
    else
      var s := db.subscriptions[input.subscriptionId.value];
      if s.ownerId != input.ownerId then Err(WrongOwner)
      else ComputeRenewal(now, s.periodEnd, s.durationMonths)
  }

  function InvoiceOf(input: SettleInput, period: (UtcDate, UtcDate), now: UtcDate): Invoice {
    var g := Gst.ComputeForCategory(Gst.Saas, input.amountPaise, None, true);
    Invoice(input.ownerId, input.subscriptionId, period.0, period.1, input.amountPaise, g.cgst, g.sgst, g.igst, g.tax,
            input.amountPaise + g.tax, now)
  }

  /** The row settled: a parked one resolved in place, or a fresh one. */
  function PaymentOf(db: Db, input: SettleInput, invoiceId: nat, now: UtcDate): Payment
    requires input.existingPaymentId.Some? ==> input.existingPaymentId.value < |db.payments|
  {
    if input.existingPaymentId.Some? then
      var p := db.payments[input.existingPaymentId.value];
      p.(status := Success, invoiceId := Some(invoiceId), amount := input.amountPaise, capturedAt := Some(now),
         gatewayRef := if input.gatewayRef.Some? then input.gatewayRef else p.gatewayRef)
    else
      Payment(input.ownerId, input.subscriptionId, Some(invoiceId), input.gateway, input.gatewayRef, input.amountPaise, Success, Some(now))
  }

  function Settle(db: Db, input: SettleInput, now: UtcDate): Result<Db>
    requires input.existingPaymentId.Some? ==> input.existingPaymentId.value < |db.payments|
  {
    if input.amountPaise <= 0 then Err(BadAmount)
    else
      var period := PeriodFor(db, input, now);
      if period.Err? then Err(period.error) else Ok(Settled(db, input, period.value, now))
  }

  function Settled(db: Db, input: SettleInput, period: (UtcDate, UtcDate), now: UtcDate): Db
    requires input.existingPaymentId.Some? ==> input.existingPaymentId.value < |db.payments|
    requires input.subscriptionId.Some? ==> input.subscriptionId.value in db.subscriptions
  {
    var invoiceId, row := |db.invoices|, PaymentOf(db, input, |db.invoices|, now);
    var paymentId := if input.existingPaymentId.Some? then input.existingPaymentId.value else |db.payments|;
    var payments := if input.existingPaymentId.Some? then db.payments[paymentId := row] else db.payments + [row];
    var settled := db.(payments := payments, invoices := db.invoices + [InvoiceOf(input, period, now)]);
    if input.subscriptionId.None? then settled
    else
      var id := input.subscriptionId.value;
      settled.(
        subscriptions := db.subscriptions[id := db.subscriptions[id].(periodStart := period.0, periodEnd := period.1, active := true)],
        renewals := db.renewals + [Renewal(id, paymentId, invoiceId, input.amountPaise, period.0, period.1)])
  }

  // ---------- Orders, manual payments and webhooks ----------

  /** Parks a pending payment for an order the gateway accepted. */
  function Park(db: Db, ownerId: OwnerId, subscriptionId: SubscriptionId, gateway: string, ref: string,
      amount: int): Result<Db> {
    if subscriptionId !in db.subscriptions then Err(SubscriptionNotFound)
    else if db.subscriptions[subscriptionId].ownerId != ownerId then Err(WrongOwner)
    else Ok(db.(payments := db.payments + [Payment(ownerId, Some(subscriptionId), None, gateway, Some(ref), amount, Pending, None)]))
  }

  /** An authentic or forged call to the webhook endpoint; `hint` is absent unless the event means money captured. */
  datatype Delivery = Delivery(provider: string, verified: bool, eventId: string, hint: Option<Hint>)

  /** The references looked up, in order, empty ones dropped. */
  function Refs(hint: Hint): seq<string> {
    (if Truthy(hint.orderRef) then [hint.orderRef.value] else [])
    + (if Truthy(hint.paymentRef) then [hint.paymentRef.value] else [])
  }

  predicate Matches(p: Payment, ref: string) {
    p.gatewayRef == Some(ref) && p.status == Pending
  }

  /** `pick` is an answer the lookups may give: any pending row of the first reference that has one. */
  predicate IsPick(payments: seq<Payment>, refs: seq<string>, pick: Option<nat>) {
    if refs == [] then pick.None?
    else if exists i :: 0 <= i < |payments| && Matches(payments[i], refs[0]) then
      pick.Some? && pick.value < |payments| && Matches(payments[pick.value], refs[0])
    else IsPick(payments, refs[1..], pick)
  }

  predicate CanPick(db: Db, hint: Option<Hint>, pick: Option<nat>) {
    if hint.Some? then IsPick(db.payments, Refs(hint.value), pick) else pick.None?
  }

  lemma {:induction false} PickIsPending(payments: seq<Payment>, refs: seq<string>, pick: Option<nat>)
    requires IsPick(payments, refs, pick) && pick.Some?
    ensures pick.value < |payments| && payments[pick.value].status == Pending
    ensures payments[pick.value].gatewayRef.Some? && payments[pick.value].gatewayRef.value in refs
  {
    if refs != [] && !exists i :: 0 <= i < |payments| && Matches(payments[i], refs[0]) {
      PickIsPending(payments, refs[1..], pick);
    }
  }

  predicate Awaits(payments: seq<Payment>, ref: Option<string>) {
    ref.Some? && ref.value != "" && exists i :: 0 <= i < |payments| && payments[i].status == Pending && payments[i].gatewayRef == ref
  }

  /** The order id is asked for first, then the payment id: a row is found exactly when one of them has a pending row. */
  lemma PickMeans(payments: seq<Payment>, hint: Hint, pick: Option<nat>)
    requires IsPick(payments, Refs(hint), pick)
    ensures pick.Some? <==> Awaits(payments, hint.orderRef) || Awaits(payments, hint.paymentRef)
    ensures pick.Some? ==>
      && pick.value < |payments| && payments[pick.value].status == Pending
      && payments[pick.value].gatewayRef == if Awaits(payments, hint.orderRef) then hint.orderRef else hint.paymentRef
  {
    var refs := Refs(hint);
    if Awaits(payments, hint.orderRef) {
      var i :| 0 <= i < |payments| && payments[i].status == Pending && payments[i].gatewayRef == hint.orderRef;
      assert refs[0] == hint.orderRef.value && Matches(payments[i], refs[0]);
    } else if Awaits(payments, hint.paymentRef) {
      var i :| 0 <= i < |payments| && payments[i].status == Pending && payments[i].gatewayRef == hint.paymentRef;
      var last := refs[|refs| - 1];
      assert last == hint.paymentRef.value && Matches(payments[i], last);
      if |refs| == 2 {
        assert refs[1..] == [last];
      }
    } else {
      assert forall k, i :: 0 <= k < |refs| && 0 <= i < |payments| ==> !Matches(payments[i], refs[k]);
      NothingToPick(payments, refs, pick);
    }
  }

  lemma {:induction false} NothingToPick(payments: seq<Payment>, refs: seq<string>, pick: Option<nat>)
    requires IsPick(payments, refs, pick) && forall k, i :: 0 <= k < |refs| && 0 <= i < |payments| ==> !Matches(payments[i], refs[k])
    ensures pick.None?
  {
    if refs != [] {
      assert forall k :: 0 <= k < |refs| - 1 ==> refs[1..][k] == refs[k + 1];
      NothingToPick(payments, refs[1..], pick);
    }
  }

  /** The lookups always have an answer. */
  lemma SomePick(db: Db, hint: Option<Hint>) returns (pick: Option<nat>)
    ensures CanPick(db, hint, pick)
  {
    if hint.None? { return None; }
    pick := SomePickFor(db.payments, Refs(hint.value));
  }

  lemma {:induction false} SomePickFor(payments: seq<Payment>, refs: seq<string>) returns (pick: Option<nat>)
    ensures IsPick(payments, refs, pick)
  {
    if refs == [] { return None; }
    if i :| 0 <= i < |payments| && Matches(payments[i], refs[0]) { return Some(i); }
    pick := SomePickFor(payments, refs[1..]);
  }

  function InputFor(pending: Payment, hint: Hint, provider: string, paymentId: nat): SettleInput {
    SettleInput(pending.ownerId, pending.subscriptionId, hint.amountPaise.GetOr(pending.amount), provider,
      if hint.paymentRef.Some? then hint.paymentRef else if hint.orderRef.Some? then hint.orderRef else pending.gatewayRef,
      Some(paymentId))
  }

  predicate AmountMismatch(hint: Hint, pending: Payment) {
    hint.amountPaise.Some? && hint.amountPaise.value != pending.amount
  }

  const PROVIDERS := {"razorpay", "cashfree"}

  function KeyOf(d: Delivery): EventKey {
    (d.provider, d.eventId)
  }

  /** First transaction of a webhook call: the unique index lets one delivery of an event through. */
  function Claim(db: Db, d: Delivery): Result<Db> {
    if d.provider !in PROVIDERS then Err(UnknownProvider)
    else if !d.verified then Err(SignatureMismatch)
    else if KeyOf(d) in db.webhooks then Ok(db)
    else
      Ok(db.(webhooks := db.webhooks[KeyOf(d) := Unprocessed], dispatched := db.dispatched + [KeyOf(d)],
             inFlight := db.inFlight[KeyOf(d) := Claimed(d.hint)]))
  }

  /** The call is over and its event's row says how it went. */
  function Conclude(db: Db, key: EventKey, outcome: WebhookOutcome): Db {
    db.(webhooks := db.webhooks[key := outcome], inFlight := db.inFlight - {key})
  }

  predicate AwaitsLookup(db: Db, key: EventKey, pick: Option<nat>) {
    key in db.inFlight && db.inFlight[key].Claimed? && CanPick(db, db.inFlight[key].hint, pick)
  }

  /** Then the reads: the row picked is kept for settling, unless there is none or its amount is not the
      captured one. */
  function LookUp(db: Db, key: EventKey, pick: Option<nat>): Db
    requires AwaitsLookup(db, key, pick)
  {
    var hint := db.inFlight[key].hint;
    if hint.None? || pick.None? then Conclude(db, key, Processed(false))
    else
      PickIsPending(db.payments, Refs(hint.value), pick);
      var pending := db.payments[pick.value];
      if AmountMismatch(hint.value, pending) then Conclude(db, key, Processed(false))
      else db.(inFlight := db.inFlight[key := Found(pick.value, pending, hint.value)])
  }

  predicate AwaitsSettling(db: Db, key: EventKey) {
    key in db.inFlight && db.inFlight[key].Found? && db.inFlight[key].paymentId < |db.payments|
  }

  function FlightInput(db: Db, key: EventKey): SettleInput
    requires AwaitsSettling(db, key)
  {
    var f := db.inFlight[key];
    InputFor(f.pending, f.told, key.0, f.paymentId)
  }

  /** Last transaction: settles the row as it was read, whatever has become of it since. */
  function SettleFlight(db: Db, key: EventKey, now: UtcDate): Db
    requires AwaitsSettling(db, key)
  {
    var settled := Settle(db, FlightInput(db, key), now);
    if settled.Ok? then Conclude(settled.value, key, Processed(true)) else Conclude(db, key, Failed(settled.error))
  }

  // ---------- Runs ----------

  datatype Op =
    | ParkOrder(ownerId: OwnerId, subscriptionId: SubscriptionId, gateway: string, ref: string, amount: int)
    | ManualPayment(payer: OwnerId, paidFor: Option<SubscriptionId>, amountPaise: int, reference: Option<string>, at: UtcDate)
    | ClaimEvent(delivery: Delivery)
    | FindRow(event: EventKey, pick: Option<nat>)
    | SettleRow(key: EventKey, now: UtcDate)

  function ManualInput(op: Op): SettleInput
    requires op.ManualPayment?
  {
    SettleInput(op.payer, op.paidFor, op.amountPaise, "MANUAL", op.reference, None)
  }

  /**
   * One step; webhook calls interleave step by step. One that throws leaves the tables alone, and so
   * does a step no call is at, or a lookup answer no query could give.
   */
  function Apply(db: Db, op: Op): Db {
    match op
    case ParkOrder(owner, sub, gateway, ref, amount) =>
      (var r := Park(db, owner, sub, gateway, ref, amount); if r.Ok? then r.value else db)
    case ManualPayment(_, _, _, _, at) => (var r := Settle(db, ManualInput(op), at); if r.Ok? then r.value else db)
    case ClaimEvent(d) => (var r := Claim(db, d); if r.Ok? then r.value else db)
    case FindRow(key, pick) => if AwaitsLookup(db, key, pick) then LookUp(db, key, pick) else db
    case SettleRow(key, now) => if AwaitsSettling(db, key) then SettleFlight(db, key, now) else db
  }

  function Run(db: Db, ops: seq<Op>): Db
    decreases |ops|
  {
    if ops == [] then db else Run(Apply(db, ops[0]), ops[1..])
  }

  /** The steps of one delivery with nothing in between; a replay stops at the claim. */
  function Deliver(db: Db, d: Delivery, pick: Option<nat>, now: UtcDate): seq<Op> {
    [ClaimEvent(d)] + (if KeyOf(d) in db.webhooks then [] else [FindRow(KeyOf(d), pick), SettleRow(KeyOf(d), now)])
  }

  predicate Fresh(db: Db) {
    db.payments == [] && db.invoices == [] && db.renewals == [] && db.webhooks == map[] && db.dispatched == []
    && db.inFlight == map[]
  }
}
