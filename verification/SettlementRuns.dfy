/** What every run of orders, manual payments and interleaved webhook calls keeps. */
module SettlementRuns {
  import opened Common
  import opened Calendar
  import opened Settlement
  import Gst

  // ---------- Invariants ----------

  /** The invoice a payment row names is for that payment: same owner, subscription, amount and moment, with 18%
      tax on top, fully split. */
  predicate Bills(inv: Invoice, p: Payment) {
    && inv.ownerId == p.ownerId && inv.subscriptionId == p.subscriptionId
    && inv.subtotal == p.amount && p.capturedAt == Some(inv.paidAt)
    && inv.cgst + inv.sgst + inv.igst == inv.tax && inv.total == inv.subtotal + inv.tax
    && -100 < 200 * inv.tax - 36 * inv.subtotal <= 100
  }

  /** Some payment row names this invoice. */
  predicate Answered(payments: seq<Payment>, k: nat) {
    exists i :: 0 <= i < |payments| && payments[i].invoiceId == Some(k)
  }

  /** Settled rows and invoices correspond one to one; a pending row has none. */
  ghost predicate OneInvoiceEach(payments: seq<Payment>, invoices: seq<Invoice>) {
    && (forall i :: 0 <= i < |payments| && payments[i].status == Pending ==> payments[i].invoiceId == None)
    && (forall i :: 0 <= i < |payments| && payments[i].status == Success ==>
          payments[i].invoiceId.Some? && payments[i].invoiceId.value < |invoices| && Bills(invoices[payments[i].invoiceId.value], payments[i]))
    && (forall i, j :: 0 <= i < j < |payments| && payments[i].status == Success && payments[j].status == Success ==>
          payments[i].invoiceId != payments[j].invoiceId)
    && (forall k :: 0 <= k < |invoices| ==> Answered(payments, k))
  }

  predicate Records(r: Renewal, payments: seq<Payment>, invoices: seq<Invoice>) {
    && r.paymentId < |payments| && r.invoiceId < |invoices|
    && payments[r.paymentId].status == Success && payments[r.paymentId].invoiceId == Some(r.invoiceId)
    && payments[r.paymentId].subscriptionId == Some(r.subscriptionId) && payments[r.paymentId].amount == r.amount
    && invoices[r.invoiceId].periodStart == r.newPeriodStart && invoices[r.invoiceId].periodEnd == r.newPeriodEnd
  }

  /** Each settled payment for a subscription has exactly one renewal event, and no event is without one. */
  ghost predicate OneRenewalEach(payments: seq<Payment>, invoices: seq<Invoice>, renewals: seq<Renewal>) {
    && (forall e :: 0 <= e < |renewals| ==> Records(renewals[e], payments, invoices))
    && (forall e, f :: 0 <= e < f < |renewals| ==> renewals[e].paymentId != renewals[f].paymentId)
    && (forall i :: 0 <= i < |payments| && payments[i].status == Success && payments[i].subscriptionId.Some? ==>
          exists e :: 0 <= e < |renewals| && renewals[e].paymentId == i)
  }

  predicate For(inv: Invoice, s: SubscriptionId) {
    inv.subscriptionId == Some(s)
  }

  /** No later invoice of the same subscription. */
  ghost predicate IsLatest(invoices: seq<Invoice>, i: int, s: SubscriptionId) {
    0 <= i < |invoices| && For(invoices[i], s) && forall k :: i < k < |invoices| ==> !For(invoices[k], s)
  }

  /** `j` is the next invoice of the subscription after `i`. */
  ghost predicate IsNext(invoices: seq<Invoice>, i: int, j: int, s: SubscriptionId) {
    0 <= i < j < |invoices| && For(invoices[i], s) && For(invoices[j], s) && forall k :: i < k < j ==> !For(invoices[k], s)
  }

  /** The periods sold for one subscription: non-empty, never before their payment, in order, disjoint, and
      gap-free when paid early. */
  ghost predicate PeriodsTile(invoices: seq<Invoice>, s: SubscriptionId) {
    && (forall i :: 0 <= i < |invoices| && For(invoices[i], s) ==>
          Before(invoices[i].periodStart, invoices[i].periodEnd) && NotAfter(invoices[i].paidAt, invoices[i].periodStart))
    && (forall i, j :: 0 <= i < j < |invoices| && For(invoices[i], s) && For(invoices[j], s) ==>
          NotAfter(invoices[i].periodEnd, invoices[j].periodStart))
    && (forall i, j :: IsNext(invoices, i, j, s) && NotAfter(invoices[j].paidAt, invoices[i].periodEnd) ==>
          invoices[j].periodStart == invoices[i].periodEnd)
  }

  /** `end` is that of the latest invoice, and so bounds them all. */
  ghost predicate EndsAt(invoices: seq<Invoice>, s: SubscriptionId, end: UtcDate) {
    && (forall i :: IsLatest(invoices, i, s) ==> end == invoices[i].periodEnd)
    && (forall i :: 0 <= i < |invoices| && For(invoices[i], s) ==> NotAfter(invoices[i].periodEnd, end))
  }

  ghost predicate EndIsLatest(db: Db, s: SubscriptionId) {
    s in db.subscriptions ==> EndsAt(db.invoices, s, db.subscriptions[s].periodEnd)
  }

  /** The row of a renewed subscription shows the period last sold, and is active. */
  ghost predicate ShowsLatest(db: Db, s: SubscriptionId) {
    s in db.subscriptions ==> forall i :: IsLatest(db.invoices, i, s) ==>
      db.subscriptions[s].periodStart == db.invoices[i].periodStart && db.subscriptions[s].active
  }

  /** Every period sold for a subscription lasts its plan's months, to the day and the time of day. */
  ghost predicate LastsThePlan(db: Db, k: nat) {
    k < |db.invoices| && db.invoices[k].subscriptionId.Some? ==>
      var s := db.invoices[k].subscriptionId.value;
      s in db.subscriptions
      && LastsMonths(db.invoices[k].periodStart, db.invoices[k].periodEnd, db.subscriptions[s].durationMonths)
  }

  /** Payments, invoices and renewal events answer to one another. */
  ghost predicate Consistent(db: Db) {
    OneInvoiceEach(db.payments, db.invoices) && OneRenewalEach(db.payments, db.invoices, db.renewals)
  }

  ghost predicate EachEventOnce(db: Db) {
    && (forall key :: key in db.dispatched <==> key in db.webhooks)
    && (forall i, j :: 0 <= i < j < |db.dispatched| ==> db.dispatched[i] != db.dispatched[j])
  }

  /** What a payment row is for; no step changes it. */
  predicate SamePurpose(p: Payment, q: Payment) {
    q.ownerId == p.ownerId && q.subscriptionId == p.subscriptionId && q.amount == p.amount && q.gateway == p.gateway
  }

  /** A call under way has claimed its event, and the row it read still is for what it was, to be settled for
      its amount. */
  predicate FlightOk(db: Db, key: EventKey)
    requires key in db.inFlight
  {
    var f := db.inFlight[key];
    && key in db.webhooks
    && (f.Found? ==>
         && f.paymentId < |db.payments| && SamePurpose(f.pending, db.payments[f.paymentId])
         && f.pending.status == Pending && !AmountMismatch(f.told, f.pending))
  }

  /** The subscription paid for can be renewed by this payment. */
  predicate Renewable(subscriptions: map<SubscriptionId, Subscription>, p: Payment) {
    && p.amount > 0
    && (p.subscriptionId.Some? ==>
         && p.subscriptionId.value in subscriptions
         && subscriptions[p.subscriptionId.value].ownerId == p.ownerId
         && 1 <= subscriptions[p.subscriptionId.value].durationMonths <= 120)
  }

  /**
   * What holds even while captures race: every subscription's periods are in order, no event is
   * dispatched twice, calls know their row, and settled rows have an invoice.
   */
  ghost predicate Sound(db: Db) {
    && (forall s :: PeriodsTile(db.invoices, s) && EndIsLatest(db, s) && ShowsLatest(db, s))
    && (forall k: nat :: LastsThePlan(db, k))
    && EachEventOnce(db)
    && (forall key :: key in db.inFlight ==> FlightOk(db, key))
    && (forall i :: 0 <= i < |db.payments| && db.payments[i].status == Success ==>
          && db.payments[i].invoiceId.Some? && db.payments[i].invoiceId.value < |db.invoices|
          && Renewable(db.subscriptions, db.payments[i]))
  }

  // ---------- One settlement ----------

  /** The row to resolve belongs to the same owner and subscription for the same amount, whatever its status. */
  predicate ResolvesRow(db: Db, input: SettleInput) {
    input.existingPaymentId.Some? ==>
      var k := input.existingPaymentId.value;
      && k < |db.payments| && db.payments[k].ownerId == input.ownerId
      && db.payments[k].subscriptionId == input.subscriptionId && db.payments[k].amount == input.amountPaise
  }

  /** And it is parked. */
  predicate ResolvesParked(db: Db, input: SettleInput) {
    ResolvesRow(db, input)
    && (input.existingPaymentId.Some? ==> db.payments[input.existingPaymentId.value].status == Pending)
  }

  ghost predicate Settles(db: Db, input: SettleInput, period: (UtcDate, UtcDate), now: UtcDate, db': Db) {
    ResolvesRow(db, input) && PeriodFor(db, input, now) == Ok(period) && db' == Settled(db, input, period, now)
  }

  lemma SettledRow(db: Db, input: SettleInput, period: (UtcDate, UtcDate), now: UtcDate, db': Db) returns (k: nat)
    requires Settles(db, input, period, now, db') && ResolvesParked(db, input)
    ensures k < |db'.payments| && |db.payments| <= |db'.payments| <= |db.payments| + 1
    ensures k < |db.payments| ==> db.payments[k].status == Pending && |db'.payments| == |db.payments|
    ensures k >= |db.payments| ==> k == |db.payments|
    ensures forall i :: 0 <= i < |db.payments| && i != k ==> db'.payments[i] == db.payments[i]
    ensures var p := db'.payments[k];
      && p.status == Success && p.invoiceId == Some(|db.invoices|) && p.amount == input.amountPaise
      && p.subscriptionId == input.subscriptionId && Bills(InvoiceOf(input, period, now), p)
    ensures db'.invoices == db.invoices + [InvoiceOf(input, period, now)]
    ensures db'.renewals == db.renewals + (
      if input.subscriptionId.None? then []
      else [Renewal(input.subscriptionId.value, k, |db.invoices|, input.amountPaise, period.0, period.1)])
    ensures db'.webhooks == db.webhooks && db'.dispatched == db.dispatched
  {
    k := if input.existingPaymentId.Some? then input.existingPaymentId.value else |db.payments|;
    Gst.RateTable(Gst.Saas, input.amountPaise);
  }

  /** Row `k` is new or was pending; it is now settled under the next invoice number, and nothing else moved. */
  ghost predicate SettlesRow(payments: seq<Payment>, payments': seq<Payment>, k: nat, invoiceId: nat) {
    && k < |payments'| && |payments'| == (if k < |payments| then |payments| else |payments| + 1) && k <= |payments|
    && (forall i :: 0 <= i < |payments| && i != k ==> payments'[i] == payments[i])
    && (k < |payments| ==> payments[k].status == Pending)
    && payments'[k].status == Success && payments'[k].invoiceId == Some(invoiceId)
  }

  lemma InvoiceAdded(payments: seq<Payment>, payments': seq<Payment>, k: nat, invoices: seq<Invoice>, inv: Invoice)
    requires OneInvoiceEach(payments, invoices) && SettlesRow(payments, payments', k, |invoices|) && Bills(inv, payments'[k])
    ensures OneInvoiceEach(payments', invoices + [inv])
  {
    hide Bills;
    forall n | 0 <= n < |invoices| + 1 ensures Answered(payments', n) {
      if n < |invoices| {
        assert Answered(payments, n);
        var i :| 0 <= i < |payments| && payments[i].invoiceId == Some(n);
        assert payments'[i].invoiceId == Some(n);
      } else {
        assert payments'[k].invoiceId == Some(n);
      }
    }
  }

  lemma RecordsStay(r: Renewal, payments: seq<Payment>, payments': seq<Payment>, k: nat,
      invoices: seq<Invoice>, inv: Invoice)
    requires Records(r, payments, invoices) && SettlesRow(payments, payments', k, |invoices|)
    ensures Records(r, payments', invoices + [inv]) && r.paymentId != k
  {}

  lemma RenewalAdded(payments: seq<Payment>, payments': seq<Payment>, k: nat, invoices: seq<Invoice>,
      inv: Invoice, renewals: seq<Renewal>, renewals': seq<Renewal>)
    requires OneRenewalEach(payments, invoices, renewals) && SettlesRow(payments, payments', k, |invoices|)
    requires payments'[k].subscriptionId.None? ==> renewals' == renewals
    requires payments'[k].subscriptionId.Some? ==>
      && |renewals'| == |renewals| + 1 && renewals'[..|renewals|] == renewals
      && renewals'[|renewals|].paymentId == k && Records(renewals'[|renewals|], payments', invoices + [inv])
    ensures OneRenewalEach(payments', invoices + [inv], renewals')
  {
    forall e | 0 <= e < |renewals| ensures renewals'[e] == renewals[e] && Records(renewals[e], payments', invoices + [inv]) && renewals[e].paymentId != k {
      RecordsStay(renewals[e], payments, payments', k, invoices, inv);
      assert renewals'[..|renewals|][e] == renewals[e];
    }
    hide Records;
    forall i | 0 <= i < |payments'| && payments'[i].status == Success && payments'[i].subscriptionId.Some?
      ensures exists e :: 0 <= e < |renewals'| && renewals'[e].paymentId == i
    {
      if i == k {
        assert renewals'[|renewals|].paymentId == k;
      } else {
        var e :| 0 <= e < |renewals| && renewals[e].paymentId == i;
        assert renewals'[e].paymentId == i;
      }
    }
  }

  lemma SettledKeepsBooks(db: Db, input: SettleInput, period: (UtcDate, UtcDate), now: UtcDate, db': Db)
    requires OneInvoiceEach(db.payments, db.invoices) && OneRenewalEach(db.payments, db.invoices, db.renewals)
    requires Settles(db, input, period, now, db') && ResolvesParked(db, input)
    ensures OneInvoiceEach(db'.payments, db'.invoices) && OneRenewalEach(db'.payments, db'.invoices, db'.renewals)
  {
    var k := SettledRow(db, input, period, now, db');
    var inv := InvoiceOf(input, period, now);
    assert inv.periodStart == period.0 && inv.periodEnd == period.1;
    hide InvoiceOf, Settles, OneInvoiceEach, OneRenewalEach;
    InvoiceAdded(db.payments, db'.payments, k, db.invoices, inv);
    RenewalAdded(db.payments, db'.payments, k, db.invoices, inv, db.renewals, db'.renewals);
  }

  /** The new invoice's period starts at the later of now and the end so far, which becomes its own end. */
  lemma SettledInvoice(db: Db, input: SettleInput, period: (UtcDate, UtcDate), now: UtcDate, db': Db, s: SubscriptionId)
    requires Settles(db, input, period, now, db')
    ensures db'.invoices == db.invoices + [InvoiceOf(input, period, now)]
    ensures var inv := InvoiceOf(input, period, now);
      && inv.periodStart == period.0 && inv.periodEnd == period.1 && inv.paidAt == now
      && (For(inv, s) ==>
           && s in db.subscriptions && s in db'.subscriptions
           && Before(period.0, period.1) && NotAfter(now, period.0) && NotAfter(db.subscriptions[s].periodEnd, period.0)
           && (period.0 == now || period.0 == db.subscriptions[s].periodEnd)
           && LastsMonths(period.0, period.1, db.subscriptions[s].durationMonths)
           && db'.subscriptions[s] == db.subscriptions[s].(periodStart := period.0, periodEnd := period.1, active := true))
      && (!For(inv, s) ==>
           (s in db'.subscriptions <==> s in db.subscriptions)
           && (s in db.subscriptions ==> db'.subscriptions[s] == db.subscriptions[s]))
  {}

  /** The new period starts at `end` or, if that is later, at the payment. */
  predicate Follows(inv: Invoice, end: UtcDate) {
    && Before(inv.periodStart, inv.periodEnd) && NotAfter(inv.paidAt, inv.periodStart) && NotAfter(end, inv.periodStart)
    && (inv.periodStart == inv.paidAt || inv.periodStart == end)
  }

  lemma TilingExtended(invoices: seq<Invoice>, inv: Invoice, s: SubscriptionId, end: UtcDate)
    requires PeriodsTile(invoices, s) && (For(inv, s) ==> EndsAt(invoices, s, end) && Follows(inv, end))
    ensures PeriodsTile(invoices + [inv], s)
  {
    hide DaysInMonth;
    var after, n := invoices + [inv], |invoices|;
    assert forall k :: 0 <= k < n ==> after[k] == invoices[k];
    forall i, j | 0 <= i < j < n + 1 && For(after[i], s) && For(after[j], s)
      ensures NotAfter(after[i].periodEnd, after[j].periodStart)
    {
      if j == n {
        assert For(invoices[i], s);
      }
    }
    forall i, j | IsNext(after, i, j, s) && NotAfter(after[j].paidAt, after[i].periodEnd)
      ensures after[j].periodStart == after[i].periodEnd
    {
      if j < n {
        assert IsNext(invoices, i, j, s);
      } else {
        LatestBeforeNew(invoices, inv, i, s);
        assert end == invoices[i].periodEnd;
        OnlyOne(inv.paidAt, end, inv.periodStart);
      }
    }
  }

  lemma LatestBeforeNew(invoices: seq<Invoice>, inv: Invoice, i: int, s: SubscriptionId)
    requires IsNext(invoices + [inv], i, |invoices|, s)
    ensures IsLatest(invoices, i, s)
  {
    assert forall k :: 0 <= k < |invoices| ==> (invoices + [inv])[k] == invoices[k];
  }

  lemma EndMoves(invoices: seq<Invoice>, inv: Invoice, s: SubscriptionId, end: UtcDate, end': UtcDate)
    requires EndsAt(invoices, s, end)
    requires if For(inv, s) then Follows(inv, end) && end' == inv.periodEnd else end' == end
    ensures EndsAt(invoices + [inv], s, end')
  {
    var after, n := invoices + [inv], |invoices|;
    assert forall k :: 0 <= k < n ==> after[k] == invoices[k];
    forall i | IsLatest(after, i, s) ensures end' == after[i].periodEnd {
      if i < n {
        assert !For(after[n], s);
        assert IsLatest(invoices, i, s);
      }
    }
    forall i | 0 <= i < n + 1 && For(after[i], s) ensures NotAfter(after[i].periodEnd, end') {
      if i < n {
        assert NotAfter(invoices[i].periodEnd, end);
      }
    }
  }

  lemma SettledKeepsPeriods(db: Db, input: SettleInput, period: (UtcDate, UtcDate), now: UtcDate, db': Db,
      s: SubscriptionId)
    requires PeriodsTile(db.invoices, s) && EndIsLatest(db, s) && Settles(db, input, period, now, db')
    ensures PeriodsTile(db'.invoices, s) && EndIsLatest(db', s)
  {
    SettledInvoice(db, input, period, now, db', s);
    hide Settles, InvoiceOf, PeriodsTile, EndsAt;
    var inv := InvoiceOf(input, period, now);
    var end := if s in db.subscriptions then db.subscriptions[s].periodEnd else now;
    TilingExtended(db.invoices, inv, s, end);
    if s in db.subscriptions {
      EndMoves(db.invoices, inv, s, end, db'.subscriptions[s].periodEnd);
    }
  }

  lemma SettledShows(db: Db, input: SettleInput, period: (UtcDate, UtcDate), now: UtcDate, db': Db,
      s: SubscriptionId)
    requires ShowsLatest(db, s) && Settles(db, input, period, now, db')
    ensures ShowsLatest(db', s)
  {
    SettledInvoice(db, input, period, now, db', s);
    hide Settles, InvoiceOf, DaysInMonth;
    forall i | s in db'.subscriptions && IsLatest(db'.invoices, i, s)
      ensures db'.subscriptions[s].periodStart == db'.invoices[i].periodStart && db'.subscriptions[s].active
    {
      if i < |db.invoices| {
        assert db'.invoices[|db.invoices|] == InvoiceOf(input, period, now) && !For(db'.invoices[|db.invoices|], s);
        assert forall k :: 0 <= k < |db.invoices| ==> db'.invoices[k] == db.invoices[k];
        assert IsLatest(db.invoices, i, s);
      }
    }
  }

  lemma SettledLasts(db: Db, input: SettleInput, period: (UtcDate, UtcDate), now: UtcDate, db': Db, k: nat)
    requires LastsThePlan(db, k) && Settles(db, input, period, now, db')
    ensures LastsThePlan(db', k)
  {
    if k < |db'.invoices| && db'.invoices[k].subscriptionId.Some? {
      SettledInvoice(db, input, period, now, db', db'.invoices[k].subscriptionId.value);
    }
    hide Settles, InvoiceOf, LastsMonths;
  }

  /** A start no earlier than `end`, being `end` or a moment not after it, is `end`. */
  lemma OnlyOne(now: UtcDate, end: UtcDate, start: UtcDate)
    requires NotAfter(now, end) && NotAfter(end, start) && (start == now || start == end)
    ensures start == end
  {}

  // ---------- Every step ----------

  lemma SettledKeeps(db: Db, input: SettleInput, period: (UtcDate, UtcDate), now: UtcDate, db': Db)
    requires Consistent(db) && Settles(db, input, period, now, db') && ResolvesParked(db, input)
    ensures Consistent(db')
  {
    hide Settles, OneInvoiceEach, OneRenewalEach, ResolvesParked;
    SettledKeepsBooks(db, input, period, now, db');
  }

  lemma SettleKeeps(db: Db, input: SettleInput, now: UtcDate)
    requires Consistent(db) && ResolvesParked(db, input)
    ensures Settle(db, input, now).Ok? ==> Consistent(Settle(db, input, now).value)
  {
    hide Consistent, PeriodFor, Settled;
    if Settle(db, input, now).Ok? {
      SettledKeeps(db, input, PeriodFor(db, input, now).value, now, Settle(db, input, now).value);
    }
  }

  lemma ParkKeeps(db: Db, owner: OwnerId, s: SubscriptionId, gateway: string, ref: string, amount: int)
    requires Consistent(db)
    ensures Park(db, owner, s, gateway, ref, amount).Ok? ==> Consistent(Park(db, owner, s, gateway, ref, amount).value)
  {
    hide OneInvoiceEach, OneRenewalEach;
    var r := Park(db, owner, s, gateway, ref, amount);
    if r.Ok? {
      BooksAfterPark(db.payments, r.value.payments[|db.payments|], db.invoices, db.renewals);
    }
  }

  lemma BooksAfterPark(payments: seq<Payment>, parked: Payment, invoices: seq<Invoice>, renewals: seq<Renewal>)
    requires OneInvoiceEach(payments, invoices) && OneRenewalEach(payments, invoices, renewals)
    requires parked.status == Pending && parked.invoiceId == None
    ensures OneInvoiceEach(payments + [parked], invoices) && OneRenewalEach(payments + [parked], invoices, renewals)
  {
    InvoicesAfterPark(payments, parked, invoices);
    RenewalsAfterPark(payments, parked, invoices, renewals);
  }

  lemma InvoicesAfterPark(payments: seq<Payment>, parked: Payment, invoices: seq<Invoice>)
    requires OneInvoiceEach(payments, invoices) && parked.status == Pending && parked.invoiceId == None
    ensures OneInvoiceEach(payments + [parked], invoices)
  {
    hide Bills;
    var after := payments + [parked];
    assert forall i :: 0 <= i < |payments| ==> after[i] == payments[i];
    forall k | 0 <= k < |invoices| ensures Answered(after, k) {
      assert Answered(payments, k);
      var i :| 0 <= i < |payments| && payments[i].invoiceId == Some(k);
      assert after[i].invoiceId == Some(k);
    }
  }

  lemma RenewalsAfterPark(payments: seq<Payment>, parked: Payment, invoices: seq<Invoice>, renewals: seq<Renewal>)
    requires OneRenewalEach(payments, invoices, renewals) && parked.status == Pending
    ensures OneRenewalEach(payments + [parked], invoices, renewals)
  {
    hide Records;
    var after := payments + [parked];
    forall e | 0 <= e < |renewals| ensures Records(renewals[e], after, invoices) {
      RecordsAfterPark(renewals[e], payments, parked, invoices);
    }
    forall i | 0 <= i < |after| && after[i].status == Success && after[i].subscriptionId.Some?
      ensures exists e :: 0 <= e < |renewals| && renewals[e].paymentId == i
    {
      assert after[i] == payments[i];
    }
  }

  lemma RecordsAfterPark(r: Renewal, payments: seq<Payment>, parked: Payment, invoices: seq<Invoice>)
    requires Records(r, payments, invoices)
    ensures Records(r, payments + [parked], invoices)
  {}

  /** The books speak only of these tables. */
  lemma BooksIgnoreCalls(db: Db, db': Db)
    requires Consistent(db) && db' == db.(webhooks := db'.webhooks, dispatched := db'.dispatched, inFlight := db'.inFlight)
    ensures Consistent(db')
  {
    hide OneInvoiceEach, OneRenewalEach;
  }

  /** The row a step settles although it is settled already: the call read it earlier, and another call came first. */
  function SettledAgain(db: Db, op: Op): Option<nat> {
    if op.SettleRow? && AwaitsSettling(db, op.key) && db.payments[db.inFlight[op.key].paymentId].status == Success then
      Some(db.inFlight[op.key].paymentId)
    else None
  }

  lemma FlightResolves(db: Db, key: EventKey)
    requires Sound(db) && AwaitsSettling(db, key)
    ensures var input, k := FlightInput(db, key), db.inFlight[key].paymentId;
      && input.existingPaymentId == Some(k) && input.ownerId == db.payments[k].ownerId
      && input.subscriptionId == db.payments[k].subscriptionId && input.amountPaise == db.payments[k].amount
      && ResolvesRow(db, input) && (db.payments[k].status == Pending <==> ResolvesParked(db, input))
  {
    assert FlightOk(db, key);
  }

  lemma ManualResolves(db: Db, op: Op)
    requires op.ManualPayment?
    ensures ResolvesParked(db, ManualInput(op)) && ManualInput(op).existingPaymentId.None?
  {}

  lemma ApplyKeeps(db: Db, op: Op)
    requires Sound(db) && Consistent(db) && SettledAgain(db, op).None?
    ensures Consistent(Apply(db, op))
  {
    hide Consistent, Settle, Sound, ResolvesParked, FlightInput;
    match op
    case ParkOrder(owner, s, gateway, ref, amount) => ParkKeeps(db, owner, s, gateway, ref, amount);
    case ManualPayment(_, _, _, _, at) =>
      ManualResolves(db, op);
      SettleKeeps(db, ManualInput(op), at);
    case ClaimEvent(_) => BooksIgnoreCalls(db, Apply(db, op));
    case FindRow(_, _) => BooksIgnoreCalls(db, Apply(db, op));
    case SettleRow(key, now) =>
      if AwaitsSettling(db, key) {
        FlightResolves(db, key);
        var settled := Settle(db, FlightInput(db, key), now);
        SettleKeeps(db, FlightInput(db, key), now);
        BooksIgnoreCalls(if settled.Ok? then settled.value else db, Apply(db, op));
      }
  }

  // ---------- What races cannot break ----------

  predicate RowOutlives(p: Payment, p': Payment) {
    SamePurpose(p, p') && (p.status == Success ==> p'.status == Success) && (p'.status == Pending ==> p' == p)
  }

  /** Rows keep what they are for and stay settled, invoices are only added, subscriptions keep owner and plan. */
  ghost predicate Outlives(db: Db, after: Db) {
    && |db.payments| <= |after.payments| && db.invoices <= after.invoices
    && (forall i :: 0 <= i < |db.payments| ==> RowOutlives(db.payments[i], after.payments[i]))
    && (forall s :: s in db.subscriptions ==>
          && s in after.subscriptions && after.subscriptions[s].ownerId == db.subscriptions[s].ownerId
          && after.subscriptions[s].durationMonths == db.subscriptions[s].durationMonths)
  }

  /** A row this step settled: it carries the newest invoice and could be renewed. */
  ghost predicate NewlySettled(db: Db, after: Db, i: nat)
    requires i < |after.payments|
  {
    |after.invoices| == |db.invoices| + 1 && after.payments[i].invoiceId == Some(|db.invoices|)
    && Renewable(db.subscriptions, after.payments[i])
  }

  lemma SettleOutlives(db: Db, input: SettleInput, now: UtcDate)
    requires ResolvesRow(db, input) && Settle(db, input, now).Ok?
    ensures var after := Settle(db, input, now).value;
      && Outlives(db, after)
      && (forall i :: 0 <= i < |after.payments| ==>
            (i < |db.payments| && after.payments[i] == db.payments[i]) || NewlySettled(db, after, i))
  {
    SettledIsRenewable(db, input, now);
    hide PeriodFor;
    SettledOutlives(db, input, PeriodFor(db, input, now).value, now);
    hide Settled, PaymentOf, Renewable, RowOutlives;
  }

  lemma SettledOutlives(db: Db, input: SettleInput, period: (UtcDate, UtcDate), now: UtcDate)
    requires ResolvesRow(db, input) && (input.subscriptionId.Some? ==> input.subscriptionId.value in db.subscriptions)
    ensures var after := Settled(db, input, period, now);
      && Outlives(db, after)
      && |after.invoices| == |db.invoices| + 1
      && (forall i :: 0 <= i < |after.payments| ==>
            (i < |db.payments| && after.payments[i] == db.payments[i]) || after.payments[i] == PaymentOf(db, input, |db.invoices|, now))
      && PaymentOf(db, input, |db.invoices|, now).invoiceId == Some(|db.invoices|)
  {
    hide InvoiceOf;
    var after, row := Settled(db, input, period, now), PaymentOf(db, input, |db.invoices|, now);
    assert after.payments == if input.existingPaymentId.Some? then db.payments[input.existingPaymentId.value := row] else db.payments + [row];
    assert row.status == Success && (input.existingPaymentId.Some? ==> SamePurpose(db.payments[input.existingPaymentId.value], row));
    hide PaymentOf;
  }

  lemma SettledIsRenewable(db: Db, input: SettleInput, now: UtcDate)
    requires ResolvesRow(db, input) && Settle(db, input, now).Ok?
    ensures Renewable(db.subscriptions, PaymentOf(db, input, |db.invoices|, now))
    ensures input.subscriptionId.Some? ==> input.subscriptionId.value in db.subscriptions
  {
    hide AddMonths, Instant, Settled;
  }

  ghost predicate StepOk(db: Db, after: Db) {
    && Outlives(db, after)
    && (forall i :: 0 <= i < |after.payments| ==>
          || (i < |db.payments| && after.payments[i] == db.payments[i]) || NewlySettled(db, after, i)
          || (after.payments[i].status == Pending && after.payments[i].invoiceId == None))
  }

  /** Every payment row after a step is an old one, settled by the step, or newly parked. */
  lemma ApplyOutlives(db: Db, op: Op)
    requires Sound(db)
    ensures StepOk(db, Apply(db, op))
  {
    hide Settle, NewlySettled, FlightInput, Sound;
    var after := Apply(db, op);
    if op.ManualPayment? && Settle(db, ManualInput(op), op.at).Ok? {
      SettleOutlives(db, ManualInput(op), op.at);
    } else if op.SettleRow? && AwaitsSettling(db, op.key) {
      FlightResolves(db, op.key);
      if Settle(db, FlightInput(db, op.key), op.now).Ok? {
        SettleOutlives(db, FlightInput(db, op.key), op.now);
        SameStep(db, Settle(db, FlightInput(db, op.key), op.now).value, after);
      } else {
        SameTables(db, after);
      }
    } else if !op.ParkOrder? {
      SameTables(db, after);
    }
  }

  lemma SameStep(db: Db, settled: Db, after: Db)
    requires StepOk(db, settled)
    requires after == settled.(webhooks := after.webhooks, dispatched := after.dispatched, inFlight := after.inFlight)
    ensures StepOk(db, after)
  {
    hide RowOutlives, Renewable;
  }

  lemma SameTables(db: Db, after: Db)
    requires after == db.(webhooks := after.webhooks, dispatched := after.dispatched, inFlight := after.inFlight)
    ensures Outlives(db, after)
  {}

  lemma RenewableStays(db: Db, after: Db, p: Payment)
    requires Outlives(db, after) && Renewable(db.subscriptions, p)
    ensures Renewable(after.subscriptions, p)
  {}

  /** What a step that may settle leaves of the calls. */
  lemma CallsAfter(db: Db, op: Op)
    ensures var after := Apply(db, op);
      && (op.ParkOrder? || op.ManualPayment? ==>
           after.webhooks == db.webhooks && after.dispatched == db.dispatched && after.inFlight == db.inFlight)
      && (op.SettleRow? && AwaitsSettling(db, op.key) ==>
           after.webhooks.Keys == db.webhooks.Keys + {op.key} && after.dispatched == db.dispatched
           && after.inFlight == db.inFlight - {op.key})
  {
    hide FlightInput, PeriodFor, InvoiceOf, PaymentOf;
  }

  lemma EventsKept(db: Db, op: Op)
    requires EachEventOnce(db) && forall key :: key in db.inFlight ==> key in db.webhooks
    ensures EachEventOnce(Apply(db, op)) && forall key :: key in Apply(db, op).inFlight ==> key in Apply(db, op).webhooks
  {
    CallsAfter(db, op);
    hide Settle, IsPick, SettleFlight, Refs;
  }

  /** A call the step did not touch still knows its row. */
  lemma FlightStays(db: Db, after: Db, key: EventKey)
    requires Outlives(db, after) && key in db.inFlight && FlightOk(db, key)
    requires key in after.inFlight && after.inFlight[key] == db.inFlight[key] && key in after.webhooks
    ensures FlightOk(after, key)
  {}

  /** A step touches at most the call it is a step of. */
  lemma OtherCallsStay(db: Db, op: Op, key: EventKey)
    requires key in Apply(db, op).inFlight
    ensures || (key in db.inFlight && Apply(db, op).inFlight[key] == db.inFlight[key])
      || (op.ClaimEvent? && Apply(db, op).inFlight[key] == Claimed(op.delivery.hint))
      || (op.FindRow? && op.event == key && AwaitsLookup(db, key, op.pick) && db.inFlight[key].hint.Some? && op.pick.Some?
          && op.pick.value < |db.payments| && db.payments[op.pick.value].status == Pending
          && !AmountMismatch(db.inFlight[key].hint.value, db.payments[op.pick.value])
          && Apply(db, op).inFlight[key] == Found(op.pick.value, db.payments[op.pick.value], db.inFlight[key].hint.value)
          && Apply(db, op).payments == db.payments)
  {
    CallsAfter(db, op);
    if op.FindRow? && AwaitsLookup(db, op.event, op.pick) && db.inFlight[op.event].hint.Some? && op.pick.Some? {
      PickIsPending(db.payments, Refs(db.inFlight[op.event].hint.value), op.pick);
    }
    hide Settle, IsPick, SettleFlight, Refs;
  }

  lemma FlightsKept(db: Db, op: Op, key: EventKey)
    requires Sound(db) && key in Apply(db, op).inFlight
    ensures FlightOk(Apply(db, op), key)
  {
    var after := Apply(db, op);
    ApplyOutlives(db, op);
    EventsKept(db, op);
    OtherCallsStay(db, op, key);
    if key in db.inFlight && after.inFlight[key] == db.inFlight[key] {
      FlightStays(db, after, key);
    }
    hide Apply, Outlives, EachEventOnce;
  }

  /** All that holds of one subscription's periods. */
  ghost predicate PeriodsOk(db: Db, s: SubscriptionId) {
    PeriodsTile(db.invoices, s) && EndIsLatest(db, s) && ShowsLatest(db, s)
  }

  lemma SettleKeepsPeriods(db: Db, input: SettleInput, now: UtcDate, s: SubscriptionId)
    requires PeriodsOk(db, s) && ResolvesRow(db, input) && Settle(db, input, now).Ok?
    ensures PeriodsOk(Settle(db, input, now).value, s)
  {
    hide PeriodFor, Settled, PeriodsTile, EndIsLatest, ShowsLatest;
    SettledKeepsPeriods(db, input, PeriodFor(db, input, now).value, now, Settle(db, input, now).value, s);
    SettledShows(db, input, PeriodFor(db, input, now).value, now, Settle(db, input, now).value, s);
  }

  lemma SettleKeepsPlans(db: Db, input: SettleInput, now: UtcDate, k: nat)
    requires LastsThePlan(db, k) && ResolvesRow(db, input) && Settle(db, input, now).Ok?
    ensures LastsThePlan(Settle(db, input, now).value, k)
  {
    hide PeriodFor, Settled, LastsThePlan;
    SettledLasts(db, input, PeriodFor(db, input, now).value, now, Settle(db, input, now).value, k);
  }

  /** The periods speak only of these two tables. */
  lemma PeriodsIgnoreTheRest(db: Db, db': Db, s: SubscriptionId, k: nat)
    requires db'.invoices == db.invoices && db'.subscriptions == db.subscriptions
    ensures PeriodsOk(db, s) <==> PeriodsOk(db', s)
    ensures LastsThePlan(db, k) <==> LastsThePlan(db', k)
  {
    hide PeriodsTile, EndsAt, LastsMonths;
  }

  lemma PeriodsKept(db: Db, op: Op, s: SubscriptionId, k: nat)
    requires Sound(db)
    ensures PeriodsOk(Apply(db, op), s) && LastsThePlan(Apply(db, op), k)
  {
    assert PeriodsOk(db, s) && LastsThePlan(db, k);
    hide PeriodsOk, LastsThePlan, Settle, FlightInput, Sound;
    var after := Apply(db, op);
    if op.ManualPayment? && Settle(db, ManualInput(op), op.at).Ok? {
      SettleKeepsPeriods(db, ManualInput(op), op.at, s);
      SettleKeepsPlans(db, ManualInput(op), op.at, k);
    } else if op.SettleRow? && AwaitsSettling(db, op.key) {
      FlightResolves(db, op.key);
      var settled := Settle(db, FlightInput(db, op.key), op.now);
      if settled.Ok? {
        SettleKeepsPeriods(db, FlightInput(db, op.key), op.now, s);
        SettleKeepsPlans(db, FlightInput(db, op.key), op.now, k);
      }
      PeriodsIgnoreTheRest(if settled.Ok? then settled.value else db, after, s, k);
    } else {
      PeriodsIgnoreTheRest(db, after, s, k);
    }
  }

  lemma SettledRowKept(db: Db, op: Op, i: nat)
    requires Sound(db) && i < |Apply(db, op).payments| && Apply(db, op).payments[i].status == Success
    ensures var after := Apply(db, op);
      && after.payments[i].invoiceId.Some? && after.payments[i].invoiceId.value < |after.invoices|
      && Renewable(after.subscriptions, after.payments[i])
  {
    var after := Apply(db, op);
    ApplyOutlives(db, op);
    hide Apply, FlightOk, Renewable, RowOutlives, PeriodsTile, EndIsLatest, EachEventOnce;
    RenewableStays(db, after, after.payments[i]);
  }

  lemma ApplyKeepsSound(db: Db, op: Op)
    requires Sound(db)
    ensures Sound(Apply(db, op))
  {
    var after := Apply(db, op);
    hide Apply, FlightOk, Renewable, PeriodsTile, EndIsLatest, ShowsLatest, LastsThePlan, EachEventOnce;
    CallsKeepTheirEvents(db, op);
    forall key | key in after.inFlight ensures FlightOk(after, key) {
      FlightsKept(db, op, key);
    }
    forall s ensures PeriodsTile(after.invoices, s) && EndIsLatest(after, s) && ShowsLatest(after, s) {
      PeriodsKept(db, op, s, 0);
    }
    forall k: nat ensures LastsThePlan(after, k) {
      PeriodsKept(db, op, "", k);
    }
    forall i | 0 <= i < |after.payments| && after.payments[i].status == Success
      ensures after.payments[i].invoiceId.Some? && after.payments[i].invoiceId.value < |after.invoices|
      ensures Renewable(after.subscriptions, after.payments[i])
    {
      SettledRowKept(db, op, i);
    }
  }

  lemma CallsKeepTheirEvents(db: Db, op: Op)
    requires Sound(db)
    ensures EachEventOnce(Apply(db, op))
  {
    forall key | key in db.inFlight ensures key in db.webhooks {
      assert FlightOk(db, key);
    }
    EventsKept(db, op);
  }

  // ---------- Every run ----------

  /** Some step of the run settles a row that is settled already. */
  predicate SettlesTwice(db: Db, ops: seq<Op>)
    decreases |ops|
  {
    ops != [] && (SettledAgain(db, ops[0]).Some? || SettlesTwice(Apply(db, ops[0]), ops[1..]))
  }

  /** An invoice no payment answers for. */
  predicate Orphaned(db: Db, k: nat) {
    k < |db.invoices| && !Answered(db.payments, k)
  }

  lemma OrphanIsInconsistent(db: Db, k: nat)
    requires Orphaned(db, k)
    ensures !Consistent(db)
  {
    assert Consistent(db) ==> Answered(db.payments, k);
  }

  /** A row that could be renewed once can be settled again: nothing refuses the second capture. */
  lemma SecondCaptureSettles(db: Db, op: Op)
    requires Sound(db) && SettledAgain(db, op).Some?
    ensures Settle(db, FlightInput(db, op.key), op.now).Ok?
  {
    FlightResolves(db, op.key);
    hide Instant;
  }

  /** A step changes no row but the one it settles. */
  lemma OtherRowsStay(db: Db, op: Op, i: nat)
    requires i < |db.payments| && !(op.SettleRow? && AwaitsSettling(db, op.key) && db.inFlight[op.key].paymentId == i)
    ensures i < |Apply(db, op).payments| && Apply(db, op).payments[i] == db.payments[i]
  {
    hide PeriodFor, InvoiceOf, PaymentOf;
  }

  /** Settling a row again gives it the new invoice. */
  lemma SecondCaptureMoves(db: Db, op: Op)
    requires Sound(db) && SettledAgain(db, op).Some?
    ensures var after, row := Apply(db, op), SettledAgain(db, op).value;
      && |after.payments| == |db.payments| && |after.invoices| == |db.invoices| + 1
      && after.payments[row].invoiceId == Some(|db.invoices|) && after.payments[row].status == Success
  {
    SecondCaptureSettles(db, op);
    hide PeriodFor, InvoiceOf;
  }

  /** And the invoice it had is left without a payment. */
  lemma SecondCaptureOrphans(db: Db, op: Op) returns (k: nat)
    requires Sound(db) && Consistent(db) && SettledAgain(db, op).Some?
    ensures Orphaned(Apply(db, op), k)
  {
    var row, after := SettledAgain(db, op).value, Apply(db, op);
    k := db.payments[row].invoiceId.value;
    SecondCaptureMoves(db, op);
    forall i | 0 <= i < |db.payments| && i != row ensures after.payments[i] == db.payments[i] {
      OtherRowsStay(db, op, i);
    }
    hide FlightInput, OneRenewalEach, PeriodsTile, EndIsLatest, Bills, Apply, SettledAgain;
    forall i | 0 <= i < |after.payments| ensures after.payments[i].invoiceId != Some(k) {
      if i != row {
        assert i < row || row < i;
      }
    }
  }

  /** No later step gives an old invoice to a payment. */
  lemma OrphanStays(db: Db, op: Op, k: nat)
    requires Sound(db) && Orphaned(db, k)
    ensures Orphaned(Apply(db, op), k)
  {
    ApplyOutlives(db, op);
    hide Apply, RowOutlives, Sound;
  }

  lemma {:induction false} OrphanForever(db: Db, ops: seq<Op>, k: nat)
    requires Sound(db) && Orphaned(db, k)
    ensures Orphaned(Run(db, ops), k)
    decreases |ops|
  {
    hide Apply, Orphaned, Sound;
    if ops != [] {
      OrphanStays(db, ops[0], k);
      ApplyKeepsSound(db, ops[0]);
      OrphanForever(Apply(db, ops[0]), ops[1..], k);
    }
  }

  lemma FreshIsConsistent(db: Db)
    requires Fresh(db)
    ensures Sound(db) && Consistent(db)
  {}

  /**
   * From empty books, over any interleaving of orders, manual payments and webhook calls at any times,
   * no event is dispatched twice; every period sold lasts its plan's months to the day and the time of
   * day; and a subscription's periods are ordered, disjoint, never before their payment and gap-free
   * when paid early, its row showing the last. Settled payments, invoices and renewal
   * events correspond one to one if and only if no call settled a row that another call had settled
   * since it was read.
   */
  lemma {:induction false} RunKeeps(db: Db, ops: seq<Op>)
    requires (Sound(db) && Consistent(db)) || Fresh(db)
    ensures Sound(Run(db, ops))
    ensures Consistent(Run(db, ops)) <==> !SettlesTwice(db, ops)
    decreases |ops|
  {
    if Fresh(db) {
      FreshIsConsistent(db);
    }
    hide Sound, Consistent, Apply, SettledAgain;
    if ops != [] {
      ApplyKeepsSound(db, ops[0]);
      if SettledAgain(db, ops[0]).None? {
        ApplyKeeps(db, ops[0]);
        RunKeeps(Apply(db, ops[0]), ops[1..]);
      } else {
        var k := SecondCaptureOrphans(db, ops[0]);
        RunKeepsSound(Apply(db, ops[0]), ops[1..]);
        OrphanForever(Apply(db, ops[0]), ops[1..], k);
        OrphanIsInconsistent(Run(db, ops), k);
      }
    }
  }

  lemma {:induction false} RunKeepsSound(db: Db, ops: seq<Op>)
    requires Sound(db)
    ensures Sound(Run(db, ops))
    decreases |ops|
  {
    hide Sound, Apply;
    if ops != [] {
      ApplyKeepsSound(db, ops[0]);
      RunKeepsSound(Apply(db, ops[0]), ops[1..]);
    }
  }

  // ---------- A payment row's life ----------

  /** Some step of the run settles row `i` although it is settled. */
  predicate SettlesRowAgain(db: Db, ops: seq<Op>, i: nat)
    decreases |ops|
  {
    ops != [] && (SettledAgain(db, ops[0]) == Some(i) || SettlesRowAgain(Apply(db, ops[0]), ops[1..], i))
  }

  lemma SettledRowMoves(db: Db, op: Op, i: nat)
    requires Sound(db) && i < |db.payments| && db.payments[i].status == Success
    ensures var after := Apply(db, op);
      && i < |after.payments| && after.payments[i].status == Success && after.payments[i].invoiceId.Some?
      && (SettledAgain(db, op) != Some(i) ==> after.payments[i] == db.payments[i])
      && (SettledAgain(db, op) == Some(i) ==> db.payments[i].invoiceId.value < after.payments[i].invoiceId.value)
  {
    if SettledAgain(db, op) == Some(i) {
      SecondCaptureMoves(db, op);
      hide Apply, FlightOk, Renewable;
    } else {
      OtherRowsStay(db, op, i);
    }
  }

  lemma {:induction false} SettledRowRises(db: Db, ops: seq<Op>, i: nat)
    requires Sound(db) && i < |db.payments| && db.payments[i].status == Success
    ensures var after := Run(db, ops);
      && i < |after.payments| && after.payments[i].invoiceId.Some? && db.payments[i].invoiceId.Some?
      && db.payments[i].invoiceId.value <= after.payments[i].invoiceId.value
      && (after.payments[i] == db.payments[i] <==> !SettlesRowAgain(db, ops, i))
    decreases |ops|
  {
    SettledRowHasInvoice(db, i);
    hide Sound, Apply, SettledAgain;
    if ops != [] {
      SettledRowMoves(db, ops[0], i);
      ApplyKeepsSound(db, ops[0]);
      SettledRowRises(Apply(db, ops[0]), ops[1..], i);
    }
  }

  lemma SettledRowHasInvoice(db: Db, i: nat)
    requires Sound(db) && i < |db.payments| && db.payments[i].status == Success
    ensures db.payments[i].invoiceId.Some?
  {}

  lemma {:induction false} RowsOutlive(db: Db, ops: seq<Op>, i: nat)
    requires Sound(db) && i < |db.payments|
    ensures i < |Run(db, ops).payments| && RowOutlives(db.payments[i], Run(db, ops).payments[i])
    decreases |ops|
  {
    hide Sound, Apply, NewlySettled;
    if ops != [] {
      ApplyOutlives(db, ops[0]);
      ApplyKeepsSound(db, ops[0]);
      RowsOutlive(Apply(db, ops[0]), ops[1..], i);
    }
  }

  /**
   * Over any interleaving a payment row stays for the same owner, subscription and amount and, once
   * settled, stays settled; a settled row is final exactly when no later step settles it again.
   */
  lemma WhenSettledIsFinal(db: Db, ops: seq<Op>, i: nat)
    requires Sound(db) && i < |db.payments|
    ensures i < |Run(db, ops).payments| && RowOutlives(db.payments[i], Run(db, ops).payments[i])
    ensures db.payments[i].status == Success ==> (Run(db, ops).payments[i] == db.payments[i] <==> !SettlesRowAgain(db, ops, i))
  {
    hide Sound;
    RowsOutlive(db, ops, i);
    if db.payments[i].status == Success {
      SettledRowRises(db, ops, i);
    }
  }

  /** After an event was claimed, any delivery under its key changes nothing, whatever it carries and however
      much later. */
  lemma {:induction false} RedeliveryChangesNothing(db: Db, ops: seq<Op>, d: Delivery)
    requires KeyOf(d) in db.webhooks
    ensures KeyOf(d) in Run(db, ops).webhooks
    ensures Apply(Run(db, ops), ClaimEvent(d)) == Run(db, ops)
    decreases |ops|
  {
    if ops != [] {
      ClaimsStay(db, ops[0], KeyOf(d));
      RedeliveryChangesNothing(Apply(db, ops[0]), ops[1..], d);
    }
  }

  lemma ClaimsStay(db: Db, op: Op, key: EventKey)
    requires key in db.webhooks
    ensures key in Apply(db, op).webhooks
  {
    CallsAfter(db, op);
    hide Settle, IsPick, SettleFlight, Refs;
  }

  // ---------- The settlement by itself ----------

  /** Why a settlement is refused, if it is. */
  function Refusal(db: Db, input: SettleInput): Option<Error> {
    if input.amountPaise <= 0 then Some(BadAmount)
    else if input.subscriptionId.None? then None
    else if input.subscriptionId.value !in db.subscriptions then Some(SubscriptionNotFound)
    else if db.subscriptions[input.subscriptionId.value].ownerId != input.ownerId then Some(WrongOwner)
    else if db.subscriptions[input.subscriptionId.value].durationMonths < 1 then Some(BadDuration)
    else if db.subscriptions[input.subscriptionId.value].durationMonths > 120 then Some(BadDuration)
    else None
  }

  /** Renewed from the later of the payment and the end so far, for the plan's months to the day, and active. */
  predicate RenewedBy(now: UtcDate, s: Subscription, s': Subscription) {
    && s' == s.(periodStart := s'.periodStart, periodEnd := s'.periodEnd, active := true)
    && (s'.periodStart == now || s'.periodStart == s.periodEnd)
    && NotAfter(now, s'.periodStart) && NotAfter(s.periodEnd, s'.periodStart)
    && LastsMonths(s'.periodStart, s'.periodEnd, s.durationMonths)
  }

  /** The one subscription paid for is renewed, and its new period is the one bought; without one the period is the moment. */
  ghost predicate Renews(db: Db, after: Db, subscriptionId: Option<SubscriptionId>, inv: Invoice, now: UtcDate) {
    if subscriptionId.None? then
      after.subscriptions == db.subscriptions && after.renewals == db.renewals && inv.periodStart == inv.periodEnd == now
    else
      var s := subscriptionId.value;
      && s in db.subscriptions && s in after.subscriptions && after.subscriptions == db.subscriptions[s := after.subscriptions[s]]
      && RenewedBy(now, db.subscriptions[s], after.subscriptions[s])
      && inv.periodStart == after.subscriptions[s].periodStart && inv.periodEnd == after.subscriptions[s].periodEnd
  }

  /** The invoice for a payment: whose, for what, when, and 18% on top in two halves. */
  predicate InvoiceFits(inv: Invoice, input: SettleInput, now: UtcDate) {
    && inv.ownerId == input.ownerId && inv.subscriptionId == input.subscriptionId
    && inv.subtotal == input.amountPaise && inv.paidAt == now
    && -100 < 200 * inv.tax - 36 * inv.subtotal <= 100 && inv.total == inv.subtotal + inv.tax
    && inv.cgst + inv.sgst == inv.tax && inv.igst == 0 && inv.sgst <= inv.cgst <= inv.sgst + 1
  }

  /** What a settlement that goes through writes, table by table. */
  ghost predicate Writes(db: Db, input: SettleInput, now: UtcDate, after: Db)
    requires input.existingPaymentId.Some? ==> input.existingPaymentId.value < |db.payments|
  {
    && |after.invoices| == |db.invoices| + 1 && db.invoices <= after.invoices
    && InvoiceFits(after.invoices[|db.invoices|], input, now)
    && Renews(db, after, input.subscriptionId, after.invoices[|db.invoices|], now)
    && (if input.existingPaymentId.Some? then
          var k := input.existingPaymentId.value;
          var p := db.payments[k];
          after.payments == db.payments[k := Payment(
            p.ownerId, p.subscriptionId, Some(|db.invoices|), p.gateway,
            if input.gatewayRef.Some? then input.gatewayRef else p.gatewayRef, input.amountPaise, Success, Some(now))]
        else
          after.payments == db.payments + [Payment(
            input.ownerId, input.subscriptionId, Some(|db.invoices|), input.gateway, input.gatewayRef, input.amountPaise,
            Success, Some(now))])
    && (input.subscriptionId.Some? ==>
          |after.renewals| == |db.renewals| + 1 && db.renewals <= after.renewals
          && Records(after.renewals[|db.renewals|], after.payments, after.invoices)
          && after.renewals[|db.renewals|].invoiceId == |db.invoices|
          && after.renewals[|db.renewals|].subscriptionId == input.subscriptionId.value)
    && after.webhooks == db.webhooks && after.dispatched == db.dispatched && after.inFlight == db.inFlight
  }

  lemma InvoiceIsFit(input: SettleInput, period: (UtcDate, UtcDate), now: UtcDate)
    ensures InvoiceFits(InvoiceOf(input, period, now), input, now)
    ensures InvoiceOf(input, period, now).periodStart == period.0 && InvoiceOf(input, period, now).periodEnd == period.1
  {
    Gst.RateTable(Gst.Saas, input.amountPaise);
  }

  lemma PeriodIsBought(db: Db, input: SettleInput, now: UtcDate)
    requires input.amountPaise > 0
    ensures var period := PeriodFor(db, input, now);
      && (period.Ok? <==> Refusal(db, input).None?) && (period.Err? ==> Refusal(db, input) == Some(period.error))
      && (period.Ok? && input.subscriptionId.None? ==> period.value == (now, now))
      && (period.Ok? && input.subscriptionId.Some? ==>
           var s := db.subscriptions[input.subscriptionId.value];
           RenewedBy(now, s, s.(periodStart := period.value.0, periodEnd := period.value.1, active := true)))
  {
    hide Instant, AddMonths;
  }

  lemma SettledWrites(db: Db, input: SettleInput, period: (UtcDate, UtcDate), now: UtcDate)
    requires ResolvesRow(db, input) && InvoiceFits(InvoiceOf(input, period, now), input, now)
    requires InvoiceOf(input, period, now).periodStart == period.0 && InvoiceOf(input, period, now).periodEnd == period.1
    requires input.subscriptionId.None? ==> period == (now, now)
    requires input.subscriptionId.Some? ==>
      && input.subscriptionId.value in db.subscriptions
      && var s := db.subscriptions[input.subscriptionId.value];
         RenewedBy(now, s, s.(periodStart := period.0, periodEnd := period.1, active := true))
    ensures Writes(db, input, now, Settled(db, input, period, now))
  {
    hide InvoiceOf, InvoiceFits, RenewedBy;
  }

  /** A settlement goes through exactly when nothing refuses it, and then writes this and nothing else. */
  lemma SettleWrites(db: Db, input: SettleInput, now: UtcDate)
    requires input.existingPaymentId.Some? ==> input.existingPaymentId.value < |db.payments|
    ensures var settled := Settle(db, input, now);
      && (settled.Ok? <==> Refusal(db, input).None?) && (settled.Err? ==> Refusal(db, input) == Some(settled.error))
      && (settled.Ok? && ResolvesRow(db, input) ==> Writes(db, input, now, settled.value))
  {
    if input.amountPaise > 0 {
      PeriodIsBought(db, input, now);
      var period := PeriodFor(db, input, now);
      hide PeriodFor, InvoiceOf, InvoiceFits, RenewedBy, Writes, Settled, ResolvesRow;
      if period.Ok? && ResolvesRow(db, input) {
        InvoiceIsFit(input, period.value, now);
        SettledWrites(db, input, period.value, now);
      }
    }
  }

  lemma SettleKeepsSound(db: Db, input: SettleInput, now: UtcDate)
    requires Sound(db) && ResolvesRow(db, input) && Settle(db, input, now).Ok?
    ensures Sound(Settle(db, input, now).value)
  {
    var after := Settle(db, input, now).value;
    SettleOutlives(db, input, now);
    SettleLeavesCalls(db, input, now);
    hide Settle, RowOutlives, Renewable, PeriodsTile, EndIsLatest, ShowsLatest, LastsThePlan, EachEventOnce, Outlives;
    forall s ensures PeriodsTile(after.invoices, s) && EndIsLatest(after, s) && ShowsLatest(after, s) {
      assert PeriodsOk(db, s);
      SettleKeepsPeriods(db, input, now, s);
    }
    forall k: nat ensures LastsThePlan(after, k) {
      SettleKeepsPlans(db, input, now, k);
    }
    forall key | key in after.inFlight ensures FlightOk(after, key) {
      FlightStays(db, after, key);
    }
    EventsAlike(db, after);
    forall i | 0 <= i < |after.payments| && after.payments[i].status == Success
      ensures after.payments[i].invoiceId.Some? && after.payments[i].invoiceId.value < |after.invoices|
      ensures Renewable(after.subscriptions, after.payments[i])
    {
      InvoicesGrow(db, after);
      RenewableStays(db, after, after.payments[i]);
    }
  }

  lemma InvoicesGrow(db: Db, after: Db)
    requires Outlives(db, after)
    ensures |db.invoices| <= |after.invoices|
  {}

  lemma EventsAlike(db: Db, after: Db)
    requires EachEventOnce(db) && after.webhooks == db.webhooks && after.dispatched == db.dispatched
    ensures EachEventOnce(after)
  {}

  lemma SettleLeavesCalls(db: Db, input: SettleInput, now: UtcDate)
    requires input.existingPaymentId.Some? ==> input.existingPaymentId.value < |db.payments|
    ensures var r := Settle(db, input, now);
      r.Ok? ==> r.value.webhooks == db.webhooks && r.value.dispatched == db.dispatched && r.value.inFlight == db.inFlight
  {
    hide PeriodFor, InvoiceOf, PaymentOf;
  }

  /** A settlement of a row for what it is for keeps the books one to one exactly when the row is still parked,
      or new. */
  lemma SettleDecides(db: Db, input: SettleInput, now: UtcDate)
    requires Sound(db) && Consistent(db) && ResolvesRow(db, input) && Settle(db, input, now).Ok?
    ensures Consistent(Settle(db, input, now).value) <==> ResolvesParked(db, input)
  {
    if ResolvesParked(db, input) {
      SettleKeeps(db, input, now);
    } else {
      var row, after := input.existingPaymentId.value, Settle(db, input, now).value;
      var k := db.payments[row].invoiceId.value;
      SettleMovesRow(db, input, now);
      hide Settle, OneRenewalEach, PeriodsTile, EndIsLatest, Bills;
      forall i | 0 <= i < |after.payments| ensures after.payments[i].invoiceId != Some(k) {
        if i != row {
          assert i < row || row < i;
        }
      }
      OrphanIsInconsistent(after, k);
    }
  }

  /** What a settlement adds: one invoice, and one renewal when it is for a subscription. */
  lemma SettleAdds(db: Db, input: SettleInput, now: UtcDate)
    requires input.existingPaymentId.Some? ==> input.existingPaymentId.value < |db.payments|
    requires Settle(db, input, now).Ok?
    ensures var after := Settle(db, input, now).value;
      && |after.invoices| == |db.invoices| + 1 && db.invoices <= after.invoices
      && |after.renewals| == |db.renewals| + (if input.subscriptionId.Some? then 1 else 0) && db.renewals <= after.renewals
  {
    hide PeriodFor, InvoiceOf, PaymentOf;
  }

  lemma SettleMovesRow(db: Db, input: SettleInput, now: UtcDate)
    requires ResolvesRow(db, input) && input.existingPaymentId.Some? && Settle(db, input, now).Ok?
    ensures var after, row := Settle(db, input, now).value, input.existingPaymentId.value;
      && |after.payments| == |db.payments| && |after.invoices| == |db.invoices| + 1
      && after.payments[row].invoiceId == Some(|db.invoices|)
      && forall i :: 0 <= i < |db.payments| && i != row ==> after.payments[i] == db.payments[i]
  {
    hide PeriodFor, InvoiceOf;
  }
}
