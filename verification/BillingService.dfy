/**
 * The billing service over its tables: each method is one call or one transaction of the source,
 * proved against the step it must be and shown to leave the tables in order.
 */
module BillingService {
  import opened Common
  import opened Calendar
  import opened Settlement
  import opened SettlementCalls
  import opened SettlementRuns
  import Gst

  class Billing {
    var subscriptions: map<SubscriptionId, Subscription>
    var payments: seq<Payment>
    var invoices: seq<Invoice>
    var renewals: seq<Renewal>
    var webhooks: map<EventKey, WebhookOutcome>
    /** What each webhook call under way remembers between its transactions. */
    var inFlight: map<EventKey, Flight>
    ghost var dispatched: seq<EventKey>

    ghost function State(): Db
      reads this
    {
      Db(subscriptions, payments, invoices, renewals, webhooks, dispatched, inFlight)
    }

    /** Periods in order, no event twice, and payments, invoices and renewals one to one. */
    ghost predicate Valid()
      reads this
    {
      Sound(State()) && Consistent(State())
    }

    /** All of the step's effect and its success, or none of it and its error. */
    ghost predicate Commits(error: Option<Error>, before: Db, after: Db, step: Result<Db>) {
      if step.Ok? then error == None && after == step.value else error == Some(step.error) && after == before
    }

    constructor (subscriptions: map<SubscriptionId, Subscription>)
      ensures Valid() && Fresh(State()) && State().subscriptions == subscriptions
    {
      this.subscriptions := subscriptions;
      payments, invoices, renewals, webhooks, dispatched, inFlight := [], [], [], map[], [], map[];
      new;
      FreshIsConsistent(State());
    }

    /** The writes of a settlement, in order. */
    method WriteSettlement(input: SettleInput, now: UtcDate) returns (error: Option<Error>)
      requires input.existingPaymentId.Some? ==> input.existingPaymentId.value < |payments|
      modifies this
      ensures Commits(error, old(State()), State(), Settle(old(State()), input, now))
    {
      hide AddMonths, Instant, Gst.ComputeForCategory;
      if input.amountPaise <= 0 { return Some(BadAmount); }

      // A payment for a subscription buys its next period.
      var start, end := now, now;
      if input.subscriptionId.Some? {
        var id := input.subscriptionId.value;
        if id !in subscriptions { return Some(SubscriptionNotFound); }
        var s := subscriptions[id];
        if s.ownerId != input.ownerId { return Some(WrongOwner); }
        var renewed := ComputeRenewal(now, s.periodEnd, s.durationMonths);
        if renewed.Err? { return Some(renewed.error); }
        start, end := renewed.value.0, renewed.value.1;
        subscriptions := subscriptions[id := s.(periodStart := start, periodEnd := end, active := true)];
      }

      var gst := Gst.ComputeForCategory(Gst.Saas, input.amountPaise, None, true);
      var invoiceId := |invoices|;
      invoices := invoices + [Invoice(input.ownerId, input.subscriptionId, start, end, input.amountPaise,
                                      gst.cgst, gst.sgst, gst.igst, gst.tax, input.amountPaise + gst.tax, now)];

      // The update is by id alone: it does not ask whether the row is still parked.
      var paymentId;
      if input.existingPaymentId.Some? {
        paymentId := input.existingPaymentId.value;
        var p := payments[paymentId];
        p := p.(status := Success, invoiceId := Some(invoiceId), amount := input.amountPaise, capturedAt := Some(now));
        if input.gatewayRef.Some? { p := p.(gatewayRef := input.gatewayRef); }
        payments := payments[paymentId := p];
      } else {
        paymentId := |payments|;
        payments := payments + [Payment(input.ownerId, input.subscriptionId, Some(invoiceId), input.gateway,
                                        input.gatewayRef, input.amountPaise, Success, Some(now))];
      }

      if input.subscriptionId.Some? {
        renewals := renewals + [Renewal(input.subscriptionId.value, paymentId, invoiceId, input.amountPaise, start, end)];
      }
      return None;
    }

    /** A payment adds one invoice and at most one renewal; the tables stay in order exactly when its row is new
        or parked. */
    method SettleInTx(input: SettleInput, now: UtcDate) returns (error: Option<Error>)
      requires input.existingPaymentId.Some? ==> input.existingPaymentId.value < |payments|
      modifies this
      ensures error == Refusal(old(State()), input)
      ensures error.Some? ==> State() == old(State())
      ensures error.None? ==>
        && |invoices| == |old(invoices)| + 1 && old(invoices) <= invoices
        && |renewals| == |old(renewals)| + (if input.subscriptionId.Some? then 1 else 0) && old(renewals) <= renewals
      ensures error.None? && ResolvesRow(old(State()), input) ==> Writes(old(State()), input, now, State())
      ensures old(Valid()) && ResolvesRow(old(State()), input) ==>
        Sound(State()) && (Valid() <==> error.Some? || ResolvesParked(old(State()), input))
      ensures Commits(error, old(State()), State(), Settle(old(State()), input, now))
      ensures dispatched == old(dispatched) && webhooks == old(webhooks) && inFlight == old(inFlight)
    {
      ghost var before := State();
      hide Settle, Sound, Consistent, ResolvesRow, ResolvesParked, Refusal, Writes;
      error := WriteSettlement(input, now);
      SettleWrites(before, input, now);
      if error.None? {
        SettleAdds(before, input, now);
        SettleLeavesCalls(before, input, now);
        if Sound(before) && Consistent(before) && ResolvesRow(before, input) {
          SettleKeepsSound(before, input, now);
          SettleDecides(before, input, now);
        }
      }
    }

    method RecordManualPayment(ownerId: OwnerId, subscriptionId: Option<SubscriptionId>,
        amountPaise: int, reference: Option<string>, now: UtcDate)
      returns (error: Option<Error>)
      requires Valid()
      modifies this
      ensures Valid()
      ensures error == Refusal(old(State()), SettleInput(ownerId, subscriptionId, amountPaise, "MANUAL", reference, None))
      ensures error.Some? ==> State() == old(State())
      ensures error.None? ==>
        payments == old(payments) + [Payment(
          ownerId, subscriptionId, Some(|old(invoices)|), "MANUAL", reference, amountPaise, Success, Some(now))]
      ensures error.None? && subscriptionId.Some? ==>
        && subscriptionId.value in old(subscriptions) && subscriptionId.value in subscriptions
        && RenewedBy(now, old(subscriptions)[subscriptionId.value], subscriptions[subscriptionId.value])
      ensures State() == Apply(old(State()), ManualPayment(ownerId, subscriptionId, amountPaise, reference, now))
    {
      ghost var op := ManualPayment(ownerId, subscriptionId, amountPaise, reference, now);
      ApplyKeeps(State(), op);
      ApplyKeepsSound(State(), op);
      hide Settle, Sound, Consistent, RenewedBy, InvoiceFits;
      error := SettleInTx(SettleInput(ownerId, subscriptionId, amountPaise, "MANUAL", reference, None), now);
    }

    /** Parks an order of the owner's own subscription, where a capture that names the order will find it. */
    method ParkPendingOrder(ownerId: OwnerId, subscriptionId: SubscriptionId, gateway: string, ref: string, amount: int)
      returns (error: Option<Error>)
      requires Valid()
      modifies this
      ensures Valid()
      ensures error ==
        if subscriptionId !in old(subscriptions) then Some(SubscriptionNotFound)
        else if old(subscriptions)[subscriptionId].ownerId != ownerId then Some(WrongOwner)
        else None
      ensures error.None? ==>
        payments == old(payments) + [Payment(ownerId, Some(subscriptionId), None, gateway, Some(ref), amount, Pending, None)]
      ensures error.None? && ref != "" ==>
        forall hint: Hint, pick: Option<nat> :: hint.orderRef == Some(ref) && CanPick(State(), Some(hint), pick) ==>
          && pick.Some? && pick.value < |payments| && Matches(payments[pick.value], ref)
          && ((forall i :: 0 <= i < |old(payments)| ==> !Matches(old(payments)[i], ref)) ==>
                pick == Some(|old(payments)|) && payments[pick.value].amount == amount)
      ensures Commits(error, old(State()), State(), Park(old(State()), ownerId, subscriptionId, gateway, ref, amount))
    {
      ghost var before, op := State(), ParkOrder(ownerId, subscriptionId, gateway, ref, amount);
      ApplyKeeps(before, op);
      ApplyKeepsSound(before, op);
      hide Sound, Consistent;
      if subscriptionId !in subscriptions { return Some(SubscriptionNotFound); }
      if subscriptions[subscriptionId].ownerId != ownerId { return Some(WrongOwner); }
      payments := payments + [Payment(ownerId, Some(subscriptionId), None, gateway, Some(ref), amount, Pending, None)];
      forall hint: Hint, pick: Option<nat> | ref != "" && hint.orderRef == Some(ref) && CanPick(State(), Some(hint), pick)
        ensures pick.Some? && pick.value < |payments| && Matches(payments[pick.value], ref)
        ensures (forall i :: 0 <= i < |before.payments| ==> !Matches(before.payments[i], ref)) ==> pick == Some(|before.payments|)
      {
        ParkedIsFound(before, ownerId, subscriptionId, gateway, ref, amount, hint, pick);
      }
      return None;
    }

    /** The first transaction of a webhook call; true when the event is new and now this call's. */
    method ReceiveEvent(d: Delivery) returns (r: Result<bool>)
      modifies this
      ensures r ==
        if d.provider != "razorpay" && d.provider != "cashfree" then Err(UnknownProvider)
        else if !d.verified then Err(SignatureMismatch)
        else Ok((d.provider, d.eventId) !in old(webhooks))
      ensures r == Ok(true) ==>
        && dispatched == old(dispatched) + [(d.provider, d.eventId)]
        && webhooks == old(webhooks)[(d.provider, d.eventId) := Unprocessed]
        && inFlight == old(inFlight)[(d.provider, d.eventId) := Claimed(d.hint)]
      ensures r != Ok(true) ==> State() == old(State())
      ensures State() == Apply(old(State()), ClaimEvent(d))
    {
      if d.provider !in PROVIDERS { return Err(UnknownProvider); }
      if !d.verified { return Err(SignatureMismatch); }
      if KeyOf(d) in webhooks { return Ok(false); }
      webhooks := webhooks[KeyOf(d) := Unprocessed];
      inFlight := inFlight[KeyOf(d) := Claimed(d.hint)];
      dispatched := dispatched + [KeyOf(d)];
      return Ok(true);
    }

    /** The call is over: what it remembered goes, and its event's row says how it went. */
    method EndCall(key: EventKey, outcome: WebhookOutcome)
      modifies this
      ensures State() == Conclude(old(State()), key, outcome)
    {
      webhooks := webhooks[key := outcome];
      inFlight := inFlight - {key};
    }

    /** The lookups of a dispatch: the first reference with a pending row gives one such row, whichever the
        query returns. */
    method FindPending(refs: seq<string>) returns (pick: Option<nat>)
      ensures IsPick(payments, refs, pick)
    {
      for k := 0 to |refs|
        invariant forall q :: IsPick(payments, refs[k..], q) ==> IsPick(payments, refs, q)
      {
        assert refs[k..][0] == refs[k] && refs[k..][1..] == refs[k + 1..];
        if i :| 0 <= i < |payments| && Matches(payments[i], refs[k]) {
          assert IsPick(payments, refs[k..], Some(i));
          return Some(i);
        }
      }
      assert IsPick(payments, refs[|refs|..], None);
      return None;
    }

    /** The reads of a webhook call: it remembers the parked row of the captured amount, or is over without settling. */
    method ReadRow(key: EventKey) returns (ghost pick: Option<nat>)
      requires key in inFlight && inFlight[key].Claimed?
      modifies this
      ensures AwaitsLookup(old(State()), key, pick)
      ensures State() == Apply(old(State()), FindRow(key, pick))
      ensures key in inFlight ==>
        AwaitsSettling(State(), key)
        && var hint, found := old(inFlight)[key].hint, payments[inFlight[key].paymentId];
        && hint == Some(inFlight[key].told) && inFlight[key].pending == found && found.status == Pending
        && found.gatewayRef == (if Awaits(payments, hint.value.orderRef) then hint.value.orderRef else hint.value.paymentRef)
        && (hint.value.amountPaise.None? || hint.value.amountPaise == Some(found.amount))
      ensures key !in inFlight ==>
        key in webhooks && webhooks[key] == Processed(false)
        && var hint := old(inFlight)[key].hint;
        hint.None? || (!Awaits(payments, hint.value.orderRef) && !Awaits(payments, hint.value.paymentRef))
        || (hint.value.amountPaise.Some? && exists i ::
              0 <= i < |payments| && payments[i].status == Pending && payments[i].amount != hint.value.amountPaise.value)
    {
      var hint := inFlight[key].hint;
      if hint.None? {
        EndCall(key, Processed(false));
        return None;
      }
      var found := FindPending(Refs(hint.value));
      pick := found;
      PickMeans(payments, hint.value, found);
      hide IsPick, Refs, Awaits;
      if found.None? {
        EndCall(key, Processed(false));
        return;
      }
      var pending := payments[found.value];
      if AmountMismatch(hint.value, pending) {
        EndCall(key, Processed(false));
      } else {
        inFlight := inFlight[key := Found(found.value, pending, hint.value)];
      }
    }

    /** The last transaction: the tables stay in order exactly when no other call has settled the row meanwhile. */
    method SettleReadRow(key: EventKey, now: UtcDate)
      requires AwaitsSettling(State(), key)
      modifies this
      ensures State() == Apply(old(State()), SettleRow(key, now))
      ensures old(Valid()) ==> (Valid() <==> old(payments)[old(inFlight)[key].paymentId].status == Pending)
      ensures key in webhooks && (webhooks[key] == Processed(true) || webhooks[key].Failed?) && key !in inFlight
      ensures webhooks[key].Failed? ==> payments == old(payments) && invoices == old(invoices) && subscriptions == old(subscriptions)
      ensures webhooks[key] == Processed(true) ==>
        var f := old(inFlight)[key];
        && |payments| == |old(payments)| && payments[f.paymentId].status == Success && payments[f.paymentId].capturedAt == Some(now)
        && CarriesReference(f.told, if f.pending.gatewayRef.Some? then f.pending.gatewayRef else old(payments)[f.paymentId].gatewayRef,
                            payments[f.paymentId].gatewayRef)
        && payments[f.paymentId].amount == f.told.amountPaise.GetOr(f.pending.amount)
        && (forall i :: 0 <= i < |payments| && i != f.paymentId ==> payments[i] == old(payments)[i])
    {
      ghost var before, op := State(), SettleRow(key, now);
      if Valid() {
        RunKeeps(before, [op]);
        assert [op][1..] == [] && Run(before, [op]) == Run(Apply(before, op), []);
      }
      hide Settle, Sound, Consistent;
      var f := inFlight[key];
      var error := SettleInTx(InputFor(f.pending, f.told, key.0, f.paymentId), now);
      EndCall(key, if error.None? then Processed(true) else Failed(error.value));
    }

    /** A whole delivery with no other call in between. */
    method HandleWebhookCall(d: Delivery, now: UtcDate) returns (error: Option<Error>, ghost pick: Option<nat>)
      requires Valid()
      modifies this
      ensures Valid()
      ensures error ==
        if d.provider != "razorpay" && d.provider != "cashfree" then Some(UnknownProvider)
        else if !d.verified then Some(SignatureMismatch)
        else None
      ensures CanPick(old(State()), d.hint, pick)
      ensures State() == Run(old(State()), Deliver(old(State()), d, pick, now))
    {
      ghost var before, key := State(), KeyOf(d);
      pick := SomePick(before, d.hint);
      DeliveryInSteps(before, d, pick, now);
      hide Sound, Consistent, Run, Deliver, Settle, IsPick;
      var claim := ReceiveEvent(d);
      if claim == Ok(true) {
        pick := ReadRow(KeyOf(d));
        DeliveryInSteps(before, d, pick, now);
        if KeyOf(d) in inFlight {
          SettleReadRow(KeyOf(d), now);
        }
      }
      DeliveryKeeps(before, d, pick, now);
      error := if claim.Err? then Some(claim.error) else None;
    }
  }
}
