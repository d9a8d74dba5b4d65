/** Webhook calls that interleave, and one that does not: when rows are settled twice, and what a delivery does
    alone. */
module SettlementCalls {
  import opened Common
  import opened Calendar
  import opened Settlement
  import opened SettlementRuns

  // ---------- Two captures of one order ----------

  /** A capture of five rupees on the one order, told apart by its payment id. */
  function Capture(id: string): Delivery {
    Delivery("razorpay", true, id, Some(Hint(Some("order_1"), Some(id), Some(500))))
  }

  lemma RunSteps(db: Db, op: Op, ops: seq<Op>)
    ensures Run(db, [op] + ops) == Run(Apply(db, op), ops) && Run(db, []) == db
  {
    assert ([op] + ops)[1..] == ops;
  }

  lemma RunTwo(db: Db, first: Op, second: Op, ops: seq<Op>)
    ensures Run(db, [first, second] + ops) == Run(Apply(Apply(db, first), second), ops)
  {
    hide Apply;
    assert ([first, second] + ops)[1..] == [second] + ops;
    RunSteps(Apply(db, first), second, ops);
  }

  lemma RunSeven(db: Db, a: Op, b: Op, c: Op, d: Op, e: Op, f: Op, g: Op)
    ensures Run(db, [a, b, c, d, e, f, g]) == Apply(Apply(Apply(Apply(Apply(Apply(Apply(db, a), b), c), d), e), f), g)
  {
    hide Apply, Run;
    var one := Apply(db, a);
    RunSteps(db, a, [b, c] + ([d, e] + [f, g]));
    RunTwo(one, b, c, [d, e] + [f, g]);
    RunTwo(Apply(Apply(one, b), c), d, e, [f, g]);
    var five := Apply(Apply(Apply(Apply(one, b), c), d), e);
    RunTwo(five, f, g, []);
    assert [f, g] + [] == [f, g];
    RunSteps(Apply(Apply(five, f), g), a, []);
    assert [a] + ([b, c] + ([d, e] + [f, g])) == [a, b, c, d, e, f, g];
  }

  /** A call claims its own event and reads the parked row, whoever else has read it. */
  lemma CallReads(db: Db, id: string, parked: Payment)
    requires db.payments == [parked] && KeyOf(Capture(id)) !in db.webhooks
    requires parked.status == Pending && parked.gatewayRef == Some("order_1") && parked.amount == 500
    ensures var d := Capture(id);
      var read := Apply(Apply(db, ClaimEvent(d)), FindRow(KeyOf(d), Some(0)));
      && read == db.(webhooks := read.webhooks, dispatched := read.dispatched, inFlight := read.inFlight)
      && read.webhooks.Keys == db.webhooks.Keys + {KeyOf(d)}
      && read.inFlight == db.inFlight[KeyOf(d) := Found(0, parked, d.hint.value)]
  {
    var d := Capture(id);
    assert Refs(d.hint.value)[0] == "order_1" && Matches(parked, "order_1");
    hide Refs;
  }

  /** One call settles the row, whoever settled it before. */
  lemma CallSettles(db: Db, key: EventKey, parked: Payment, now: UtcDate)
    requires AwaitsSettling(db, key) && db.inFlight[key].paymentId == 0 && |db.payments| == 1
    requires db.inFlight[key].pending == parked && db.inFlight[key].told.amountPaise == Some(500)
    requires parked.subscriptionId == Some("sub") && parked.ownerId == "owner"
    requires "sub" in db.subscriptions && db.subscriptions["sub"].ownerId ==
        "owner" && db.subscriptions["sub"].durationMonths == 1
    ensures var after := Apply(db, SettleRow(key, now));
      && |after.payments| == 1 && after.payments[0].invoiceId == Some(|db.invoices|)
      && |after.invoices| == |db.invoices| + 1 && |after.renewals| == |db.renewals| + 1
      && "sub" in after.subscriptions && after.subscriptions["sub"].ownerId == "owner"
      && after.subscriptions["sub"].durationMonths == 1 && after.inFlight == db.inFlight - {key}
  {
    hide InvoiceOf, AddMonths, Instant;
  }

  /** Both calls hold the row the order parked. */
  lemma BothHold(db: Db, parked: Payment)
    requires db.payments == [parked] && db.webhooks == map[] && db.inFlight == map[]
    requires parked.status == Pending && parked.gatewayRef == Some("order_1") && parked.amount == 500
    ensures var a, b := Capture("pay_1"), Capture("pay_2");
      var held := Apply(Apply(Apply(Apply(db, ClaimEvent(a)), FindRow(KeyOf(a), Some(0))), ClaimEvent(b)), FindRow(KeyOf(b), Some(0)));
      && held == db.(webhooks := held.webhooks, dispatched := held.dispatched, inFlight := held.inFlight)
      && held.inFlight == map[KeyOf(a) := Found(0, parked, a.hint.value), KeyOf(b) := Found(0, parked, b.hint.value)]
      && KeyOf(a) != KeyOf(b)
  {
    var a, b := Capture("pay_1"), Capture("pay_2");
    assert KeyOf(a).1 == "pay_1" && KeyOf(b).1 == "pay_2";
    var one := Apply(Apply(db, ClaimEvent(a)), FindRow(KeyOf(a), Some(0)));
    CallReads(db, "pay_1", parked);
    hide Apply, Capture, KeyOf;
    CallReads(one, "pay_2", parked);
  }

  /** Whichever settles second settles all the same. */
  lemma BothSettle(db: Db, a: EventKey, b: EventKey, parked: Payment, now: UtcDate)
    requires a != b && a in db.inFlight && b in db.inFlight && db.payments == [parked]
    requires db.inFlight[a].Found? && db.inFlight[a].paymentId == 0 && db.inFlight[a].pending == parked
    requires db.inFlight[b].Found? && db.inFlight[b].paymentId == 0 && db.inFlight[b].pending == parked
    requires db.inFlight[a].told.amountPaise == db.inFlight[b].told.amountPaise == Some(500)
    requires parked.subscriptionId == Some("sub") && parked.ownerId == "owner"
    requires "sub" in db.subscriptions && db.subscriptions["sub"].ownerId ==
        "owner" && db.subscriptions["sub"].durationMonths == 1
    ensures var after := Apply(Apply(db, SettleRow(a, now)), SettleRow(b, now));
      && |after.payments| == 1 && after.payments[0].invoiceId == Some(|db.invoices| + 1)
      && |after.invoices| == |db.invoices| + 2 && |after.renewals| == |db.renewals| + 2
  {
    CallSettles(db, a, parked, now);
    hide Apply;
    CallSettles(Apply(db, SettleRow(a, now)), b, parked, now);
  }

  function ParkedOrder(): Payment {
    Payment("owner", Some("sub"), None, "razorpay", Some("order_1"), 500, Pending, None)
  }

  lemma OrderParked(db: Db)
    requires "sub" in db.subscriptions && db.subscriptions["sub"].ownerId == "owner" && db.payments == []
    ensures Apply(db, ParkOrder("owner", "sub", "razorpay", "order_1", 500)) == db.(payments := [ParkedOrder()])
  {}

  lemma CapturesAgree(a: Delivery)
    requires a == Capture("pay_1") || a == Capture("pay_2")
    ensures a.hint.Some? && a.hint.value.amountPaise == Some(500)
  {}

  lemma TwoCapturesAfter(db: Db, park: Op, a: Delivery, b: Delivery, now: UtcDate)
    requires db == Db(map["sub" := Subscription("owner", 1, now, now, true)], [], [], [], map[], [], map[])
    requires park == ParkOrder("owner", "sub", "razorpay", "order_1", 500) && a == Capture("pay_1") && b == Capture("pay_2")
    ensures var held := Apply(Apply(Apply(Apply(Apply(db, park), ClaimEvent(a)), FindRow(KeyOf(a), Some(0))), ClaimEvent(b)), FindRow(KeyOf(b), Some(0)));
      var after := Apply(Apply(held, SettleRow(KeyOf(a), now)), SettleRow(KeyOf(b), now));
      |after.payments| == 1 && after.payments[0].invoiceId == Some(1) && |after.invoices| == 2 && |after.renewals| == 2
  {
    hide Apply, Capture, KeyOf;
    var parked, start := ParkedOrder(), Apply(db, park);
    OrderParked(db);
    CapturesAgree(a);
    CapturesAgree(b);
    BothHold(start, parked);
    var held := Apply(Apply(Apply(Apply(start, ClaimEvent(a)), FindRow(KeyOf(a), Some(0))), ClaimEvent(b)), FindRow(KeyOf(b), Some(0)));
    BothSettle(held, KeyOf(a), KeyOf(b), parked, now);
  }

  /**
   * It happens: two captures of one order under different payment ids both read the parked row
   * before either settles it. The subscription is renewed twice and invoiced twice, and the one
   * payment row answers for the second invoice only.
   */
  lemma TwoCaptures(db: Db, now: UtcDate)
    requires db == Db(map["sub" := Subscription("owner", 1, now, now, true)], [], [], [], map[], [], map[])
    ensures var a, b := Capture("pay_1"), Capture("pay_2");
      var after := Run(db, [ParkOrder("owner", "sub", "razorpay", "order_1", 500),
                            ClaimEvent(a), FindRow(KeyOf(a), Some(0)), ClaimEvent(b), FindRow(KeyOf(b), Some(0)),
                            SettleRow(KeyOf(a), now), SettleRow(KeyOf(b), now)]);
      && |after.payments| == 1 && after.payments[0].invoiceId == Some(1)
      && |after.invoices| == 2 && |after.renewals| == 2 && Orphaned(after, 0)
  {
    hide Apply, Capture, KeyOf, Run;
    var a, b, park := Capture("pay_1"), Capture("pay_2"), ParkOrder("owner", "sub", "razorpay", "order_1", 500);
    TwoCapturesAfter(db, park, a, b, now);
    RunSeven(db, park, ClaimEvent(a), FindRow(KeyOf(a), Some(0)), ClaimEvent(b), FindRow(KeyOf(b), Some(0)),
      SettleRow(KeyOf(a), now), SettleRow(KeyOf(b), now));
  }

  // ---------- One call at a time on a row ----------

  /** Calls that have read a row hold different rows, all still parked. */
  ghost predicate HoldApart(db: Db) {
    && (forall key :: key in db.inFlight && db.inFlight[key].Found? ==>
          db.inFlight[key].paymentId < |db.payments| && db.payments[db.inFlight[key].paymentId].status == Pending)
    && (forall a, b :: a in db.inFlight && b in db.inFlight && a != b && db.inFlight[a].Found? && db.inFlight[b].Found? ==>
          db.inFlight[a].paymentId != db.inFlight[b].paymentId)
  }

  /** The lookup picks a row another call holds. */
  ghost predicate FindsHeld(db: Db, op: Op) {
    op.FindRow? && AwaitsLookup(db, op.event, op.pick) && op.pick.Some?
    && exists key :: key in db.inFlight && db.inFlight[key].Found? && db.inFlight[key].paymentId == op.pick.value
  }

  ghost predicate EverFindsHeld(db: Db, ops: seq<Op>)
    decreases |ops|
  {
    ops != [] && (FindsHeld(db, ops[0]) || EverFindsHeld(Apply(db, ops[0]), ops[1..]))
  }

  lemma ApplyHoldsApart(db: Db, op: Op)
    requires HoldApart(db) && !FindsHeld(db, op)
    ensures HoldApart(Apply(db, op)) && SettledAgain(db, op).None?
  {
    var after := Apply(db, op);
    CallsAfter(db, op);
    forall key | key in after.inFlight && after.inFlight[key].Found?
      ensures after.inFlight[key].paymentId < |after.payments| && after.payments[after.inFlight[key].paymentId].status == Pending
      ensures (key in db.inFlight && after.inFlight[key] == db.inFlight[key]) ||
        (op.FindRow? && op.event == key && AwaitsLookup(db, key, op.pick) && op.pick == Some(after.inFlight[key].paymentId))
    {
      OtherCallsStay(db, op, key);
      if key in db.inFlight && after.inFlight[key] == db.inFlight[key] {
        OtherRowsStay(db, op, db.inFlight[key].paymentId);
      }
    }
    hide Apply, AwaitsLookup;
  }

  /** If no lookup ever picks a row another call holds, no row is settled twice: whole deliveries one after
      another are safe. */
  lemma {:induction false} OneHolderIsEnough(db: Db, ops: seq<Op>)
    requires Sound(db) && HoldApart(db) && !EverFindsHeld(db, ops)
    ensures !SettlesTwice(db, ops)
    decreases |ops|
  {
    hide Sound, HoldApart, Apply, FindsHeld, SettledAgain;
    if ops != [] {
      ApplyHoldsApart(db, ops[0]);
      ApplyKeepsSound(db, ops[0]);
      OneHolderIsEnough(Apply(db, ops[0]), ops[1..]);
    }
  }

  // ---------- One delivery ----------

  /** Nothing stands in the way of this capture: authentic, new, for a parked row of the right amount whose
      subscription can be renewed. */
  predicate Settleable(db: Db, d: Delivery, pick: Option<nat>) {
    && (d.provider == "razorpay" || d.provider == "cashfree") && d.verified && (d.provider, d.eventId) !in db.webhooks
    && d.hint.Some? && pick.Some? && pick.value < |db.payments|
    && (d.hint.value.amountPaise.None? || d.hint.value.amountPaise == Some(db.payments[pick.value].amount))
    && Renewable(db.subscriptions, db.payments[pick.value])
  }

  /** The reference a settled row carries: the payment id if the event had one, else the order id, else what it had. */
  predicate CarriesReference(hint: Hint, read: Option<string>, ref: Option<string>) {
    && (hint.paymentRef.Some? ==> ref == hint.paymentRef)
    && (hint.paymentRef.None? && hint.orderRef.Some? ==> ref == hint.orderRef)
    && (hint.paymentRef.None? && hint.orderRef.None? ==> ref == read)
  }

  /** A delivery that claims its event, reads and settles, one step after another. */
  lemma DeliverySteps(db: Db, d: Delivery, pick: Option<nat>, now: UtcDate)
    requires KeyOf(d) !in db.webhooks
    ensures Run(db, Deliver(db, d, pick, now))
         == Apply(Apply(Apply(db, ClaimEvent(d)), FindRow(KeyOf(d), pick)), SettleRow(KeyOf(d), now))
  {
    hide Apply;
    var claim, find, settle := ClaimEvent(d), FindRow(KeyOf(d), pick), SettleRow(KeyOf(d), now);
    RunSteps(Apply(Apply(db, claim), find), settle, []);
    RunSteps(Apply(db, claim), find, [settle]);
    RunSteps(db, claim, [find, settle]);
    assert Deliver(db, d, pick, now) == [claim] + [find, settle];
  }

  lemma CallsHaveClaimed(db: Db, key: EventKey)
    requires Sound(db)
    ensures key in db.inFlight ==> key in db.webhooks
  {
    assert key in db.inFlight ==> FlightOk(db, key);
  }

  /** Where a delivery ends, by what became of its claim. */
  lemma DeliveryInSteps(db: Db, d: Delivery, pick: Option<nat>, now: UtcDate)
    requires Sound(db)
    ensures var after, claimed := Run(db, Deliver(db, d, pick, now)), Apply(db, ClaimEvent(d));
      if d.provider in PROVIDERS && d.verified && KeyOf(d) !in db.webhooks then
        after == Apply(Apply(claimed, FindRow(KeyOf(d), pick)), SettleRow(KeyOf(d), now))
      else after == db
  {
    var claim := ClaimEvent(d);
    if KeyOf(d) in db.webhooks {
      RunSteps(db, claim, []);
      RunSteps(Apply(db, claim), claim, []);
      assert [claim] + [] == [claim];
    } else {
      DeliverySteps(db, d, pick, now);
      CallsHaveClaimed(db, KeyOf(d));
      hide Settle, IsPick, Sound;
    }
  }

  /** After the claim and the lookup the call holds the row exactly when the capture is for its amount; else it
      is over. */
  lemma ClaimAndLookUp(db: Db, d: Delivery, pick: Option<nat>)
    requires Sound(db) && CanPick(db, d.hint, pick)
    requires d.provider in PROVIDERS && d.verified && KeyOf(d) !in db.webhooks
    ensures var read := Apply(Apply(db, ClaimEvent(d)), FindRow(KeyOf(d), pick));
      && read == db.(webhooks := read.webhooks, dispatched := read.dispatched, inFlight := read.inFlight)
      && KeyOf(d) in read.webhooks
      && (if d.hint.Some? && pick.Some? && pick.value < |db.payments| && !AmountMismatch(d.hint.value, db.payments[pick.value]) then
            AwaitsSettling(read, KeyOf(d)) && read.inFlight[KeyOf(d)] == Found(pick.value, db.payments[pick.value], d.hint.value)
          else !AwaitsSettling(read, KeyOf(d)) && read.webhooks[KeyOf(d)] == Processed(false))
  {
    if d.hint.Some? && pick.Some? {
      PickIsPending(db.payments, Refs(d.hint.value), pick);
    }
    hide IsPick, Refs;
  }

  /** Settling goes through exactly when the subscription can be renewed, and then moves its end by the plan's
      months. */
  lemma SettlesIfRenewable(db: Db, key: EventKey, now: UtcDate)
    requires AwaitsSettling(db, key) && db.inFlight[key].pending == db.payments[db.inFlight[key].paymentId]
    requires !AmountMismatch(db.inFlight[key].told, db.inFlight[key].pending)
    ensures var k, after := db.inFlight[key].paymentId, Apply(db, SettleRow(key, now));
      if Renewable(db.subscriptions, db.payments[k]) then
        && |after.payments| == |db.payments| && |after.invoices| == |db.invoices| + 1 && after.payments[k].status == Success
        && CarriesReference(db.inFlight[key].told, db.payments[k].gatewayRef, after.payments[k].gatewayRef)
        && after.payments[k].amount == db.payments[k].amount && after.payments[k].capturedAt == Some(now)
        && key in after.webhooks && after.webhooks[key] == Processed(true)
        && (db.payments[k].subscriptionId.Some? ==>
             var id := db.payments[k].subscriptionId.value;
             id in after.subscriptions && RenewedBy(now, db.subscriptions[id], after.subscriptions[id]))
      else
        after == db.(webhooks := after.webhooks, inFlight := after.inFlight)
        && key in after.webhooks && after.webhooks[key].Failed?
  {
    hide InvoiceOf, AddMonths, Instant;
  }

  /**
   * A delivery undisturbed by others settles the row it found, renewing its subscription by the plan's
   * months, exactly when nothing stands in the way; otherwise, a capture of another amount included,
   * no payment, invoice, subscription or renewal changes.
   */
  lemma DeliverySettles(db: Db, d: Delivery, pick: Option<nat>, now: UtcDate)
    requires Sound(db) && CanPick(db, d.hint, pick)
    ensures var after := Run(db, Deliver(db, d, pick, now));
      if Settleable(db, d, pick) then
        && |after.payments| == |db.payments| && |after.invoices| == |db.invoices| + 1
        && after.payments[pick.value].status == Success && db.payments[pick.value].status == Pending
        && CarriesReference(d.hint.value, db.payments[pick.value].gatewayRef, after.payments[pick.value].gatewayRef)
        && after.payments[pick.value].amount == db.payments[pick.value].amount
        && (d.provider, d.eventId) in after.webhooks && after.webhooks[(d.provider, d.eventId)] == Processed(true)
        && (db.payments[pick.value].subscriptionId.Some? ==>
             var id := db.payments[pick.value].subscriptionId.value;
             id in after.subscriptions && RenewedBy(now, db.subscriptions[id], after.subscriptions[id]))
      else
        after == db.(webhooks := after.webhooks, dispatched := after.dispatched, inFlight := after.inFlight)
  {
    var key := KeyOf(d);
    hide Settle, SettleFlight, IsPick, Refs, Sound, Renewable, RenewedBy, Deliver, LookUp, CarriesReference;
    DeliveryInSteps(db, d, pick, now);
    if d.provider in PROVIDERS && d.verified && key !in db.webhooks {
      ClaimAndLookUp(db, d, pick);
      var read := Apply(Apply(db, ClaimEvent(d)), FindRow(key, pick));
      if AwaitsSettling(read, key) {
        SettlesIfRenewable(read, key, now);
        PickIsPending(db.payments, Refs(d.hint.value), pick);
      }
    }
  }

  /** A delivery undisturbed by others leaves everything in order: the row it settles is still parked. */
  lemma DeliveryKeeps(db: Db, d: Delivery, pick: Option<nat>, now: UtcDate)
    requires Sound(db) && Consistent(db) && CanPick(db, d.hint, pick)
    ensures var after := Run(db, Deliver(db, d, pick, now)); Sound(after) && Consistent(after)
  {
    var key, claimed := KeyOf(d), Apply(db, ClaimEvent(d));
    DeliveryInSteps(db, d, pick, now);
    if d.provider in PROVIDERS && d.verified && key !in db.webhooks {
      var read := Apply(claimed, FindRow(key, pick));
      ClaimAndLookUp(db, d, pick);
      if pick.Some? && d.hint.Some? {
        PickIsPending(db.payments, Refs(d.hint.value), pick);
      }
      assert SettledAgain(read, SettleRow(key, now)).None? && SettledAgain(db, ClaimEvent(d)).None?;
      hide Sound, Consistent, Apply, SettledAgain;
      ApplyKeepsSound(db, ClaimEvent(d));
      ApplyKeeps(db, ClaimEvent(d));
      ApplyKeepsSound(claimed, FindRow(key, pick));
      LookUpNeverSettles(claimed, key, pick);
      ApplyKeeps(claimed, FindRow(key, pick));
      ApplyKeepsSound(read, SettleRow(key, now));
      ApplyKeeps(read, SettleRow(key, now));
    }
  }

  lemma LookUpNeverSettles(db: Db, key: EventKey, pick: Option<nat>)
    ensures SettledAgain(db, FindRow(key, pick)).None?
  {}

  /** A parked order is what a capture naming it finds: a row of that order, and the new one if no other is pending. */
  lemma ParkedIsFound(db: Db, owner: OwnerId, s: SubscriptionId, gateway: string, ref: string, amount: int,
      hint: Hint, pick: Option<nat>)
    requires Park(db, owner, s, gateway, ref, amount).Ok? && ref != "" && hint.orderRef == Some(ref)
    requires var after := Park(db, owner, s, gateway, ref, amount).value; CanPick(after, Some(hint), pick)
    ensures var after := Park(db, owner, s, gateway, ref, amount).value;
      && pick.Some? && pick.value < |after.payments| && Matches(after.payments[pick.value], ref)
      && ((forall i :: 0 <= i < |db.payments| ==> !Matches(db.payments[i], ref)) ==> pick == Some(|db.payments|))
  {
    var after := Park(db, owner, s, gateway, ref, amount).value;
    assert Refs(hint)[0] == ref;
    assert Matches(after.payments[|db.payments|], ref);
  }
}
