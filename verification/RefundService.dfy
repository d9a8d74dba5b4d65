/** The refund calls of the billing service over their tables, each proved against the protocol's steps. */
module RefundService {
  import opened Common
  import opened Refunds
  import opened RefundAttempts
  import opened RefundRuns

  /** What the network does to one attempt. */
  datatype Weather = Weather(lookupFails: bool, fate: Fate)

  /** One attempt from start to end, nothing in between. */
  function AttemptRow(l: Ledger, id: nat, env: Env, w: Weather): Ledger {
    Finish(LookUp(Begin(l, 0, id, env), 0, w.lookupFails), 0, w.fate)
  }

  /** Attempts on a list of rows, in order; the n-th meets the n-th weather. */
  function AttemptRows(l: Ledger, ids: seq<nat>, env: Env, weather: nat -> Weather): Ledger {
    if ids == [] then l
    else AttemptRow(AttemptRows(l, ids[..|ids| - 1], env, weather), ids[|ids| - 1], env, weather(|ids| - 1))
  }

  /** The first `limit` rows still awaiting, oldest first. */
  function AwaitingIds(refunds: seq<Refund>, from: nat, limit: nat): (ids: seq<nat>)
    requires from <= |refunds|
    ensures |ids| <= limit
    ensures forall i :: 0 <= i < |ids| ==> from <= ids[i] < |refunds| && refunds[ids[i]].status == Awaiting
    ensures forall i, j :: 0 <= i < j < |ids| ==> ids[i] < ids[j]
    decreases |refunds| - from
  {
    if from == |refunds| || limit == 0 then []
    else if refunds[from].status == Awaiting then [from] + AwaitingIds(refunds, from + 1, limit - 1)
    else AwaitingIds(refunds, from + 1, limit)
  }

  /** A row still awaiting is passed over only when the limit is used up on older ones. */
  lemma {:induction false} NoneSkipped(refunds: seq<Refund>, from: nat, limit: nat, k: nat)
    requires from <= k < |refunds| && refunds[k].status == Awaiting && k !in AwaitingIds(refunds, from, limit)
    ensures var ids := AwaitingIds(refunds, from, limit);
      |ids| == limit && forall i :: 0 <= i < |ids| ==> ids[i] < k
    decreases |refunds| - from
  {
    if limit > 0 && from < k {
      NoneSkipped(refunds, from + 1, if refunds[from].status == Awaiting then limit - 1 else limit, k);
    }
  }

  function CountProcessed(refunds: seq<Refund>, ids: seq<nat>): nat {
    if ids == [] then 0
    else
      var last := ids[|ids| - 1];
      CountProcessed(refunds, ids[..|ids| - 1]) + (if last < |refunds| && refunds[last].status == Processed then 1 else 0)
  }

  /** The count is of the rows of the list that are processed. */
  lemma {:induction false} CountIsProcessed(refunds: seq<Refund>, ids: seq<nat>)
    ensures CountProcessed(refunds, ids) == |set k | 0 <= k < |ids| && ids[k] < |refunds| && refunds[ids[k]].status == Processed|
  {
    var all := set k | 0 <= k < |ids| && ids[k] < |refunds| && refunds[ids[k]].status == Processed;
    if ids == [] {
      assert all == {};
    } else {
      var init, n := ids[..|ids| - 1], |ids| - 1;
      CountIsProcessed(refunds, init);
      var before := set k | 0 <= k < |init| && init[k] < |refunds| && refunds[init[k]].status == Processed;
      assert forall k :: 0 <= k < n ==> init[k] == ids[k];
      assert all == before + if n in all then {n} else {};
    }
  }

  /** Whether a gateway has a refund for the row under the target. */
  predicate Holds(sent: seq<Sent>, gateway: Gateway, target: string, id: nat) {
    exists g :: 0 <= g < |sent| && sent[g].gateway == gateway && sent[g].target == target && sent[g].receipt == id
  }

  /**
   * What one attempt on row `id` may do, fate by fate. Nothing to send it to: the row becomes manual. A
   * lookup that fails, or a call not answered, leaves the rows as they were; a call that arrived made a
   * refund of the row's amount exactly when the gateway had none for it; an answer marks the row with it.
   */
  ghost predicate Attempted(l: Ledger, after: Ledger, id: nat, env: Env, w: Weather)
    requires id < |l.refunds| && l.refunds[id].paymentId < |l.payments|
  {
    var pay, row := l.payments[l.refunds[id].paymentId], l.refunds[id];
    && after.payments == l.payments
    && ((forall target :: !SendsTo(pay, env, target)) ==>
          after.sent == l.sent && after.refunds == l.refunds[id := row.(status := ByHand)])
    && (forall target :: SendsTo(pay, env, target) ==>
          if pay.gateway == Razorpay && w.lookupFails then after.sent == l.sent && after.refunds == l.refunds
          else
            && after.sent == (if w.fate == NotSent || Holds(l.sent, pay.gateway, target, id) then l.sent
                              else l.sent + [Sent(pay.gateway, target, id, row.amount)])
            && (w.fate != Answered ==> after.refunds == l.refunds)
            && (w.fate == Answered ==>
                 && |after.refunds| == |l.refunds| && after.refunds[id].gatewayRef.Some?
                 && HoldsFor(after.sent, after.refunds[id].gatewayRef.value, id)
                 && after.refunds == l.refunds[id := row.(status := Processed, gatewayRef := after.refunds[id].gatewayRef)]))
  }

  lemma FindIsHolds(sent: seq<Sent>, gateway: Gateway, target: string, id: nat)
    ensures FindByReceipt(sent, gateway, target, id).Some? <==> Holds(sent, gateway, target, id)
  {
    var r := FindByReceipt(sent, gateway, target, id);
    if r.Some? {
      assert sent[r.value].gateway == gateway;
    }
  }

  lemma AttemptMeans(l: Ledger, id: nat, env: Env, w: Weather)
    requires l.inFlight == map[] && id < |l.refunds| && l.refunds[id].paymentId < |l.payments|
    ensures Attempted(l, AttemptRow(l, id, env, w), id, env, w)
  {
    var pay := l.payments[l.refunds[id].paymentId];
    RoutedMeans(pay, env);
    var after := AttemptRow(l, id, env, w);
    var begun := Begin(l, 0, id, env);
    if Routed(pay, env) {
      forall target | SendsTo(pay, env, target) ensures target == TargetOf(pay).value {}
      FindIsHolds(l.sent, pay.gateway, TargetOf(pay).value, id);
      assert pay.gateway == Razorpay || pay.gateway == Cashfree;
      hide FindByReceipt, Holds;
      if pay.gateway == Razorpay {
        assert begun == l.(inFlight := map[0 := Reading(id, Razorpay, TargetOf(pay).value)]);
      } else {
        assert begun == l.(inFlight := map[0 := Calling(id, Cashfree, TargetOf(pay).value, None)]);
      }
      hide TargetOf, SendsTo;
    } else {
      assert begun.inFlight == map[] && after == begun;
      hide SendsTo;
    }
  }

  /** A row that an attempt left awaiting is among those the next sweep takes, unless older ones use up the limit. */
  lemma FailedAttemptIsRetried(l: Ledger, id: nat, env: Env, w: Weather, target: string, limit: nat)
    requires l.inFlight == map[] && id < |l.refunds| && l.refunds[id].paymentId < |l.payments|
    requires l.refunds[id].status == Awaiting && SendsTo(l.payments[l.refunds[id].paymentId], env, target)
    requires (l.payments[l.refunds[id].paymentId].gateway == Razorpay && w.lookupFails) || w.fate != Answered
    ensures var after := AttemptRow(l, id, env, w);
      && after.refunds == l.refunds && after.refunds[id].status == Awaiting
      && var next := AwaitingIds(after.refunds, 0, limit);
         id in next || (|next| == limit && forall i :: 0 <= i < |next| ==> next[i] < id)
  {
    AttemptMeans(l, id, env, w);
    hide AttemptRow, SendsTo;
    if id !in AwaitingIds(l.refunds, 0, limit) {
      NoneSkipped(l.refunds, 0, limit, id);
    }
  }

  /** With nothing else under way an attempt disturbs no other row, and is over at the end. */
  lemma AttemptFrame(l: Ledger, id: nat, env: Env, w: Weather)
    requires l.inFlight == map[]
    ensures var after := AttemptRow(l, id, env, w);
      && after.payments == l.payments && |after.refunds| == |l.refunds| && after.inFlight == map[]
      && (forall i :: 0 <= i < |l.refunds| && i != id ==> after.refunds[i] == l.refunds[i])
  {
    hide FindByReceipt, TargetOf;
    var begun := Begin(l, 0, id, env);
    assert begun.inFlight == map[] || begun.inFlight.Keys == {0};
    var looked := LookUp(begun, 0, w.lookupFails);
    assert looked.inFlight == map[] || (looked.inFlight.Keys == {0} && looked.inFlight[0].Calling?);
    assert begun.inFlight - {0} == map[] && looked.inFlight - {0} == map[];
  }

  lemma {:induction false} CountFrame(a: seq<Refund>, b: seq<Refund>, ids: seq<nat>)
    requires |a| == |b| && forall i :: 0 <= i < |ids| && ids[i] < |a| ==> a[ids[i]].status == b[ids[i]].status
    ensures CountProcessed(a, ids) == CountProcessed(b, ids)
  {
    if ids != [] {
      assert ids[|ids| - 1] == ids[|ids| - 1];
      CountFrame(a, b, ids[..|ids| - 1]);
    }
  }

  lemma {:induction false} AttemptsFrame(l: Ledger, ids: seq<nat>, env: Env, weather: nat -> Weather)
    requires l.inFlight == map[]
    ensures AttemptRows(l, ids, env, weather).inFlight == map[]
  {
    hide AttemptRow;
    if ids != [] {
      AttemptsFrame(l, ids[..|ids| - 1], env, weather);
      AttemptFrame(AttemptRows(l, ids[..|ids| - 1], env, weather), ids[|ids| - 1], env, weather(|ids| - 1));
    }
  }

  /** Every attempt the service makes alone is orderly steps of the protocol, so a sweep of retries keeps it safe. */
  lemma {:induction false} SweepIsSafe(l: Ledger, ids: seq<nat>, env: Env, weather: nat -> Weather)
    requires Safe(l) && l.inFlight == map[]
    ensures Safe(AttemptRows(l, ids, env, weather))
  {
    hide Safe, AttemptRow;
    if ids != [] {
      var init := ids[..|ids| - 1];
      SweepIsSafe(l, init, env, weather);
      AttemptsFrame(l, init, env, weather);
      AttemptIsSafe(AttemptRows(l, init, env, weather), ids[|ids| - 1], env, weather(|ids| - 1));
    }
  }

  /** A routed row whose attempt meets no fault ends processed, naming the refund the gateway holds for it. */
  lemma FaultlessAttemptProcesses(l: Ledger, id: nat, env: Env)
    requires Sound(l) && l.inFlight == map[] && id < |l.refunds| && Routed(l.payments[l.refunds[id].paymentId], env)
    ensures var after := AttemptRow(l, id, env, Weather(false, Answered));
      && after.refunds[id].status == Processed && after.refunds[id].gatewayRef.Some?
      && HoldsFor(after.sent, after.refunds[id].gatewayRef.value, id)
  {
    hide FindByReceipt, RefundTotal;
    var begun := Begin(l, 0, id, env);
    assert 0 in begun.inFlight && begun.inFlight[0].row == id && (begun.inFlight[0].Reading? || begun.inFlight[0].Calling?);
    var ready := LookUp(begun, 0, false);
    assert 0 in ready.inFlight && ready.inFlight[0].Calling? && ready.inFlight[0].row == id && ready.refunds == l.refunds;
    assert Create(ready, ready.inFlight[0]).0 == ready.sent || MakesNew(ready, ready.inFlight[0]);
  }

  lemma SweepStart(l: Ledger, ids: seq<nat>, env: Env, weather: nat -> Weather)
    ensures AttemptRows(l, ids[..0], env, weather) == l && CountProcessed(l.refunds, ids[..0]) == 0
  {}

  lemma SweepStep(l: Ledger, ids: seq<nat>, k: nat, env: Env, weather: nat -> Weather, refunds: seq<Refund>)
    requires k < |ids|
    ensures AttemptRows(l, ids[..k + 1], env, weather) ==
        AttemptRow(AttemptRows(l, ids[..k], env, weather), ids[k], env, weather(k))
    ensures CountProcessed(refunds, ids[..k + 1])
         == CountProcessed(refunds, ids[..k]) + (if ids[k] < |refunds| && refunds[ids[k]].status == Processed then 1 else 0)
  {
    hide AttemptRow;
    assert ids[..k + 1][..k] == ids[..k];
  }

  /** What the ledger move does to the refunded sums; for an admitted amount, exactly when, and that all stays safe. */
  lemma MoveMeans(l: Ledger, p: nat, amount: int)
    requires Safe(l)
    ensures var step := RefundInTx(l, p, amount);
      && (amount >= 1 ==>
           (step.Ok? <==> p < |l.payments| && IsPaid(l.payments[p].status) && RefundTotal(l.refunds, p) + amount <= l.payments[p].amount))
      && (step.Ok? ==>
           && (amount >= 1 ==> Safe(step.value))
           && RefundTotal(step.value.refunds, p) == RefundTotal(l.refunds, p) + amount
           && (forall q: nat :: q != p ==> RefundTotal(step.value.refunds, q) == RefundTotal(l.refunds, q)))
  {
    if p < |l.payments| && l.payments[p].status == Refunded {
      assert StatusTells(l, p) && RefundTotal(l.refunds, p) == l.payments[p].amount;
    }
    if RefundInTx(l, p, amount).Ok? {
      if amount >= 1 {
        assert RequestRefund(l, p, amount) == RefundInTx(l, p, amount);
        OrderlyKeepsSafe(l, Request(p, amount));
      }
      forall q: nat {
        TotalSnoc(l.refunds, Refund(p, amount, Awaiting, None), q);
      }
    }
    hide RefundTotal, Apart;
  }

  lemma RowsHavePayments(l: Ledger, id: nat)
    requires Safe(l) && id < |l.refunds|
    ensures l.refunds[id].paymentId < |l.payments|
  {}

  /** One attempt alone is orderly steps of the protocol, and as safe. */
  lemma AttemptIsSafe(l: Ledger, id: nat, env: Env, w: Weather)
    requires Safe(l) && l.inFlight == map[]
    ensures Safe(AttemptRow(l, id, env, w))
  {
    hide Safe, Begin, LookUp, Finish;
    var begun := Begin(l, 0, id, env);
    OrderlyKeepsSafe(l, Start(0, id, env));
    OrderlyKeepsSafe(begun, Look(0, w.lookupFails));
    OrderlyKeepsSafe(LookUp(begun, 0, w.lookupFails), End(0, w.fate));
  }

  class Service {
    var payments: seq<Payment>
    var refunds: seq<Refund>
    /** The gateways' own state, touched only by calls that arrive. */
    var sent: seq<Sent>

    /** Between calls of this service no attempt is in flight. */
    ghost function State(): Ledger
      reads this
    {
      Ledger(payments, refunds, sent, map[])
    }

    /** At most one gateway refund a row, and never more refunded on a payment than it is. */
    ghost predicate Valid()
      reads this
    {
      Safe(State())
    }

    constructor (payments: seq<Payment>)
      requires Initial(Ledger(payments, [], [], map[]))
      ensures Valid() && State() == Ledger(payments, [], [], map[])
    {
      this.payments := payments;
      refunds, sent := [], [];
      new;
      InitialIsSafe(State());
    }

    /** An amount of at least one goes through exactly when the payment is paid and has that much left to refund. */
    method RefundInTxCall(p: nat, amount: int) returns (r: Result<nat>)
      requires Valid()
      modifies this
      ensures amount >= 1 ==> Valid()
      ensures sent == old(sent) && |payments| == |old(payments)|
      ensures amount >= 1 ==>
        (r.Ok? <==> p < |payments| && IsPaid(old(payments)[p].status) && RefundTotal(old(refunds), p) + amount <= old(payments)[p].amount)
      ensures r.Ok? ==>
        && p < |payments| && r.value == |old(refunds)| && |refunds| == |old(refunds)| + 1
        && refunds[r.value] == Refund(p, amount, Awaiting, None)
        && RefundTotal(refunds, p) == RefundTotal(old(refunds), p) + amount <= payments[p].amount
        && (payments[p].status == Refunded <==> RefundTotal(refunds, p) == payments[p].amount)
      ensures r.Err? ==>
        State() == old(State())
        && (if p >= |payments| then r.error == PaymentNotFound
            else if payments[p].status != Success && payments[p].status != PartiallyRefunded then r.error == NotRefundable
            else r.error == ExceedsPayment && RefundTotal(refunds, p) + amount > payments[p].amount)
      ensures forall q: nat :: q != p || r.Err? ==> RefundTotal(refunds, q) == RefundTotal(old(refunds), q)
      ensures var step := RefundInTx(old(State()), p, amount);
        if step.Ok? then State() == step.value && r == Ok(|old(refunds)|) else State() == old(State()) && r == Err(step.error)
    {
      MoveMeans(State(), p, amount);
      hide Safe, RefundTotal;
      if p >= |payments| { return Err(PaymentNotFound); }
      var pay := payments[p];
      if pay.status != Success && pay.status != PartiallyRefunded { return Err(NotRefundable); }
      var already := RefundTotal(refunds, p);
      if amount + already > pay.amount { return Err(ExceedsPayment); }
      r := Ok(|refunds|);
      refunds := refunds + [Refund(p, amount, Awaiting, None)];
      var total := already + amount;
      payments := payments[p := pay.(status := if total >= pay.amount then Refunded else PartiallyRefunded)];
    }

    /** The gateway leg: manual without a route; else look up, reuse or call, and mark the row only on an answer. */
    method AttemptGatewayRefund(id: nat, env: Env, w: Weather)
      requires Valid() && id < |refunds|
      modifies this
      ensures Valid()
      ensures payments == old(payments) && |refunds| == |old(refunds)|
      ensures old(refunds)[id].paymentId < |payments| && Attempted(old(State()), State(), id, env, w)
      ensures State() == AttemptRow(old(State()), id, env, w)
    {
      ghost var l := State();
      AttemptFrame(l, id, env, w);
      AttemptIsSafe(l, id, env, w);
      RowsHavePayments(l, id);
      AttemptMeans(l, id, env, w);
      hide Safe, Attempted;
      var refund, pay := refunds[id], payments[refunds[id].paymentId];
      if !Routed(pay, env) {
        refunds := refunds[id := refund.(status := ByHand)];
        return;
      }
      var existing := FindByReceipt(sent, pay.gateway, TargetOf(pay).value, id);
      if pay.gateway == Razorpay {
        if w.lookupFails { return; }
        if existing.Some? {
          if w.fate == Answered {
            refunds := refunds[id := refund.(status := Processed, gatewayRef := existing)];
          }
          return;
        }
      }
      if w.fate == NotSent { return; }
      var g := |sent|;
      if pay.gateway == Cashfree && existing.Some? {
        g := existing.value;
      } else {
        sent := sent + [Sent(pay.gateway, TargetOf(pay).value, id, refund.amount)];
      }
      if w.fate == Answered {
        refunds := refunds[id := refund.(status := Processed, gatewayRef := Some(g))];
      }
    }

    /** The refund endpoint: amounts of at least one, the ledger move, then a first attempt. */
    method RefundPayment(p: nat, amount: int, env: Env, w: Weather) returns (r: Result<nat>)
      requires Valid()
      modifies this
      ensures Valid()
      ensures r == Err(InvalidAmount) <==> amount < 1
      ensures var step := RequestRefund(old(State()), p, amount);
        if step.Ok? then r == Ok(|old(refunds)|) && State() == AttemptRow(step.value, |old(refunds)|, env, w)
        else r == Err(step.error) && State() == old(State())
    {
      if amount < 1 { return Err(InvalidAmount); }
      r := RefundInTxCall(p, amount);
      if r.Ok? {
        AttemptGatewayRefund(r.value, env, w);
      }
    }

    /** The worker: the oldest rows still awaiting, as read at the start, one after another. */
    method RetryPendingRefunds(limit: nat, env: Env, weather: nat -> Weather) returns (retried: nat, processed: nat)
      requires Valid()
      modifies this
      ensures Valid()
      ensures State() == AttemptRows(old(State()), AwaitingIds(old(refunds), 0, limit), env, weather)
      ensures retried == |AwaitingIds(old(refunds), 0, limit)|
      ensures var ids := AwaitingIds(old(refunds), 0, limit);
        processed == |set k | 0 <= k < |ids| && ids[k] < |refunds| && refunds[ids[k]].status == Processed|
    {
      hide AttemptRow, AttemptRows, CountProcessed, AwaitingIds, Safe;
      var pending := AwaitingIds(refunds, 0, limit);
      processed := 0;
      SweepStart(State(), pending, env, weather);
      for k := 0 to |pending|
        invariant Valid() && |refunds| == |old(refunds)| && payments == old(payments)
        invariant forall i :: k <= i < |pending| ==> pending[i] < |refunds| && refunds[pending[i]].status == Awaiting
        invariant State() == AttemptRows(old(State()), pending[..k], env, weather)
        invariant processed == CountProcessed(refunds, pending[..k])
      {
        ghost var before := refunds;
        AttemptFrame(State(), pending[k], env, weather(k));
        AttemptGatewayRefund(pending[k], env, weather(k));
        SweepStep(old(State()), pending, k, env, weather, refunds);
        CountFrame(before, refunds, pending[..k]);
        if refunds[pending[k]].status == Processed { processed := processed + 1; }
      }
      assert pending[..|pending|] == pending;
      CountIsProcessed(refunds, pending);
      retried := |pending|;
    }

    /** The admin's retry of one row: a processed one is left alone. That a row's payment exists is a foreign key. */
    method RetryRefund(id: nat, env: Env, w: Weather) returns (error: Option<Error>)
      requires Valid()
      modifies this
      ensures Valid()
      ensures error == if id >= |old(refunds)| then Some(RefundNotFound) else None
      ensures id >= |old(refunds)| || old(refunds)[id].status == Processed ==> State() == old(State())
      ensures id < |old(refunds)| && old(refunds)[id].status != Processed ==> State() == AttemptRow(old(State()), id, env, w)
    {
      if id >= |refunds| { return Some(RefundNotFound); }
      if refunds[id].status == Processed { return None; }
      RowsHavePayments(State(), id);
      AttemptGatewayRefund(id, env, w);
      return None;
    }
  }
}
