/**
 * Refunds over every run: what always holds, exactly when no row is refunded twice at a gateway, and
 * exactly when a payment's status tells how much of it is refunded.
 */
module RefundRuns {
  import opened Common
  import opened Refunds

  // ---------- The ledger ----------

  /** A payment's status tells exactly how much of it is refunded. */
  predicate Tells(status: PaymentStatus, amount: int, total: int) {
    && (status == Success <==> total == 0)
    && (status == Refunded <==> total == amount)
    && (status == PartiallyRefunded <==> total != 0 && total != amount)
  }

  predicate IsPaid(status: PaymentStatus) {
    status == Success || status == PartiallyRefunded || status == Refunded
  }

  /** A paid payment's refunds lie between nothing and all of it; an unpaid one has none. */
  ghost predicate LedgerOk(payments: seq<Payment>, refunds: seq<Refund>) {
    && (forall i :: 0 <= i < |refunds| ==> refunds[i].paymentId < |payments| && refunds[i].amount >= 1)
    && (forall p :: 0 <= p < |payments| ==>
          if IsPaid(payments[p].status) then payments[p].amount > 0 && 0 <= RefundTotal(refunds, p) <= payments[p].amount
          else RefundTotal(refunds, p) == 0)
  }

  predicate StatusTells(l: Ledger, p: nat) {
    p < |l.payments| && IsPaid(l.payments[p].status) ==>
      Tells(l.payments[p].status, l.payments[p].amount, RefundTotal(l.refunds, p))
  }

  lemma TotalSnoc(refunds: seq<Refund>, r: Refund, p: nat)
    ensures RefundTotal(refunds + [r], p) == RefundTotal(refunds, p) + if r.paymentId == p then r.amount else 0
  {
    assert (refunds + [r])[..|refunds|] == refunds;
  }

  lemma RequestKeepsLedger(l: Ledger, p: nat, amount: int)
    requires LedgerOk(l.payments, l.refunds)
    ensures var r := RequestRefund(l, p, amount);
      r.Ok? ==> LedgerOk(r.value.payments, r.value.refunds)
  {
    var r := RequestRefund(l, p, amount);
    if r.Ok? {
      forall q: nat | q < |l.payments|
        ensures RefundTotal(r.value.refunds, q) == RefundTotal(l.refunds, q) + if q == p then amount else 0
      {
        TotalSnoc(l.refunds, Refund(p, amount, Awaiting, None), q);
      }
      hide RefundTotal;
    }
  }

  /**
   * What the endpoint's minimum is for: on a refundable payment whose status is right, an accepted
   * move of any whole amount leaves the status right exactly when the refunded sum is not zero.
   */
  lemma StatusNeedsPositiveTotal(l: Ledger, p: nat, amount: int)
    requires p < |l.payments| && l.payments[p].amount > 0
    requires RefundInTx(l, p, amount).Ok?
    ensures var after := RefundInTx(l, p, amount).value;
      Tells(after.payments[p].status, after.payments[p].amount, RefundTotal(after.refunds, p)) <==>
        RefundTotal(l.refunds, p) + amount != 0
  {
    TotalSnoc(l.refunds, Refund(p, amount, Awaiting, None), p);
  }

  /** Changing only statuses and references of rows changes no total. */
  lemma {:induction false} TotalIgnoresStatus(a: seq<Refund>, b: seq<Refund>, p: nat)
    requires |a| == |b| && forall i :: 0 <= i < |a| ==> a[i].paymentId == b[i].paymentId && a[i].amount == b[i].amount
    ensures RefundTotal(a, p) == RefundTotal(b, p)
    decreases |a|
  {
    if a != [] {
      TotalIgnoresStatus(a[..|a| - 1], b[..|b| - 1], p);
    }
  }

  // ---------- What a step may do ----------

  /** Rows keep their payment and amount, payments their gateway and amount, and the gateways forget nothing. */
  ghost predicate Grows(l: Ledger, after: Ledger) {
    && |after.payments| == |l.payments| && |l.refunds| <= |after.refunds| && l.sent <= after.sent
    && (forall p :: 0 <= p < |l.payments| ==>
          after.payments[p].gateway == l.payments[p].gateway && after.payments[p].amount == l.payments[p].amount)
    && (forall i :: 0 <= i < |l.refunds| ==>
          after.refunds[i].paymentId == l.refunds[i].paymentId && after.refunds[i].amount == l.refunds[i].amount)
  }

  lemma ApplyGrows(l: Ledger, op: Op)
    ensures Grows(l, Apply(l, op))
  {
    hide FindByReceipt, RefundTotal, TargetOf;
  }

  /**
   * Where a refund of a payment goes: at Razorpay to the payment id, at Cashfree to the order id, or the
   * payment's reference when there is none; and only while the gateway is configured.
   */
  predicate SendsTo(pay: Payment, env: Env, target: string) {
    target != ""
    && ((pay.gateway == Razorpay && env.razorpay && pay.gatewayRef == Some(target))
        || (pay.gateway == Cashfree && env.cashfree
            && (pay.orderRef == Some(target)
                || ((pay.orderRef == None || pay.orderRef == Some("")) && pay.gatewayRef == Some(target)))))
  }

  lemma RoutedMeans(pay: Payment, env: Env)
    ensures Routed(pay, env) ==> SendsTo(pay, env, TargetOf(pay).value)
    ensures !Routed(pay, env) ==> forall target :: !SendsTo(pay, env, target)
  {}

  /**
   * What a step does to the rows. A request adds one, awaiting; an attempt that nothing can be sent for
   * makes its row manual; an answered call marks its row; and a lookup, a settlement or a call that was
   * lost or never sent leaves every row as it was, so the worker finds an awaiting one again.
   */
  lemma RowsAfterStep(l: Ledger, op: Op)
    ensures var after := Apply(l, op);
      match op
      case Request(p, amount) => after.refunds == l.refunds || after.refunds == l.refunds + [Refund(p, amount, Awaiting, None)]
      case Start(a, id, env) =>
        if a !in l.inFlight && id < |l.refunds| && l.refunds[id].paymentId < |l.payments|
           && (forall target :: !SendsTo(l.payments[l.refunds[id].paymentId], env, target)) then
          after.refunds == l.refunds[id := l.refunds[id].(status := ByHand)]
        else after.refunds == l.refunds
      case End(a, fate) =>
        if fate != Answered || a !in l.inFlight || !l.inFlight[a].Calling? || l.inFlight[a].row >= |l.refunds| then
          after.refunds == l.refunds
        else
          var row := l.inFlight[a].row;
          && |after.refunds| == |l.refunds| && after.refunds[row].gatewayRef.Some?
          && after.refunds == l.refunds[row := l.refunds[row].(status := Processed, gatewayRef := after.refunds[row].gatewayRef)]
      case _ => after.refunds == l.refunds
  {
    if op.Start? && op.id < |l.refunds| && l.refunds[op.id].paymentId < |l.payments| {
      RoutedMeans(l.payments[l.refunds[op.id].paymentId], op.env);
    }
    hide FindByReceipt, RefundTotal, TargetOf, SendsTo;
  }

  /** A settlement writes the row over: paid, under the new reference if there is one, with the new order id. */
  lemma SettlementRewrites(l: Ledger, p: nat, ref: Option<string>, orderRef: Option<string>)
    requires p < |l.payments| && l.payments[p].amount > 0
    ensures var pay, after := l.payments[p], Apply(l, Settle(p, ref, orderRef));
      && (ref.Some? ==> after == l.(payments := l.payments[p := Payment(pay.amount, Success, pay.gateway, ref, orderRef)]))
      && (ref.None? ==> after == l.(payments := l.payments[p := Payment(pay.amount, Success, pay.gateway, pay.gatewayRef, orderRef)]))
  {}

  /** Steps of an attempt add no row and touch no payment. */
  lemma AttemptKeepsLedger(l: Ledger, op: Op)
    requires op.Start? || op.Look? || op.End?
    ensures var after := Apply(l, op);
      after.payments == l.payments && |after.refunds| == |l.refunds| && forall p: nat :: RefundTotal(after.refunds, p) == RefundTotal(l.refunds, p)
  {
    var after := Apply(l, op);
    assert after.payments == l.payments && |after.refunds| == |l.refunds| by {
      hide FindByReceipt, RefundTotal, TargetOf;
    }
    ApplyGrows(l, op);
    hide Apply;
    forall p: nat ensures RefundTotal(after.refunds, p) == RefundTotal(l.refunds, p) {
      TotalIgnoresStatus(after.refunds, l.refunds, p);
    }
  }

  lemma ApplyKeepsLedger(l: Ledger, op: Op)
    requires LedgerOk(l.payments, l.refunds)
    ensures LedgerOk(Apply(l, op).payments, Apply(l, op).refunds)
  {
    if op.Request? {
      RequestKeepsLedger(l, op.paymentId, op.amount);
    } else if !op.Settle? {
      AttemptKeepsLedger(l, op);
      ApplyGrows(l, op);
      hide Apply, RefundTotal;
    } else {
      hide RefundTotal;
    }
  }

  // ---------- What every run keeps ----------

  /** Everything a gateway did was for a row: its payment's gateway, its amount. */
  predicate Made(l: Ledger, s: Sent) {
    && s.receipt < |l.refunds| && l.refunds[s.receipt].paymentId < |l.payments|
    && s.gateway == l.payments[l.refunds[s.receipt].paymentId].gateway && s.amount == l.refunds[s.receipt].amount
  }

  predicate HoldsFor(sent: seq<Sent>, g: nat, id: nat) {
    g < |sent| && sent[g].receipt == id
  }

  /** A processed row names a gateway refund made for it. */
  predicate RowOk(r: Refund, id: nat, sent: seq<Sent>) {
    r.status == Processed ==> r.gatewayRef.Some? && HoldsFor(sent, r.gatewayRef.value, id)
  }

  /** An attempt knows its row's gateway, and what it found was made for its row. */
  predicate FlightOk(l: Ledger, f: Flight) {
    && f.row < |l.refunds| && l.refunds[f.row].paymentId < |l.payments|
    && f.gateway == l.payments[l.refunds[f.row].paymentId].gateway && (f.Reading? ==> f.gateway == Razorpay)
    && (f.Calling? && f.found.Some? ==> HoldsFor(l.sent, f.found.value, f.row))
  }

  ghost predicate Sound(l: Ledger) {
    && LedgerOk(l.payments, l.refunds)
    && (forall g :: 0 <= g < |l.sent| ==> Made(l, l.sent[g]))
    && (forall id :: 0 <= id < |l.refunds| ==> RowOk(l.refunds[id], id, l.sent))
    && (forall a :: a in l.inFlight ==> FlightOk(l, l.inFlight[a]))
  }

  lemma MadeStays(l: Ledger, after: Ledger, s: Sent)
    requires Grows(l, after) && Made(l, s)
    ensures Made(after, s)
  {}

  lemma FlightStays(l: Ledger, after: Ledger, f: Flight)
    requires Grows(l, after) && FlightOk(l, f)
    ensures FlightOk(after, f)
  {}

  /** What a step makes at the gateways: nothing, or the refund an ending attempt calls for. */
  lemma SentByStep(l: Ledger, op: Op)
    ensures var after := Apply(l, op);
      after.sent == if Makes(l, op) then l.sent + [NewSent(l, op)] else l.sent
  {
    hide FindByReceipt, RefundTotal, TargetOf;
  }

  predicate Makes(l: Ledger, op: Op) {
    op.End? && op.fate != NotSent && op.attempt in l.inFlight && l.inFlight[op.attempt].Calling?
    && l.inFlight[op.attempt].row < |l.refunds| && MakesNew(l, l.inFlight[op.attempt])
  }

  function NewSent(l: Ledger, op: Op): Sent
    requires Makes(l, op)
  {
    var f := l.inFlight[op.attempt];
    Sent(f.gateway, f.target, f.row, l.refunds[f.row].amount)
  }

  lemma SentStaysMade(l: Ledger, op: Op, g: nat)
    requires Sound(l) && g < |Apply(l, op).sent|
    ensures Made(Apply(l, op), Apply(l, op).sent[g])
  {
    ApplyGrows(l, op);
    SentByStep(l, op);
    var after := Apply(l, op);
    hide Apply, Grows, LedgerOk, MakesNew;
    if g < |l.sent| {
      MadeStays(l, after, l.sent[g]);
    } else {
      assert FlightOk(l, l.inFlight[op.attempt]);
      MadeStays(l, after, NewSent(l, op));
    }
  }

  lemma RowStaysOk(l: Ledger, op: Op, id: nat)
    requires Sound(l) && id < |Apply(l, op).refunds|
    ensures RowOk(Apply(l, op).refunds[id], id, Apply(l, op).sent)
  {
    if id < |l.refunds| {
      assert RowOk(l.refunds[id], id, l.sent);
    }
    if op.End? && op.attempt in l.inFlight {
      assert FlightOk(l, l.inFlight[op.attempt]);
    }
    hide LedgerOk, RefundTotal, TargetOf;
  }

  /** An attempt after a step is as before, has looked, or has just begun on a row it read. */
  lemma FlightAfter(l: Ledger, op: Op, a: nat)
    requires a in Apply(l, op).inFlight
    ensures var after, f := Apply(l, op), Apply(l, op).inFlight[a];
      || (a in l.inFlight && f == l.inFlight[a])
      || (a in l.inFlight && l.inFlight[a].Reading? && after.sent == l.sent && f.Calling?
          && f.row == l.inFlight[a].row && f.gateway == l.inFlight[a].gateway
          && f.found == FindByReceipt(l.sent, f.gateway, f.target, f.row))
      || (f.row < |l.refunds| && l.refunds[f.row].paymentId < |l.payments| && after.payments == l.payments && after.refunds == l.refunds
          && f.gateway == l.payments[l.refunds[f.row].paymentId].gateway
          && (f.Reading? ==> f.gateway == Razorpay) && (f.Calling? ==> f.found.None?))
  {
    hide FindByReceipt, RefundTotal, TargetOf, Create;
  }

  lemma FlightStaysOk(l: Ledger, op: Op, a: nat)
    requires Sound(l) && a in Apply(l, op).inFlight
    ensures FlightOk(Apply(l, op), Apply(l, op).inFlight[a])
  {
    var after := Apply(l, op);
    ApplyGrows(l, op);
    FlightAfter(l, op, a);
    if a in l.inFlight {
      assert FlightOk(l, l.inFlight[a]);
      FlightStays(l, after, l.inFlight[a]);
    }
    hide Apply, LedgerOk, RefundTotal, TargetOf;
  }

  lemma ApplyKeepsSound(l: Ledger, op: Op)
    requires Sound(l)
    ensures Sound(Apply(l, op))
  {
    var after := Apply(l, op);
    hide Apply, LedgerOk, Made, RowOk, FlightOk;
    ApplyKeepsLedger(l, op);
    forall g | 0 <= g < |after.sent| ensures Made(after, after.sent[g]) {
      SentStaysMade(l, op, g);
    }
    forall id | 0 <= id < |after.refunds| ensures RowOk(after.refunds[id], id, after.sent) {
      RowStaysOk(l, op, id);
    }
    forall a | a in after.inFlight ensures FlightOk(after, after.inFlight[a]) {
      FlightStaysOk(l, op, a);
    }
  }

  lemma {:induction false} RunKeepsSound(l: Ledger, ops: seq<Op>)
    requires Sound(l)
    ensures Sound(Run(l, ops))
    decreases |ops|
  {
    hide Sound, Apply;
    if ops != [] {
      ApplyKeepsSound(l, ops[0]);
      RunKeepsSound(Apply(l, ops[0]), ops[1..]);
    }
  }

  // ---------- When a row is refunded twice ----------

  ghost predicate AtMostOnePerRow(sent: seq<Sent>) {
    forall g, h :: 0 <= g < h < |sent| ==> sent[g].receipt != sent[h].receipt
  }

  predicate HasRefund(sent: seq<Sent>, id: nat) {
    exists g :: 0 <= g < |sent| && sent[g].receipt == id
  }

  /** A call makes a refund for a row some gateway refund was made for already. */
  predicate Repeats(l: Ledger, op: Op) {
    Makes(l, op) && HasRefund(l.sent, l.inFlight[op.attempt].row)
  }

  predicate RefundsTwice(l: Ledger, ops: seq<Op>)
    decreases |ops|
  {
    ops != [] && (Repeats(l, ops[0]) || RefundsTwice(Apply(l, ops[0]), ops[1..]))
  }

  lemma OneStepUnique(l: Ledger, op: Op)
    ensures AtMostOnePerRow(Apply(l, op).sent) <==> AtMostOnePerRow(l.sent) && !Repeats(l, op)
  {
    SentByStep(l, op);
    hide Apply, MakesNew;
    var after := Apply(l, op).sent;
    assert forall g :: 0 <= g < |l.sent| ==> after[g] == l.sent[g];
    if Repeats(l, op) {
      var g :| 0 <= g < |l.sent| && l.sent[g].receipt == l.inFlight[op.attempt].row;
      assert after[g].receipt == after[|l.sent|].receipt;
    }
  }

  /**
   * Over every run, whatever interleaves: no row is refunded twice at a gateway if and only if no call
   * makes a refund for a row that had one. Once that has happened nothing undoes it.
   */
  lemma {:induction false} ReceiptsStayUnique(l: Ledger, ops: seq<Op>)
    ensures AtMostOnePerRow(Run(l, ops).sent) <==> AtMostOnePerRow(l.sent) && !RefundsTwice(l, ops)
    decreases |ops|
  {
    hide Apply, AtMostOnePerRow, Repeats;
    if ops != [] {
      OneStepUnique(l, ops[0]);
      ReceiptsStayUnique(Apply(l, ops[0]), ops[1..]);
    }
  }

  // ---------- When a status is wrong ----------

  /** Whether the step settles payment `p`, and whether it is an accepted refund of it. */
  predicate SettlesIt(l: Ledger, op: Op, p: nat) {
    op.Settle? && op.settled == p && p < |l.payments| && l.payments[p].amount > 0
  }

  predicate RefundsIt(l: Ledger, op: Op, p: nat) {
    op.Request? && op.paymentId == p && RequestRefund(l, p, op.amount).Ok?
  }

  /** Whether the status hides refunds after a run: the last step to write it was a settlement, and refunds were
      there. */
  predicate Hidden(l: Ledger, ops: seq<Op>, p: nat, before: bool)
    decreases |ops|
  {
    if ops == [] then before
    else
      Hidden(Apply(l, ops[0]), ops[1..], p,
        if SettlesIt(l, ops[0], p) then RefundTotal(l.refunds, p) != 0 else before && !RefundsIt(l, ops[0], p))
  }

  lemma StatusAfterStep(l: Ledger, op: Op, p: nat)
    requires LedgerOk(l.payments, l.refunds) && p < |l.payments|
    ensures var after := Apply(l, op);
      && p < |after.payments|
      && (StatusTells(after, p) <==>
           if SettlesIt(l, op, p) then RefundTotal(l.refunds, p) == 0 else StatusTells(l, p) || RefundsIt(l, op, p))
  {
    hide RefundTotal;
    if op.Request? {
      StatusAfterRequest(l, op.paymentId, op.amount, p);
    } else if !op.Settle? {
      AttemptKeepsLedger(l, op);
      hide Apply;
    }
  }

  lemma StatusAfterRequest(l: Ledger, q: nat, amount: int, p: nat)
    requires LedgerOk(l.payments, l.refunds) && p < |l.payments|
    ensures var after := Apply(l, Request(q, amount));
      |after.payments| == |l.payments| && (StatusTells(after, p) <==> StatusTells(l, p) || RefundsIt(l, Request(q, amount), p))
  {
    TotalSnoc(l.refunds, Refund(q, amount, Awaiting, None), p);
    hide RefundTotal;
  }

  /**
   * Over every run a payment's status tells its refunded sum if and only if it was not left by a
   * settlement that met refunds: one accepted refund later would put it right again.
   */
  lemma {:induction false} StatusTellsUnlessHidden(l: Ledger, ops: seq<Op>, p: nat)
    requires LedgerOk(l.payments, l.refunds) && p < |l.payments|
    ensures StatusTells(Run(l, ops), p) <==> !Hidden(l, ops, p, !StatusTells(l, p))
    decreases |ops|
  {
    hide Apply, LedgerOk, StatusTells, SettlesIt, RefundsIt;
    if ops != [] {
      StatusAfterStep(l, ops[0], p);
      ApplyKeepsLedger(l, ops[0]);
      StatusTellsUnlessHidden(Apply(l, ops[0]), ops[1..], p);
    }
  }

  // ---------- Counting the money at the gateways ----------

  /** What the gateways refunded for one row. */
  function SentForRow(sent: seq<Sent>, id: nat): int {
    if sent == [] then 0
    else
      var last := sent[|sent| - 1];
      SentForRow(sent[..|sent| - 1], id) + (if last.receipt == id then last.amount else 0)
  }

  function CountForRow(sent: seq<Sent>, id: nat): nat {
    if sent == [] then 0
    else CountForRow(sent[..|sent| - 1], id) + (if sent[|sent| - 1].receipt == id then 1 else 0)
  }

  /** What the gateways refunded on one payment, over all they hold. */
  function SentOnPayment(sent: seq<Sent>, refunds: seq<Refund>, p: nat): int {
    if sent == [] then 0
    else
      var last := sent[|sent| - 1];
      SentOnPayment(sent[..|sent| - 1], refunds, p)
      + (if last.receipt < |refunds| && refunds[last.receipt].paymentId == p then last.amount else 0)
  }

  lemma {:induction false} CountIfAbsent(sent: seq<Sent>, id: nat)
    requires forall g :: 0 <= g < |sent| ==> sent[g].receipt != id
    ensures CountForRow(sent, id) == 0 && SentForRow(sent, id) == 0
  {
    if sent != [] {
      CountIfAbsent(sent[..|sent| - 1], id);
    }
  }

  /** With distinct receipts a row's gateway total is the amount of its one refund, or nothing. */
  lemma {:induction false} RowSentOnce(sent: seq<Sent>, id: nat, amount: int)
    requires AtMostOnePerRow(sent)
    requires forall g :: 0 <= g < |sent| && sent[g].receipt == id ==> sent[g].amount == amount
    ensures CountForRow(sent, id) <= 1 && SentForRow(sent, id) == CountForRow(sent, id) * amount
    ensures CountForRow(sent, id) == 1 <==> exists g :: HoldsFor(sent, g, id)
  {
    if sent != [] {
      var init, last := sent[..|sent| - 1], sent[|sent| - 1];
      if last.receipt == id {
        CountIfAbsent(init, id);
        assert HoldsFor(sent, |sent| - 1, id);
      } else {
        RowSentOnce(init, id, amount);
        assert forall g: nat :: HoldsFor(sent, g, id) <==> HoldsFor(init, g, id);
      }
    }
  }

  /** The gateways' total over the first `n` rows of a payment. */
  function SentOverRows(sent: seq<Sent>, refunds: seq<Refund>, p: nat, n: nat): int
    requires n <= |refunds|
  {
    if n == 0 then 0
    else SentOverRows(sent, refunds, p, n - 1) + (if refunds[n - 1].paymentId == p then SentForRow(sent, n - 1) else 0)
  }

  lemma {:induction false} SentOverRowsSnoc(init: seq<Sent>, s: Sent, refunds: seq<Refund>, p: nat, n: nat)
    requires n <= |refunds|
    ensures SentOverRows(init + [s], refunds, p, n) == SentOverRows(init, refunds, p, n)
          + (if s.receipt < n && refunds[s.receipt].paymentId == p then s.amount else 0)
  {
    if n > 0 {
      SentOverRowsSnoc(init, s, refunds, p, n - 1);
      assert (init + [s])[..|init|] == init;
    }
  }

  lemma {:induction false} SentOverRowsEmpty(refunds: seq<Refund>, p: nat, n: nat)
    requires n <= |refunds|
    ensures SentOverRows([], refunds, p, n) == 0
  {
    if n > 0 {
      SentOverRowsEmpty(refunds, p, n - 1);
    }
  }

  /** Adding up refund by refund or row by row gives the same. */
  lemma {:induction false} SentTwoWays(sent: seq<Sent>, refunds: seq<Refund>, p: nat)
    ensures SentOnPayment(sent, refunds, p) == SentOverRows(sent, refunds, p, |refunds|)
  {
    if sent == [] {
      SentOverRowsEmpty(refunds, p, |refunds|);
    } else {
      var init, last := sent[..|sent| - 1], sent[|sent| - 1];
      SentTwoWays(init, refunds, p);
      SentOverRowsSnoc(init, last, refunds, p, |refunds|);
      assert sent == init + [last];
    }
  }

  lemma {:induction false} RowsCoverSent(l: Ledger, p: nat, n: nat)
    requires Sound(l) && AtMostOnePerRow(l.sent) && n <= |l.refunds|
    ensures SentOverRows(l.sent, l.refunds, p, n) <= RefundTotal(l.refunds[..n], p)
  {
    if n > 0 {
      RowsCoverSent(l, p, n - 1);
      assert l.refunds[..n][..n - 1] == l.refunds[..n - 1];
      forall g | 0 <= g < |l.sent| && l.sent[g].receipt == n - 1 ensures l.sent[g].amount == l.refunds[n - 1].amount {
        assert Made(l, l.sent[g]);
      }
      RowSentOnce(l.sent, n - 1, l.refunds[n - 1].amount);
    }
  }

  /** A row counted at most once has at most one refund, and the other way round. */
  lemma {:induction false} CountAtLeast(sent: seq<Sent>, g: nat)
    requires g < |sent|
    ensures CountForRow(sent, sent[g].receipt) >= 1
    ensures forall h :: g < h < |sent| && sent[h].receipt == sent[g].receipt ==> CountForRow(sent, sent[g].receipt) >= 2
  {
    var init := sent[..|sent| - 1];
    if g < |init| {
      CountAtLeast(init, g);
      assert init[g] == sent[g] && forall h :: 0 <= h < |init| ==> init[h] == sent[h];
    }
  }

  // ---------- Every run ----------

  lemma InitialIsSound(l: Ledger)
    requires Initial(l)
    ensures Sound(l) && AtMostOnePerRow(l.sent) && forall p: nat :: StatusTells(l, p)
  {}

  /** What holds of the rows and payments at a moment when no row was refunded twice. */
  lemma UniqueMeans(l: Ledger)
    requires Sound(l)
    ensures (forall id: nat | id < |l.refunds| :: CountForRow(l.sent, id) <= 1) <==> AtMostOnePerRow(l.sent)
    ensures AtMostOnePerRow(l.sent) ==>
      && (forall id: nat | id < |l.refunds| && l.refunds[id].status == Processed ::
            CountForRow(l.sent, id) == 1 && SentForRow(l.sent, id) == l.refunds[id].amount)
      && (forall p: nat | p < |l.payments| :: SentOnPayment(l.sent, l.refunds, p) <= RefundTotal(l.refunds, p))
  {
    if AtMostOnePerRow(l.sent) {
      forall id: nat | id < |l.refunds|
        ensures CountForRow(l.sent, id) <= 1
        ensures l.refunds[id].status == Processed ==>
          CountForRow(l.sent, id) == 1 && SentForRow(l.sent, id) == l.refunds[id].amount
      {
        ProcessedRow(l, id);
      }
      forall p: nat | p < |l.payments| ensures SentOnPayment(l.sent, l.refunds, p) <= RefundTotal(l.refunds, p) {
        SentTwoWays(l.sent, l.refunds, p);
        RowsCoverSent(l, p, |l.refunds|);
        assert l.refunds[..|l.refunds|] == l.refunds;
      }
    } else {
      var g, h :| 0 <= g < h < |l.sent| && l.sent[g].receipt == l.sent[h].receipt;
      CountAtLeast(l.sent, g);
      assert Made(l, l.sent[g]);
    }
  }

  lemma ProcessedRow(l: Ledger, id: nat)
    requires Sound(l) && AtMostOnePerRow(l.sent) && id < |l.refunds|
    ensures CountForRow(l.sent, id) <= 1
    ensures l.refunds[id].status == Processed ==> CountForRow(l.sent, id) == 1 && SentForRow(l.sent, id) == l.refunds[id].amount
  {
    forall g | 0 <= g < |l.sent| && l.sent[g].receipt == id ensures l.sent[g].amount == l.refunds[id].amount {
      assert Made(l, l.sent[g]);
    }
    RowSentOnce(l.sent, id, l.refunds[id].amount);
    assert RowOk(l.refunds[id], id, l.sent);
  }

  /**
   * From payments not yet refunded, over any interleaving of requests, settlements, first attempts and
   * retries, any number of them on one row, whatever the calls' fates. Always: the ledger never refunds
   * more than the payment, and a processed row names a gateway refund for it of its amount. Exactly when
   * no call repeats a refund: at most one gateway refund a row, and then one for each processed row and
   * no more refunded at the gateways than the ledger says. Exactly when no settlement hid refunds: a
   * payment's status tells its refunded sum.
   */
  lemma RefundsAreSafe(l: Ledger, ops: seq<Op>)
    requires Initial(l)
    ensures var after := Run(l, ops);
      && (forall p: nat | p < |after.payments| && IsPaid(after.payments[p].status) ::
            0 <= RefundTotal(after.refunds, p) <= after.payments[p].amount)
      && (forall id: nat | id < |after.refunds| && after.refunds[id].status == Processed ::
            after.refunds[id].gatewayRef.Some? && HoldsFor(after.sent, after.refunds[id].gatewayRef.value, id)
            && after.sent[after.refunds[id].gatewayRef.value].amount == after.refunds[id].amount)
      && ((forall id: nat | id < |after.refunds| :: CountForRow(after.sent, id) <= 1) <==> !RefundsTwice(l, ops))
      && (!RefundsTwice(l, ops) ==>
           && (forall id: nat | id < |after.refunds| && after.refunds[id].status == Processed ::
                 CountForRow(after.sent, id) == 1 && SentForRow(after.sent, id) == after.refunds[id].amount)
           && (forall p: nat | p < |after.payments| :: SentOnPayment(after.sent, after.refunds, p) <= RefundTotal(after.refunds, p)))
      && (forall p: nat | p < |l.payments| :: StatusTells(after, p) <==> !Hidden(l, ops, p, false))
  {
    var after := Run(l, ops);
    InitialIsSound(l);
    RunKeepsSound(l, ops);
    ReceiptsStayUnique(l, ops);
    UniqueMeans(after);
    forall p: nat | p < |l.payments| ensures StatusTells(after, p) <==> !Hidden(l, ops, p, false) {
      StatusTellsUnlessHidden(l, ops, p);
    }
    hide Run, RefundsTwice, Hidden, StatusTells, AtMostOnePerRow, CountForRow, SentForRow, SentOnPayment, RefundTotal;
    forall id: nat | id < |after.refunds| && after.refunds[id].status == Processed
      ensures after.refunds[id].gatewayRef.Some? && HoldsFor(after.sent, after.refunds[id].gatewayRef.value, id)
      ensures after.sent[after.refunds[id].gatewayRef.value].amount == after.refunds[id].amount
    {
      assert RowOk(after.refunds[id], id, after.sent);
      assert Made(after, after.sent[after.refunds[id].gatewayRef.value]);
    }
  }
}
