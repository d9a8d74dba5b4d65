/**
 * Attempts that interleave, and attempts that do not: what is enough for no row to be refunded twice,
 * and runs in which one is.
 */
module RefundAttempts {
  import opened Common
  import opened Refunds
  import opened RefundRuns

  // ---------- One attempt at a time on a row ----------

  /** The target is still the one a refund of the row would be sent to. */
  predicate CurrentTarget(l: Ledger, id: nat, target: string) {
    HasTarget(l, id) && Target(l, id) == target
  }

  /** Attempts under way are on different rows, and no row's target has changed since an attempt read it. */
  ghost predicate Apart(l: Ledger) {
    && (forall a, b :: a in l.inFlight && b in l.inFlight && a != b ==> l.inFlight[a].row != l.inFlight[b].row)
    && (forall a :: a in l.inFlight ==> CurrentTarget(l, l.inFlight[a].row, l.inFlight[a].target))
    && (forall a :: a in l.inFlight && l.inFlight[a].Calling? && l.inFlight[a].gateway == Razorpay && l.inFlight[a].found.None? ==>
          !HasRefund(l.sent, l.inFlight[a].row))
    && (forall g :: 0 <= g < |l.sent| ==> CurrentTarget(l, l.sent[g].receipt, l.sent[g].target))
  }

  /** The step starts an attempt on a row while another is under way there. */
  ghost predicate Overlaps(l: Ledger, op: Op) {
    op.Start? && exists a :: a in l.inFlight && l.inFlight[a].row == op.id
  }

  /** The step settles a payment with refund rows under another target than it had. */
  ghost predicate Retargets(l: Ledger, op: Op) {
    op.Settle? && op.settled < |l.payments|
    && TargetOf(Apply(l, op).payments[op.settled]) != TargetOf(l.payments[op.settled])
    && exists i :: 0 <= i < |l.refunds| && l.refunds[i].paymentId == op.settled
  }

  ghost predicate EverCrowds(l: Ledger, ops: seq<Op>)
    decreases |ops|
  {
    ops != [] && (Overlaps(l, ops[0]) || Retargets(l, ops[0]) || EverCrowds(Apply(l, ops[0]), ops[1..]))
  }

  lemma TargetsStay(l: Ledger, op: Op, id: nat, target: string)
    requires !Retargets(l, op) && CurrentTarget(l, id, target)
    ensures CurrentTarget(Apply(l, op), id, target)
  {
    hide FindByReceipt, RefundTotal;
  }

  /** Under its current target a lookup that finds nothing means the row has no gateway refund at all. */
  lemma NothingFound(l: Ledger, id: nat, target: string)
    requires Sound(l) && Apart(l) && CurrentTarget(l, id, target)
    requires FindByReceipt(l.sent, GatewayOf(l, id), target, id).None?
    ensures !HasRefund(l.sent, id)
  {
    forall g | 0 <= g < |l.sent| ensures l.sent[g].receipt != id {
      assert CurrentTarget(l, l.sent[g].receipt, l.sent[g].target) && Made(l, l.sent[g]);
    }
  }

  lemma NeverRepeats(l: Ledger, op: Op)
    requires Sound(l) && Apart(l)
    ensures !Repeats(l, op)
  {
    if Makes(l, op) {
      var f := l.inFlight[op.attempt];
      assert FlightOk(l, f) && CurrentTarget(l, f.row, f.target);
      if f.gateway == Cashfree {
        NothingFound(l, f.row, f.target);
      } else {
        OnlyTwoGateways(l, f);
      }
    }
  }

  lemma OnlyTwoGateways(l: Ledger, f: Flight)
    requires FlightOk(l, f) && CurrentTarget(l, f.row, f.target)
    ensures f.gateway == Razorpay || f.gateway == Cashfree
  {}

  /** What a step does to the attempts: at most the one it is a step of changes, or a new one is on its own row. */
  lemma AttemptsAfter(l: Ledger, op: Op, a: nat)
    requires Sound(l) && a in Apply(l, op).inFlight
    ensures var f := Apply(l, op).inFlight[a];
      || (a in l.inFlight && f == l.inFlight[a] && !(op.End? && op.attempt == a && Makes(l, op)))
      || (op.Start? && op.attempt == a && op.id == f.row && CurrentTarget(l, f.row, f.target)
          && (f.Calling? ==> f.gateway != Razorpay))
      || (op.Look? && op.attempt == a && a in l.inFlight && l.inFlight[a].Reading?
          && f == Calling(l.inFlight[a].row, l.inFlight[a].gateway, l.inFlight[a].target,
                          FindByReceipt(l.sent, l.inFlight[a].gateway, l.inFlight[a].target, l.inFlight[a].row)))
  {
    hide LedgerOk, RefundTotal, Create, FindByReceipt, TargetOf;
  }

  lemma StaysApart(l: Ledger, op: Op)
    requires Sound(l) && Apart(l) && !Overlaps(l, op) && !Retargets(l, op)
    ensures Apart(Apply(l, op))
  {
    var after := Apply(l, op);
    forall a | a in after.inFlight
      ensures CurrentTarget(after, after.inFlight[a].row, after.inFlight[a].target)
    {
      AttemptsAfter(l, op, a);
      TargetsStay(l, op, after.inFlight[a].row, after.inFlight[a].target);
    }
    forall a, b | a in after.inFlight && b in after.inFlight && a != b
      ensures after.inFlight[a].row != after.inFlight[b].row
    {
      AttemptsAfter(l, op, a);
      AttemptsAfter(l, op, b);
    }
    SentByStep(l, op);
    forall g | 0 <= g < |after.sent| ensures CurrentTarget(after, after.sent[g].receipt, after.sent[g].target) {
      TargetsStay(l, op, after.sent[g].receipt, after.sent[g].target);
    }
    forall a | a in after.inFlight && after.inFlight[a].Calling? && after.inFlight[a].gateway == Razorpay && after.inFlight[a].found.None?
      ensures !HasRefund(after.sent, after.inFlight[a].row)
    {
      NothingNew(l, op, a);
    }
  }

  /** A Razorpay attempt that found nothing is still right after the step. */
  lemma NothingNew(l: Ledger, op: Op, a: nat)
    requires Sound(l) && Apart(l) && !Overlaps(l, op) && a in Apply(l, op).inFlight
    requires Apply(l, op).inFlight[a].Calling? && Apply(l, op).inFlight[a].gateway == Razorpay
    requires Apply(l, op).inFlight[a].found.None?
    ensures !HasRefund(Apply(l, op).sent, Apply(l, op).inFlight[a].row)
  {
    var f := Apply(l, op).inFlight[a];
    AttemptsAfter(l, op, a);
    SentByStep(l, op);
    if op.Look? && op.attempt == a && l.inFlight[a].Reading? {
      assert FlightOk(l, l.inFlight[a]);
      NothingFound(l, f.row, f.target);
    }
  }

  /**
   * If attempts on one row never overlap, and no settlement moves a payment with refund rows to another
   * target, no call ever repeats a refund.
   */
  lemma {:induction false} OneAttemptIsEnough(l: Ledger, ops: seq<Op>)
    requires Sound(l) && Apart(l) && !EverCrowds(l, ops)
    ensures !RefundsTwice(l, ops)
    decreases |ops|
  {
    hide Sound, Apart, Apply, Overlaps, Retargets, Repeats;
    if ops != [] {
      NeverRepeats(l, ops[0]);
      StaysApart(l, ops[0]);
      ApplyKeepsSound(l, ops[0]);
      OneAttemptIsEnough(Apply(l, ops[0]), ops[1..]);
    }
  }

  // ---------- Orderly steps ----------

  /** No row refunded twice, every status right, and attempts that cannot change that. */
  ghost predicate Safe(l: Ledger) {
    Sound(l) && AtMostOnePerRow(l.sent) && Apart(l) && forall p: nat :: StatusTells(l, p)
  }

  /** The step neither crowds an attempt nor settles a payment that has been refunded. */
  ghost predicate Orderly(l: Ledger, op: Op) {
    !Overlaps(l, op) && !Retargets(l, op)
    && !(op.Settle? && SettlesIt(l, op, op.settled) && RefundTotal(l.refunds, op.settled) != 0)
  }

  lemma OrderlyKeepsSafe(l: Ledger, op: Op)
    requires Safe(l) && Orderly(l, op)
    ensures Safe(Apply(l, op))
  {
    hide Sound, Apart, Overlaps, Retargets, Repeats, AtMostOnePerRow, LedgerOk;
    NeverRepeats(l, op);
    StaysApart(l, op);
    ApplyKeepsSound(l, op);
    OneStepUnique(l, op);
    ApplyGrows(l, op);
    forall p: nat ensures StatusTells(Apply(l, op), p) {
      StatusStays(l, op, p);
    }
  }

  lemma StatusStays(l: Ledger, op: Op, p: nat)
    requires Sound(l) && StatusTells(l, p)
    requires !(op.Settle? && SettlesIt(l, op, op.settled) && RefundTotal(l.refunds, op.settled) != 0)
    ensures StatusTells(Apply(l, op), p)
  {
    ApplyGrows(l, op);
    if p < |l.payments| {
      StatusAfterStep(l, op, p);
      hide Apply, StatusTells, RefundTotal;
    }
  }

  lemma InitialIsSafe(l: Ledger)
    requires Initial(l)
    ensures Safe(l)
  {
    InitialIsSound(l);
  }

  ghost predicate AllOrderly(l: Ledger, ops: seq<Op>)
    decreases |ops|
  {
    ops == [] || (Orderly(l, ops[0]) && AllOrderly(Apply(l, ops[0]), ops[1..]))
  }

  /** A run of orderly steps keeps all of it: one gateway refund a row at most, and every status right. */
  lemma {:induction false} OrderlyRunsAreSafe(l: Ledger, ops: seq<Op>)
    requires Safe(l) && AllOrderly(l, ops)
    ensures Safe(Run(l, ops))
    decreases |ops|
  {
    hide Safe, Apply, Orderly;
    if ops != [] {
      OrderlyKeepsSafe(l, ops[0]);
      OrderlyRunsAreSafe(Apply(l, ops[0]), ops[1..]);
    }
  }

  // ---------- It happens ----------

  const READY := Env(true, true)

  lemma RunOne(l: Ledger, op: Op, rest: seq<Op>)
    ensures Run(l, [op] + rest) == Run(Apply(l, op), rest) && Run(l, []) == l
  {
    hide Apply;
    assert ([op] + rest)[1..] == rest;
  }

  lemma RunFive(l: Ledger, a: Op, b: Op, c: Op, d: Op, e: Op)
    ensures Run(l, [a, b, c, d, e]) == Apply(Apply(Apply(Apply(Apply(l, a), b), c), d), e)
  {
    hide Apply, Run;
    var three := Apply(Apply(Apply(l, a), b), c);
    RunOne(l, a, [b] + ([c] + ([d] + [e])));
    RunOne(Apply(l, a), b, [c] + ([d] + [e]));
    RunOne(Apply(Apply(l, a), b), c, [d] + [e]);
    RunOne(three, d, [e]);
    RunOne(Apply(three, d), e, []);
    RunOne(Apply(Apply(three, d), e), e, []);
    assert [e] + [] == [e] && [a] + ([b] + ([c] + ([d] + [e]))) == [a, b, c, d, e];
  }

  lemma RunThreeFirst(l: Ledger, a: Op, b: Op, c: Op, rest: seq<Op>)
    ensures Run(l, [a, b, c] + rest) == Run(Apply(Apply(Apply(l, a), b), c), rest)
  {
    hide Apply, Run;
    RunOne(l, a, [b] + ([c] + rest));
    RunOne(Apply(l, a), b, [c] + rest);
    RunOne(Apply(Apply(l, a), b), c, rest);
    assert [a] + ([b] + ([c] + rest)) == [a, b, c] + rest;
  }

  /** A payment of five rupees, two of them refunded: nothing called yet. */
  function Requested(payment: Payment): Ledger {
    Ledger([payment.(status := PartiallyRefunded)], [Refund(0, 200, Awaiting, None)], [], map[])
  }

  function RazorpayPayment(status: PaymentStatus, ref: string): Payment {
    Payment(500, status, Razorpay, Some(ref), None)
  }

  lemma RequestIsTaken(payment: Payment)
    requires payment.amount == 500 && payment.status == Success
    ensures Apply(Ledger([payment], [], [], map[]), Request(0, 200)) == Requested(payment)
  {}

  /** An attempt on the row starts, looks, and will make a refund exactly when it found none under its reference. */
  lemma Looks(l: Ledger, a: nat, ref: string)
    requires a !in l.inFlight && |l.refunds| == 1 && l.refunds[0].paymentId == 0 && |l.payments| == 1 && ref != ""
    requires l.payments[0].gateway == Razorpay && l.payments[0].gatewayRef == Some(ref)
    ensures Apply(Apply(l, Start(a, 0, READY)), Look(a, false))
         == l.(inFlight := l.inFlight[a := Calling(0, Razorpay, ref, FindByReceipt(l.sent, Razorpay, ref, 0))])
  {
    hide FindByReceipt;
  }

  /** A call that makes a refund for the row. */
  lemma Calls(l: Ledger, a: nat, ref: string, fate: Fate)
    requires a in l.inFlight && l.inFlight[a] == Calling(0, Razorpay, ref, None) && fate != NotSent
    requires |l.refunds| == 1 && l.refunds[0].amount == 200
    ensures var sent := Sent(Razorpay, ref, 0, 200);
      Apply(l, End(a, fate)) == l.(sent := l.sent + [sent], inFlight := l.inFlight - {a},
        refunds := if fate == Answered then [l.refunds[0].(status := Processed, gatewayRef := Some(|l.sent|))] else l.refunds)
  {}

  /** What a lookup finds on a list of one refund for the row. */
  lemma FindsOnly(held: string, ref: string)
    ensures FindByReceipt([], Razorpay, ref, 0).None?
    ensures FindByReceipt([Sent(Razorpay, held, 0, 200)], Razorpay, ref, 0) == if held == ref then Some(0) else None
  {
    assert FindByReceipt([Sent(Razorpay, held, 0, 200)][..0], Razorpay, ref, 0).None?;
  }

  /** The ledger after a first attempt whose answer was lost. */
  function AnswerLost(payment: Payment, ref: string): Ledger {
    Requested(payment).(sent := [Sent(Razorpay, ref, 0, 200)])
  }

  lemma LostAnswer(payment: Payment, ref: string)
    requires payment.gateway == Razorpay && payment.gatewayRef == Some(ref) && ref != ""
    ensures Apply(Apply(Apply(Requested(payment), Start(1, 0, READY)), Look(1, false)), End(1, SentButLost)) ==
        AnswerLost(payment, ref)
  {
    var l := Requested(payment);
    Looks(l, 1, ref);
    FindsOnly(ref, ref);
    var looked := l.(inFlight := map[1 := Calling(0, Razorpay, ref, None)]);
    Calls(looked, 1, ref, SentButLost);
    assert looked.inFlight - {1} == map[];
    hide Apply, Requested;
  }

  /** Two attempts on the row both look, then both call. */
  lemma TwoAttemptsAfter(one: Ledger)
    requires one == Requested(RazorpayPayment(Success, "pay_1"))
    ensures var both := Apply(Apply(Apply(Apply(one, Start(1, 0, READY)), Look(1, false)), Start(2, 0, READY)), Look(2, false));
      var after, sent := Apply(Apply(both, End(1, Answered)), End(2, Answered)), Sent(Razorpay, "pay_1", 0, 200);
      after.sent == [sent, sent] && after.refunds == [Refund(0, 200, Processed, Some(1))]
  {
    var flight := Calling(0, Razorpay, "pay_1", None);
    FindsOnly("pay_1", "pay_1");
    Looks(one, 1, "pay_1");
    var two := one.(inFlight := map[1 := flight]);
    Looks(two, 2, "pay_1");
    var both := one.(inFlight := map[1 := flight, 2 := flight]);
    hide Apply, FindByReceipt;
    Calls(both, 1, "pay_1", Answered);
    var first := Apply(both, End(1, Answered));
    assert first.inFlight == map[2 := flight];
    Calls(first, 2, "pay_1", Answered);
  }

  /**
   * The worker and an administrator, or the first attempt and the worker, on one row: both look before
   * either calls, and Razorpay refunds it twice.
   */
  lemma TwoAttempts()
    ensures var l := Ledger([RazorpayPayment(Success, "pay_1")], [], [], map[]);
      var after := Run(l, [Request(0, 200), Start(1, 0, READY)] + [Look(1, false), Start(2, 0, READY), Look(2, false),
                           End(1, Answered), End(2, Answered)]);
      var sent := Sent(Razorpay, "pay_1", 0, 200);
      Initial(l) && after.sent == [sent, sent] && after.refunds == [Refund(0, 200, Processed, Some(1))]
  {
    var pay := RazorpayPayment(Success, "pay_1");
    RequestIsTaken(pay);
    var one := Requested(pay);
    TwoAttemptsAfter(one);
    hide Apply, Run, Requested;
    RunTwoFirst(Ledger([pay], [], [], map[]), Request(0, 200), Start(1, 0, READY),
      [Look(1, false), Start(2, 0, READY), Look(2, false), End(1, Answered), End(2, Answered)]);
    RunFive(Apply(one, Start(1, 0, READY)), Look(1, false), Start(2, 0, READY), Look(2, false), End(1, Answered), End(2, Answered));
  }

  lemma RunTwoFirst(l: Ledger, a: Op, b: Op, rest: seq<Op>)
    ensures Run(l, [a, b] + rest) == Run(Apply(Apply(l, a), b), rest)
  {
    hide Apply, Run;
    RunOne(l, a, [b] + rest);
    RunOne(Apply(l, a), b, rest);
    assert [a] + ([b] + rest) == [a, b] + rest;
  }

  lemma StaleCaptureAfter(lost: Ledger)
    requires lost == AnswerLost(RazorpayPayment(Success, "pay_1"), "pay_1")
    ensures var after := Apply(Apply(Apply(Apply(lost, Settle(0, Some("pay_2"), None)), Start(2, 0, READY)), Look(2, false)), End(2, Answered));
      && after.sent == [Sent(Razorpay, "pay_1", 0, 200), Sent(Razorpay, "pay_2", 0, 200)]
      && after.payments == [RazorpayPayment(Success, "pay_2")] && RefundTotal(after.refunds, 0) == 200
  {
    var stale := lost.(payments := [RazorpayPayment(Success, "pay_2")]);
    assert Apply(lost, Settle(0, Some("pay_2"), None)) == stale;
    FindsOnly("pay_1", "pay_2");
    Looks(stale, 2, "pay_2");
    var again := stale.(inFlight := map[2 := Calling(0, Razorpay, "pay_2", None)]);
    hide Apply, FindByReceipt, RefundTotal;
    Calls(again, 2, "pay_2", Answered);
    OneRefund(Apply(again, End(2, Answered)).refunds);
  }

  /**
   * A capture read before the payment was settled settles it again after a refund whose answer was lost.
   * The retry looks under the new reference, finds nothing and refunds a second time, and the payment is
   * shown as not refunded at all.
   */
  lemma StaleCapture()
    ensures var l := Ledger([RazorpayPayment(Success, "pay_1")], [], [], map[]);
      var after := Run(l, [Request(0, 200), Start(1, 0, READY), Look(1, false)] + [End(1, SentButLost),
                           Settle(0, Some("pay_2"), None), Start(2, 0, READY), Look(2, false), End(2, Answered)]);
      && Initial(l) && after.sent == [Sent(Razorpay, "pay_1", 0, 200), Sent(Razorpay, "pay_2", 0, 200)]
      && after.payments == [RazorpayPayment(Success, "pay_2")] && RefundTotal(after.refunds, 0) == 200
  {
    var pay := RazorpayPayment(Success, "pay_1");
    RequestIsTaken(pay);
    var one := Requested(pay);
    LostAnswer(pay, "pay_1");
    StaleCaptureAfter(AnswerLost(pay, "pay_1"));
    hide Apply, Run, Requested, AnswerLost, RefundTotal;
    RunThreeFirst(Ledger([pay], [], [], map[]), Request(0, 200), Start(1, 0, READY), Look(1, false),
      [End(1, SentButLost), Settle(0, Some("pay_2"), None), Start(2, 0, READY), Look(2, false), End(2, Answered)]);
    RunFive(Apply(Apply(one, Start(1, 0, READY)), Look(1, false)), End(1, SentButLost), Settle(0, Some("pay_2"), None),
      Start(2, 0, READY), Look(2, false), End(2, Answered));
  }

  lemma OneRefund(refunds: seq<Refund>)
    requires |refunds| == 1 && refunds[0].paymentId == 0 && refunds[0].amount == 200
    ensures RefundTotal(refunds, 0) == 200
  {
    assert RefundTotal(refunds[..0], 0) == 0;
  }

  // ---------- Cashfree, and rows done by hand ----------

  /** Cashfree makes no second refund for a row on the same order, looked up or not. */
  lemma CashfreeDedupes(l: Ledger, f: Flight)
    requires f.Calling? && f.row < |l.refunds| && f.gateway == Cashfree && f.found.None?
    ensures Create(l, f).0 == l.sent <==>
      exists g :: 0 <= g < |l.sent| && l.sent[g].gateway == Cashfree && l.sent[g].target == f.target && l.sent[g].receipt == f.row
  {
    FoundIsThere(l.sent, Cashfree, f.target, f.row);
  }

  lemma {:induction false} FoundIsThere(sent: seq<Sent>, gateway: Gateway, target: string, receipt: nat)
    ensures var r := FindByReceipt(sent, gateway, target, receipt);
      r.Some? ==> r.value < |sent| && sent[r.value] == Sent(gateway, target, receipt, sent[r.value].amount)
  {
    if sent != [] {
      FoundIsThere(sent[..|sent| - 1], gateway, target, receipt);
    }
  }

  /**
   * A manual row is documented as money still to be moved by hand, but an attempt that finds the
   * gateway unconfigured marks the row manual without looking. While targets are current, nothing has
   * moved for it exactly when a lookup would have found nothing.
   */
  lemma ManualMayAlreadyBePaid(l: Ledger, a: nat, id: nat, env: Env)
    requires Sound(l) && Apart(l) && AtMostOnePerRow(l.sent) && id < |l.refunds| && a !in l.inFlight
    requires !Routed(l.payments[l.refunds[id].paymentId], env)
    ensures var after := Begin(l, a, id, env);
      && after.refunds[id].status == ByHand
      && (CountForRow(after.sent, id) == 0 <==> !HasTarget(l, id) || Find(l, id).None?)
  {
    if !HasTarget(l, id) || Find(l, id).None? {
      forall g | 0 <= g < |l.sent| ensures l.sent[g].receipt != id {
        assert CurrentTarget(l, l.sent[g].receipt, l.sent[g].target) && Made(l, l.sent[g]);
      }
      CountIfAbsent(l.sent, id);
    } else {
      CountAtLeast(l.sent, Find(l, id).value);
    }
  }

  /** It happens: a lost answer, then a retry without credentials. */
  lemma ManualAfterLostAnswer()
    ensures var l := Ledger([RazorpayPayment(Success, "pay_1")], [], [], map[]);
      var after := Run(l, [Request(0, 200), Start(1, 0, READY), Look(1, false), End(1, SentButLost),
                           Start(2, 0, Env(false, false))]);
      after.refunds == [Refund(0, 200, ByHand, None)] && after.sent == [Sent(Razorpay, "pay_1", 0, 200)]
  {
    var pay := RazorpayPayment(Success, "pay_1");
    var lost, retry := AnswerLost(pay, "pay_1"), Start(2, 0, Env(false, false));
    RequestIsTaken(pay);
    LostAnswer(pay, "pay_1");
    assert Apply(lost, retry).refunds == [Refund(0, 200, ByHand, None)] && Apply(lost, retry).sent == [Sent(Razorpay, "pay_1", 0, 200)];
    hide Apply, Run, Requested, AnswerLost;
    RunFive(Ledger([pay], [], [], map[]), Request(0, 200), Start(1, 0, READY), Look(1, false), End(1, SentButLost), retry);
  }
}
