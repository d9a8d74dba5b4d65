/**
 * Refunds: the ledger, and the attempts at a gateway as steps that interleave freely, several on one
 * row included, with one another and with settlements of the payment. A gateway call may fail before
 * or after it takes effect; `sent` is what the gateways really did. Rows are numbered in insertion
 * order and a refund row's number is its receipt at the gateway.
 */
module Refunds {
  import opened Common

  datatype Gateway = Razorpay | Cashfree | Manual | Stripe

  datatype PaymentStatus = Pending | Success | Failed | Cancelled | PartiallyRefunded | Refunded

  /** `orderRef` is the order id kept on the settlement; settling overwrites `gatewayRef` with the payment id. */
  datatype Payment = Payment(
    amount: int, status: PaymentStatus, gateway: Gateway, gatewayRef: Option<string>, orderRef: Option<string>)

  /** PENDING, PROCESSED and MANUAL in the tables. */
  datatype RefundStatus = Awaiting | Processed | ByHand

  datatype Refund = Refund(paymentId: nat, amount: int, status: RefundStatus, gatewayRef: Option<nat>)

  /** A refund a gateway holds; its number is the gateway's id for it. */
  datatype Sent = Sent(gateway: Gateway, target: string, receipt: nat, amount: int)

  /**
   * An attempt under way, with the row and the target as it read them: about to look for an existing
   * refund, or about to call. Cashfree attempts look nothing up.
   */
  datatype Flight =
    | Reading(row: nat, gateway: Gateway, target: string)
    | Calling(row: nat, gateway: Gateway, target: string, found: Option<nat>)

  /** Attempts under way are told apart by a number of their own. */
  datatype Ledger = Ledger(payments: seq<Payment>, refunds: seq<Refund>, sent: seq<Sent>, inFlight: map<nat, Flight>)

  datatype Error = InvalidAmount | PaymentNotFound | NotRefundable | ExceedsPayment | RefundNotFound

  datatype Result<+T> = Ok(value: T) | Err(error: Error)

  // ---------- The ledger move ----------

  /** The sum of every refund row of a payment, whatever its status. */
  function RefundTotal(refunds: seq<Refund>, p: nat): int {
    if refunds == [] then 0
    else
      var last := refunds[|refunds| - 1];
      RefundTotal(refunds[..|refunds| - 1], p) + (if last.paymentId == p then last.amount else 0)
  }

  function RefundInTx(l: Ledger, p: nat, amount: int): Result<Ledger> {
    if p >= |l.payments| then Err(PaymentNotFound)
    else
      var pay, already := l.payments[p], RefundTotal(l.refunds, p);
      if pay.status != Success && pay.status != PartiallyRefunded then Err(NotRefundable)
      else if amount + already > pay.amount then Err(ExceedsPayment)
      else
        var status := if already + amount >= pay.amount then Refunded else PartiallyRefunded;
        Ok(l.(refunds := l.refunds + [Refund(p, amount, Awaiting, None)], payments := l.payments[p := pay.(status := status)]))
  }

  /** The endpoint admits whole amounts of at least one paisa. */
  function RequestRefund(l: Ledger, p: nat, amount: int): Result<Ledger> {
    if amount < 1 then Err(InvalidAmount) else RefundInTx(l, p, amount)
  }

  // ---------- Settling the payment ----------

  /**
   * A capture settles its row by number alone: paid, under the reference it carries, with its order
   * id. A row that is settled already, or refunded since, is written over all the same.
   */
  function SettlePayment(l: Ledger, p: nat, ref: Option<string>, orderRef: Option<string>): Ledger {
    if p >= |l.payments| || l.payments[p].amount <= 0 then l
    else
      var pay := l.payments[p];
      l.(payments := l.payments[p := pay.(status := Success, gatewayRef := if ref.Some? then ref else pay.gatewayRef,
                                          orderRef := orderRef)])
  }

  // ---------- Attempts ----------

  /** Which gateways have credentials when an attempt runs. */
  datatype Env = Env(razorpay: bool, cashfree: bool)

  /** What becomes of a call: never arrived, took effect but the answer was lost, or answered. */
  datatype Fate = NotSent | SentButLost | Answered

  /** The payment id for Razorpay, the order id for Cashfree, nothing for the rest. */
  function TargetOf(pay: Payment): Option<string> {
    match pay.gateway
    case Razorpay => if Truthy(pay.gatewayRef) then pay.gatewayRef else None
    case Cashfree => if Truthy(pay.orderRef) then pay.orderRef else if Truthy(pay.gatewayRef) then pay.gatewayRef else None
    case _ => None
  }

  predicate Routed(pay: Payment, env: Env) {
    TargetOf(pay).Some? && (if pay.gateway == Razorpay then env.razorpay else env.cashfree)
  }

  /** The refund a gateway holds against `target` for `receipt`, if any. */
  function FindByReceipt(sent: seq<Sent>, gateway: Gateway, target: string, receipt: nat): (r: Option<nat>)
    ensures r.Some? ==>
      r.value < |sent| && sent[r.value].gateway == gateway && sent[r.value].target == target && sent[r.value].receipt == receipt
    ensures r.None? ==> forall g :: 0 <= g < |sent| ==>
        !(sent[g].gateway == gateway && sent[g].target == target && sent[g].receipt == receipt)
  {
    if sent == [] then None
    else
      var g := |sent| - 1;
      if sent[g].gateway == gateway && sent[g].target == target && sent[g].receipt == receipt then Some(g)
      else FindByReceipt(sent[..g], gateway, target, receipt)
  }

  /** The row's payment has somewhere to send a refund to. */
  predicate HasTarget(l: Ledger, id: nat) {
    id < |l.refunds| && l.refunds[id].paymentId < |l.payments| && TargetOf(l.payments[l.refunds[id].paymentId]).Some?
  }

  function GatewayOf(l: Ledger, id: nat): Gateway
    requires HasTarget(l, id)
  {
    l.payments[l.refunds[id].paymentId].gateway
  }

  function Target(l: Ledger, id: nat): string
    requires HasTarget(l, id)
  {
    TargetOf(l.payments[l.refunds[id].paymentId]).value
  }

  function Find(l: Ledger, id: nat): Option<nat>
    requires HasTarget(l, id)
  {
    FindByReceipt(l.sent, GatewayOf(l, id), Target(l, id), id)
  }

  /** Starts an attempt: it reads the row and the payment; not routed, the row becomes manual and that is all. */
  function Begin(l: Ledger, a: nat, id: nat, env: Env): Ledger {
    if id >= |l.refunds| || l.refunds[id].paymentId >= |l.payments| || a in l.inFlight then l
    else
      var pay := l.payments[l.refunds[id].paymentId];
      if !Routed(pay, env) then l.(refunds := l.refunds[id := l.refunds[id].(status := ByHand)])
      else
        l.(inFlight := l.inFlight[a :=
          if pay.gateway == Razorpay then Reading(id, Razorpay, TargetOf(pay).value)
          else Calling(id, pay.gateway, TargetOf(pay).value, None)])
  }

  /** Razorpay is asked for a refund with the row's receipt; if that fails the attempt is over. */
  function LookUp(l: Ledger, a: nat, fails: bool): Ledger {
    if a !in l.inFlight || !l.inFlight[a].Reading? then l
    else if fails then l.(inFlight := l.inFlight - {a})
    else
      var f := l.inFlight[a];
      l.(inFlight := l.inFlight[a := Calling(f.row, f.gateway, f.target, FindByReceipt(l.sent, f.gateway, f.target, f.row))])
  }

  /** A call makes a new refund unless the attempt found one, or Cashfree has one for the order under the same id. */
  predicate MakesNew(l: Ledger, f: Flight)
    requires f.Calling?
  {
    f.found.None? && !(f.gateway == Cashfree && FindByReceipt(l.sent, f.gateway, f.target, f.row).Some?)
  }

  /** What the gateways hold after the call, and the refund it answers with. */
  function Create(l: Ledger, f: Flight): (r: (seq<Sent>, nat))
    requires f.Calling? && f.row < |l.refunds|
    ensures l.sent <= r.0
  {
    if MakesNew(l, f) then (l.sent + [Sent(f.gateway, f.target, f.row, l.refunds[f.row].amount)], |l.sent|)
    else if f.found.Some? then (l.sent, f.found.value)
    else (l.sent, FindByReceipt(l.sent, f.gateway, f.target, f.row).value)
  }

  function MarkProcessed(refunds: seq<Refund>, id: nat, g: nat): seq<Refund>
    requires id < |refunds|
  {
    refunds[id := refunds[id].(status := Processed, gatewayRef := Some(g))]
  }

  /** Ends an attempt: reuse what was found or call, and meet the call's fate. A failure leaves the row as it was. */
  function Finish(l: Ledger, a: nat, fate: Fate): Ledger {
    if a !in l.inFlight || !l.inFlight[a].Calling? || l.inFlight[a].row >= |l.refunds| then l
    else
      var done, f := l.(inFlight := l.inFlight - {a}), l.inFlight[a];
      if fate == NotSent then done
      else
        var (sent, g) := Create(l, f);
        done.(sent := sent, refunds := if fate == Answered then MarkProcessed(l.refunds, f.row, g) else l.refunds)
  }

  // ---------- Runs ----------

  datatype Op =
    | Request(paymentId: nat, amount: int)
    | Settle(settled: nat, ref: Option<string>, orderRef: Option<string>)
    | Start(attempt: nat, id: nat, env: Env)
    | Look(attempt: nat, fails: bool)
    | End(attempt: nat, fate: Fate)

  /** One step; a refused request changes nothing. Attempts may start on any row at any time, whatever its status. */
  function Apply(l: Ledger, op: Op): Ledger {
    match op
    case Request(p, amount) => (var r := RequestRefund(l, p, amount); if r.Ok? then r.value else l)
    case Settle(p, ref, orderRef) => SettlePayment(l, p, ref, orderRef)
    case Start(a, id, env) => Begin(l, a, id, env)
    case Look(a, fails) => LookUp(l, a, fails)
    case End(a, fate) => Finish(l, a, fate)
  }

  function Run(l: Ledger, ops: seq<Op>): Ledger
    decreases |ops|
  {
    if ops == [] then l else Run(Apply(l, ops[0]), ops[1..])
  }

  /** Before any refund: no row, nothing sent, no attempt, and payments as settlement leaves them. */
  predicate Initial(l: Ledger) {
    && l.refunds == [] && l.sent == [] && l.inFlight == map[]
    && forall p :: 0 <= p < |l.payments| ==>
         l.payments[p].status != PartiallyRefunded && l.payments[p].status != Refunded
         && (l.payments[p].status == Success ==> l.payments[p].amount > 0)
  }
}
