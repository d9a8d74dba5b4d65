/** The rate push: nightly prices, this channel's delta, and runs of equal price as rupee strings. */
module ChannelRates {
  import opened Common
  import opened Rounding
  import opened Decimal
  import opened Runs
  import opened ChannelRanges

  datatype RateType = RateType(id: string, baseRate: int)

  /** The rate engine: a nightly price list per type, and this connection's delta in basis points by type and date. */
  datatype Engine = Engine(nightly: string -> seq<Night>, deltaBp: map<(string, int), int>)

  /** `dateTo` is inclusive; the rate is text in rupees. */
  datatype RateUpdate = RateUpdate(propertyId: string, ratePlanId: string, dateFrom: int, dateTo: int, rate: string)

  /** The price this channel is told for a night. */
  function Price(deltaBp: map<(string, int), int>, t: string, n: Night): Night {
    var delta := if (t, n.date) in deltaBp then deltaBp[(t, n.date)] else 0;
    Night(n.date, Max(0, RoundDiv(n.value * (10_000 + delta), 10_000)))
  }

  /** The nearest paisa to the base price moved by the delta; a delta below minus one hundred per cent gives zero. */
  lemma PriceIsTheDelta(deltaBp: map<(string, int), int>, t: string, n: Night)
    ensures var p := Price(deltaBp, t, n);
      var exact := n.value * (10_000 + (if (t, n.date) in deltaBp then deltaBp[(t, n.date)] else 0));
      && p.date == n.date && p.value >= 0
      && (if exact >= 0 then -10_000 < 20_000 * p.value - 2 * exact <= 10_000 else p.value == 0)
  {}

  function PriceAll(deltaBp: map<(string, int), int>, t: string, nightly: seq<Night>): (r: seq<Night>)
    ensures |r| == |nightly|
    ensures forall i :: 0 <= i < |nightly| ==> r[i] == Price(deltaBp, t, nightly[i])
  {
    seq(|nightly|, i requires 0 <= i < |nightly| => Price(deltaBp, t, nightly[i]))
  }

  function PricedNights(engine: Engine, t: string): seq<Night> {
    PriceAll(engine.deltaBp, t, engine.nightly(t))
  }

  function ToRate(propertyId: string, planId: string, r: Run): RateUpdate {
    RateUpdate(propertyId, planId, r.from, r.to, RateText(r.value))
  }

  function ToRates(propertyId: string, planId: string, runs: seq<Run>): seq<RateUpdate> {
    seq(|runs|, i requires 0 <= i < |runs| => ToRate(propertyId, planId, runs[i]))
  }

  /** The runs of one type: its priced nights compressed, or without an engine one run over the window at the
      base rate. */
  function RateRuns(t: RateType, start: int, end: int, engine: Option<Engine>): seq<Run> {
    if engine.None? then [Run(start, end - 1, t.baseRate)] else Compress(PricedNights(engine.value, t.id))
  }

  function RatesFor(propertyId: string, types: seq<RateType>, plans: map<string, string>, start: int,
      end: int, engine: Option<Engine>): seq<RateUpdate> {
    if types == [] then []
    else
      var t := types[|types| - 1];
      RatesFor(propertyId, types[..|types| - 1], plans, start, end, engine)
      + (if IsMapped(plans, t.id) then ToRates(propertyId, plans[t.id], RateRuns(t, start, end, engine)) else [])
  }

  // ---------- pushRates ----------

  /** What is still to be sent from priced night `i` on; no run is open before the first. */
  function Remaining(propertyId: string, planId: string, run: Option<Run>, nights: seq<Night>, i: nat): seq<RateUpdate>
    requires i <= |nights|
  {
    ToRates(propertyId, planId, if run.Some? then CompressFrom(run.value, nights[i..]) else Compress(nights[i..]))
  }

  lemma RemainingStep(propertyId: string, planId: string, run: Option<Run>, nights: seq<Night>, i: nat)
    requires i < |nights|
    ensures Remaining(propertyId, planId, run, nights, i)
         == if run.Some? && nights[i].value == run.value.value && run.value.to + 1 == nights[i].date
            then Remaining(propertyId, planId, Some(run.value.(to := nights[i].date)), nights, i + 1)
            else
              ((if run.Some? then [ToRate(propertyId, planId, run.value)] else [])
               + Remaining(propertyId, planId, Some(Run(nights[i].date, nights[i].date, nights[i].value)), nights, i + 1))
  {
    assert nights[i..][1..] == nights[i + 1..];
    var next := Run(nights[i].date, nights[i].date, nights[i].value);
    if run.Some? {
      ToRatesFirst(propertyId, planId, run.value, CompressFrom(next, nights[i + 1..]));
    }
    hide ToRates, ToRate, RateText;
  }

  lemma ToRatesFirst(propertyId: string, planId: string, r: Run, rest: seq<Run>)
    ensures ToRates(propertyId, planId, [r] + rest) == [ToRate(propertyId, planId, r)] + ToRates(propertyId, planId, rest)
  {}

  lemma RemainingStart(propertyId: string, planId: string, nights: seq<Night>)
    ensures Remaining(propertyId, planId, None, nights, 0) == ToRates(propertyId, planId, Compress(nights))
  {
    assert nights[0..] == nights;
  }

  lemma RemainingEnd(propertyId: string, planId: string, run: Option<Run>, nights: seq<Night>)
    ensures Remaining(propertyId, planId, run, nights, |nights|)
         == if run.Some? then [ToRate(propertyId, planId, run.value)] else []
  {}

  /** One type: walk the nights with at most one run open, flushing on a break and at the end. */
  method PushPriceRuns(updates: seq<RateUpdate>, propertyId: string, planId: string,
      deltaBp: map<(string, int), int>, t: string, nightly: seq<Night>)
    returns (more: seq<RateUpdate>)
    ensures more == updates + ToRates(propertyId, planId, Compress(PriceAll(deltaBp, t, nightly)))
  {
    hide *;
    ghost var priced := PriceAll(deltaBp, t, nightly);
    ghost var target := updates + ToRates(propertyId, planId, Compress(priced));
    RemainingStart(propertyId, planId, priced);
    var run: Option<Run> := None;
    more := updates;
    for i := 0 to |nightly|
      invariant target == more + Remaining(propertyId, planId, run, priced, i)
    {
      var n := Price(deltaBp, t, nightly[i]);
      RemainingStep(propertyId, planId, run, priced, i);
      if run.Some? && run.value.value == n.value && run.value.to + 1 == n.date {
        run := Some(run.value.(to := n.date));
      } else {
        if run.Some? {
          more := more + [ToRate(propertyId, planId, run.value)];
        }
        run := Some(Run(n.date, n.date, n.value));
      }
    }
    RemainingEnd(propertyId, planId, run, priced);
    if run.Some? {
      more := more + [ToRate(propertyId, planId, run.value)];
    }
  }

  method PushRates(propertyId: string, types: seq<RateType>, plans: map<string, string>, start: int,
      end: int, engine: Option<Engine>)
    returns (updates: seq<RateUpdate>, unmapped: seq<string>)
    ensures updates == RatesFor(propertyId, types, plans, start, end, engine)
    ensures forall i :: 0 <= i < |updates| ==> updates[i].propertyId == propertyId
    ensures forall t :: t in unmapped <==> (t !in plans || plans[t] == "") && exists i :: 0 <= i < |types| && types[i].id == t
  {
    hide Compress, PriceAll, RateText;
    updates, unmapped := [], [];
    for k := 0 to |types|
      invariant updates == RatesFor(propertyId, types[..k], plans, start, end, engine)
      invariant forall t :: t in unmapped <==> !IsMapped(plans, t) && exists i :: 0 <= i < k && types[i].id == t
    {
      var t := types[k];
      assert types[..k + 1][..k] == types[..k];
      if !IsMapped(plans, t.id) {
        unmapped := unmapped + [t.id];
      } else if engine.None? {
        updates := updates + [RateUpdate(propertyId, plans[t.id], start, end - 1, RateText(t.baseRate))];
      } else {
        updates := PushPriceRuns(updates, propertyId, plans[t.id], engine.value.deltaBp, t.id, engine.value.nightly(t.id));
      }
    }
    assert types[..|types|] == types;
    AllForTheProperty(propertyId, types, plans, start, end, engine);
  }

  lemma {:induction false} AllForTheProperty(propertyId: string, types: seq<RateType>, plans: map<string, string>,
      start: int, end: int, engine: Option<Engine>)
    ensures forall i :: 0 <= i < |RatesFor(propertyId, types, plans, start, end, engine)| ==>
      RatesFor(propertyId, types, plans, start, end, engine)[i].propertyId == propertyId
  {
    hide RateRuns, RateText;
    if types != [] {
      AllForTheProperty(propertyId, types[..|types| - 1], plans, start, end, engine);
    }
  }

  // ---------- What the channel reads ----------

  /** The runs a channel reads for a plan, each rate string parsed back to paise. */
  function RunsOnPlan(updates: seq<RateUpdate>, planId: string): seq<Run> {
    if updates == [] then []
    else
      var u := updates[|updates| - 1];
      RunsOnPlan(updates[..|updates| - 1], planId)
      + (if u.ratePlanId == planId then [Run(u.dateFrom, u.dateTo, ReadPaise(u.rate).GetOr(0))] else [])
  }

  lemma {:induction false} RunsOnPlanAppend(a: seq<RateUpdate>, propertyId: string, sent: string,
      runs: seq<Run>, planId: string)
    ensures RunsOnPlan(a + ToRates(propertyId, sent, runs), planId) ==
        RunsOnPlan(a, planId) + (if sent == planId then runs else [])
    decreases |runs|
  {
    hide ReadPaise, RateText;
    var b := ToRates(propertyId, sent, runs);
    if runs == [] {
      assert a + b == a;
    } else {
      var init, last := runs[..|runs| - 1], runs[|runs| - 1];
      assert b[..|b| - 1] == ToRates(propertyId, sent, init);
      assert (a + b)[..|a + b| - 1] == a + b[..|b| - 1];
      RunsOnPlanAppend(a, propertyId, sent, init, planId);
      RateTextReadsBack(last.value);
      assert runs == init + [last];
    }
  }

  /** The price of every night of one type, in the order listed. */
  function RateNights(t: RateType, start: int, end: int, engine: Option<Engine>): seq<Night> {
    if engine.None? then seq(Max(0, end - start), i => Night(start + i, t.baseRate)) else PricedNights(engine.value, t.id)
  }

  /** The same for all the listed types sold under one plan, type after type. */
  function NightsOnPlan(types: seq<RateType>, plans: map<string, string>, start: int, end: int,
      engine: Option<Engine>, planId: string): seq<Night> {
    if types == [] then []
    else
      var t := types[|types| - 1];
      NightsOnPlan(types[..|types| - 1], plans, start, end, engine, planId)
      + (if IsMapped(plans, t.id) && plans[t.id] == planId then RateNights(t, start, end, engine) else [])
  }

  lemma {:induction false} FlatRun(start: int, end: int, value: int)
    ensures ExpandRun(Run(start, end - 1, value)) == seq(Max(0, end - start), i => Night(start + i, value))
    decreases end - start
  {
    if start < end {
      FlatRun(start + 1, end, value);
    }
  }

  /** An exclusive window sent as one inclusive run, or the engine's nights compressed, expand to the nights meant. */
  lemma RateRunsExpand(t: RateType, start: int, end: int, engine: Option<Engine>)
    ensures Expand(RateRuns(t, start, end, engine)) == RateNights(t, start, end, engine)
  {
    if engine.None? {
      FlatRun(start, end, t.baseRate);
      var runs := [Run(start, end - 1, t.baseRate)];
      assert Expand(runs) == ExpandRun(runs[0]) + Expand(runs[1..]);
    } else {
      ExpandCompress(PricedNights(engine.value, t.id));
    }
  }

  /**
   * Read back at the channel, whatever the mapping: a plan shows exactly the delta-adjusted,
   * zero-clamped price of every night of every type sold under it, in order, the last run included.
   */
  lemma {:induction false} PlanShowsThePrices(propertyId: string, types: seq<RateType>, plans: map<string, string>,
      start: int, end: int, engine: Option<Engine>, planId: string)
    ensures Expand(RunsOnPlan(RatesFor(propertyId, types, plans, start, end, engine), planId))
         == NightsOnPlan(types, plans, start, end, engine, planId)
  {
    hide RateRuns, RateNights, RunsOnPlan, ToRates, Expand;
    if types == [] {
      NothingSent(planId);
    } else {
      var init, u := types[..|types| - 1], types[|types| - 1];
      PlanShowsThePrices(propertyId, init, plans, start, end, engine, planId);
      var before := RatesFor(propertyId, init, plans, start, end, engine);
      if IsMapped(plans, u.id) {
        var runs := RateRuns(u, start, end, engine);
        RunsOnPlanAppend(before, propertyId, plans[u.id], runs, planId);
        RateRunsExpand(u, start, end, engine);
        ExpandAppend(RunsOnPlan(before, planId), if plans[u.id] == planId then runs else []);
        NothingSent(planId);
      } else {
        assert RatesFor(propertyId, types, plans, start, end, engine) == before;
      }
    }
  }

  lemma NothingSent(planId: string)
    ensures RunsOnPlan([], planId) == [] && Expand([]) == []
  {}

  predicate HasNights(t: RateType, start: int, end: int, engine: Option<Engine>) {
    if engine.None? then start < end else engine.value.nightly(t.id) != []
  }

  lemma NightsOrNone(t: RateType, start: int, end: int, engine: Option<Engine>)
    ensures HasNights(t, start, end, engine) <==> RateNights(t, start, end, engine) != []
  {}

  /** A type that puts nights on a plan. */
  predicate FillsPlan(t: RateType, plans: map<string, string>, start: int, end: int,
      engine: Option<Engine>, planId: string) {
    IsMapped(plans, t.id) && plans[t.id] == planId && HasNights(t, start, end, engine)
  }

  lemma {:induction false} NoNightsOnPlan(types: seq<RateType>, plans: map<string, string>, start: int, end: int,
      engine: Option<Engine>, planId: string)
    ensures NightsOnPlan(types, plans, start, end, engine, planId) == []
       <==> forall i :: 0 <= i < |types| ==> !FillsPlan(types[i], plans, start, end, engine, planId)
  {
    hide RateNights, HasNights, IsMapped;
    if types != [] {
      NoNightsOnPlan(types[..|types| - 1], plans, start, end, engine, planId);
      NightsOrNone(types[|types| - 1], start, end, engine);
      assert forall i :: 0 <= i < |types| - 1 ==> types[..|types| - 1][i] == types[i];
    }
  }

  /** No entry of the list but `k` puts nights on the plan. */
  predicate Alone(types: seq<RateType>, plans: map<string, string>, start: int, end: int, engine: Option<Engine>,
      planId: string, k: nat) {
    forall i :: 0 <= i < |types| && i != k ==> !FillsPlan(types[i], plans, start, end, engine, planId)
  }

  lemma AloneStep(types: seq<RateType>, plans: map<string, string>, start: int, end: int, engine: Option<Engine>,
      planId: string, k: nat)
    requires k < |types| - 1
    ensures Alone(types, plans, start, end, engine, planId, k)
       <==> Alone(types[..|types| - 1], plans, start, end, engine, planId, k)
            && !FillsPlan(types[|types| - 1], plans, start, end, engine, planId)
  {
    hide FillsPlan;
    assert forall i :: 0 <= i < |types| - 1 ==> types[..|types| - 1][i] == types[i];
  }

  /** One entry's nights are all its plan has exactly when it is alone there. */
  lemma {:induction false} AloneShowsOwn(types: seq<RateType>, plans: map<string, string>, start: int, end: int,
      engine: Option<Engine>, k: nat)
    requires k < |types| && IsMapped(plans, types[k].id)
    ensures var planId, own := plans[types[k].id], RateNights(types[k], start, end, engine);
      var all := NightsOnPlan(types, plans, start, end, engine, planId);
      |own| <= |all| && (all == own <==> |all| == |own|) && (all == own <==> Alone(types, plans, start, end, engine, planId, k))
  {
    hide RateNights, HasNights;
    var init, last, planId := types[..|types| - 1], types[|types| - 1], plans[types[k].id];
    if k == |types| - 1 {
      NoNightsOnPlan(init, plans, start, end, engine, planId);
      assert forall i :: 0 <= i < k ==> init[i] == types[i];
      assert Alone(types, plans, start, end, engine, planId, k) <==> NightsOnPlan(init, plans, start, end, engine, planId) == [] by {
        hide NightsOnPlan, FillsPlan;
      }
    } else {
      AloneShowsOwn(init, plans, start, end, engine, k);
      AloneStep(types, plans, start, end, engine, planId, k);
      NightsOrNone(last, start, end, engine);
    }
  }

  /**
   * A mapped type's plan is sent exactly the type's own nightly prices, or its base rate over the
   * window, if and only if no other type with nights shares the plan.
   */
  lemma PlanIsSentOnlyOwnPrices(propertyId: string, types: seq<RateType>, plans: map<string, string>,
      start: int, end: int, engine: Option<Engine>, k: nat)
    requires k < |types| && IsMapped(plans, types[k].id)
    ensures Expand(RunsOnPlan(RatesFor(propertyId, types, plans, start, end, engine), plans[types[k].id]))
              == RateNights(types[k], start, end, engine)
       <==> Alone(types, plans, start, end, engine, plans[types[k].id], k)
  {
    hide RatesFor, RunsOnPlan, NightsOnPlan, RateNights, Alone, Expand;
    PlanShowsThePrices(propertyId, types, plans, start, end, engine, plans[types[k].id]);
    AloneShowsOwn(types, plans, start, end, engine, k);
  }

  /** For date-ordered prices no shorter list of runs would tell the channel the same. */
  lemma FewestRateRuns(t: RateType, start: int, end: int, engine: Engine, others: seq<Run>)
    requires Ascending(PricedNights(engine, t.id))
    requires forall n :: n in Expand(others) <==> n in PricedNights(engine, t.id)
    ensures OrderedAndMaximal(RateRuns(t, start, end, Some(engine)))
    ensures |RateRuns(t, start, end, Some(engine))| <= |others|
  {
    CompressShape(PricedNights(engine, t.id));
    FewestRuns(PricedNights(engine, t.id), others);
  }

  /** What each listed type puts on a plan, in the order listed. */
  function ListsOnPlan(types: seq<RateType>, plans: map<string, string>, start: int, end: int,
      engine: Option<Engine>, planId: string): seq<seq<Night>> {
    seq(|types|, i requires 0 <= i < |types| =>
      if IsMapped(plans, types[i].id) && plans[types[i].id] == planId then RateNights(types[i], start, end, engine) else [])
  }

  lemma {:induction false} NightsOnPlanAreTheLists(types: seq<RateType>, plans: map<string, string>,
      start: int, end: int,
      engine: Option<Engine>, planId: string)
    ensures NightsOnPlan(types, plans, start, end, engine, planId) ==
        Flatten(ListsOnPlan(types, plans, start, end, engine, planId))
  {
    hide RateNights;
    if types != [] {
      var init, lists := types[..|types| - 1], ListsOnPlan(types, plans, start, end, engine, planId);
      NightsOnPlanAreTheLists(init, plans, start, end, engine, planId);
      assert lists[..|lists| - 1] == ListsOnPlan(init, plans, start, end, engine, planId);
    }
  }

  /**
   * A channel that keeps the last rate sent shows a type's own price for a night if and only if the last
   * listed type on its plan with a price for that night has the same.
   */
  lemma LastRateIsShown(propertyId: string, types: seq<RateType>, plans: map<string, string>,
      start: int, end: int, engine: Option<Engine>, k: nat, date: int)
    requires k < |types| && IsMapped(plans, types[k].id) && Shown(RateNights(types[k], start, end, engine), date).Some?
    ensures var planId := plans[types[k].id];
      var sent := Expand(RunsOnPlan(RatesFor(propertyId, types, plans, start, end, engine), planId));
      var lists := ListsOnPlan(types, plans, start, end, engine, planId);
      var own := Shown(RateNights(types[k], start, end, engine), date);
      Shown(sent, date) == own <==> forall j :: k <= j && IsLastWith(lists, date, j) ==> Shown(lists[j], date) == own
  {
    var planId := plans[types[k].id];
    PlanShowsThePrices(propertyId, types, plans, start, end, engine, planId);
    NightsOnPlanAreTheLists(types, plans, start, end, engine, planId);
    assert ListsOnPlan(types, plans, start, end, engine, planId)[k] == RateNights(types[k], start, end, engine);
    hide Shown, Flatten, RateNights, Expand, RunsOnPlan, RatesFor, NightsOnPlan;
    OwnIsShown(ListsOnPlan(types, plans, start, end, engine, planId), date, k);
  }

  lemma OneBaseRate(t: RateType)
    ensures RateNights(t, 0, 1, None) == [Night(0, t.baseRate)]
  {}

  lemma TwoOnPlan(a: RateType, b: RateType, plans: map<string, string>, start: int, end: int, engine: Option<Engine>)
    requires IsMapped(plans, a.id) && IsMapped(plans, b.id) && plans[a.id] == plans[b.id]
    ensures NightsOnPlan([a, b], plans, start, end, engine, plans[a.id])
         == RateNights(a, start, end, engine) + RateNights(b, start, end, engine)
  {
    hide RateNights;
    assert [a, b][..1] == [a] && [a][..0] == [];
    assert NightsOnPlan([a], plans, start, end, engine, plans[a.id]) == RateNights(a, start, end, engine);
  }

  /** Two types under one plan at 100 and 200 rupees: the channel is sent two rates for the one night. */
  lemma SharedPlanOverwrites()
    ensures var types := [RateType("deluxe", 10_000), RateType("suite", 20_000)];
      Expand(RunsOnPlan(RatesFor("p", types, map["deluxe" := "plan", "suite" := "plan"], 0, 1, None), "plan"))
        == [Night(0, 10_000), Night(0, 20_000)]
  {
    var deluxe, suite := RateType("deluxe", 10_000), RateType("suite", 20_000);
    var plans := map["deluxe" := "plan", "suite" := "plan"];
    hide NightsOnPlan, RateNights, RunsOnPlan, Expand, RatesFor;
    PlanShowsThePrices("p", [deluxe, suite], plans, 0, 1, None, "plan");
    TwoOnPlan(deluxe, suite, plans, 0, 1, None);
    OneBaseRate(deluxe);
    OneBaseRate(suite);
  }
}
