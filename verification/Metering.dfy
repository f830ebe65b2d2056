// Metering: exact costs, what the numeric(12,6) column keeps of them, and sums over groups of events.
module Metering {
  import opened Prelude
  import opened RunSteps
  import opened Pricing

  type Id = nat

  /** `micro` is the stored cost in micro-dollars. */
  datatype Event = Event(thread: Id, run: Id, model: string, usage: Usage, micro: nat)

  type Key = (Id, string)

  function KeyOf(e: Event): (k: Key) {
    (e.thread, e.model)
  }

  // ---- Rounding -----------------------------------------------------------------------------------

  /** A model that is not priced costs nothing. */
  function ModelCost(prices: map<string, Price>, model: string, u: Usage): (c: nat) {
    if model in prices then Cost(prices[model], u) else 0
  }

  /** Units of 1e-8 USD to the nearest micro-dollar, halves up. */
  function Stored(cost: nat): (micro: nat)
    ensures -50 <= cost - 100 * micro < 50
  {
    (cost + 50) / 100
  }

  function SumExact(prices: map<string, Price>, events: seq<Event>): (c: nat) {
    if events == [] then 0
    else SumExact(prices, Front(events)) + ModelCost(prices, Last(events).model, Last(events).usage)
  }

  /** Every row was priced with these prices when it was written. */
  ghost predicate PricedWith(prices: map<string, Price>, events: seq<Event>) {
    forall k | 0 <= k < |events| :: events[k].micro == Stored(ModelCost(prices, events[k].model, events[k].usage))
  }

  function Plus(a: Usage, b: Usage): (s: Usage) {
    Usage(a.input + b.input, a.output + b.output, a.cacheRead + b.cacheRead, a.cacheWrite + b.cacheWrite)
  }

  lemma CostIsLinear(p: Price, a: Usage, b: Usage)
    ensures Cost(p, Plus(a, b)) == Cost(p, a) + Cost(p, b)
  {
    Distribute(a.input, b.input, p.input);
    Distribute(a.output, b.output, p.output);
    Distribute(a.cacheRead, b.cacheRead, p.cacheRead);
    Distribute(a.cacheWrite, b.cacheWrite, p.cacheWrite);
  }

  /** One token of each kind costs its own price; with linearity this fixes the cost of every usage. */
  lemma OneTokenEach(p: Price)
    ensures Cost(p, Usage(1, 0, 0, 0)) == p.input && Cost(p, Usage(0, 1, 0, 0)) == p.output
    ensures Cost(p, Usage(0, 0, 1, 0)) == p.cacheRead && Cost(p, Usage(0, 0, 0, 1)) == p.cacheWrite
    ensures Cost(p, Usage(0, 0, 0, 0)) == 0
  {
  }

  lemma Distribute(a: nat, b: nat, p: nat)
    ensures (a + b) * p == a * p + b * p
  {
  }

  // ---- Sums over sets of groups -------------------------------------------------------------------

  datatype Tally = Tally(usage: Usage, micro: nat)

  function Zero(): (z: Tally) {
    Tally(Usage(0, 0, 0, 0), 0)
  }

  function Add(a: Tally, b: Tally): (s: Tally) {
    Tally(Plus(a.usage, b.usage), a.micro + b.micro)
  }

  function Part(e: Event, counts: bool): (t: Tally) {
    if counts then Tally(e.usage, e.micro) else Zero()
  }

  /** Tokens and stored cost of the events in the groups of `keys`. */
  function Sum(events: seq<Event>, keys: set<Key>): (s: Tally) {
    if events == [] then Zero()
    else Add(Sum(Front(events), keys), Part(Last(events), KeyOf(Last(events)) in keys))
  }

  /** Tokens and stored cost of all events, added directly. */
  function SumAll(events: seq<Event>): (s: Tally) {
    if events == [] then Zero() else Add(SumAll(Front(events)), Tally(Last(events).usage, Last(events).micro))
  }

  function SumThread(events: seq<Event>, t: Id): (s: Tally) {
    if events == [] then Zero()
    else Add(SumThread(Front(events), t), Part(Last(events), Last(events).thread == t))
  }

  lemma AddFour(w: Tally, x: Tally, y: Tally, z: Tally)
    ensures Add(Add(w, x), Add(y, z)) == Add(Add(w, y), Add(x, z))
  {
  }

  lemma PartUnion(e: Event, a: set<Key>, b: set<Key>)
    requires a !! b
    ensures Part(e, KeyOf(e) in a + b) == Add(Part(e, KeyOf(e) in a), Part(e, KeyOf(e) in b))
  {
  }

  lemma SumUnionStep(events: seq<Event>, a: set<Key>, b: set<Key>)
    requires events != [] && a !! b
    requires Sum(Front(events), a + b) == Add(Sum(Front(events), a), Sum(Front(events), b))
    ensures Sum(events, a + b) == Add(Sum(events, a), Sum(events, b))
  {
    var e, front := Last(events), Front(events);
    PartUnion(e, a, b);
    AddFour(Sum(front, a), Sum(front, b), Part(e, KeyOf(e) in a), Part(e, KeyOf(e) in b));
  }

  lemma {:induction false} SumUnion(events: seq<Event>, a: set<Key>, b: set<Key>)
    requires a !! b
    ensures Sum(events, a + b) == Add(Sum(events, a), Sum(events, b))
  {
    if events == [] {
    } else {
      SumUnion(Front(events), a, b);
      SumUnionStep(events, a, b);
    }
  }

  lemma {:induction false} SumEverything(events: seq<Event>, keys: set<Key>)
    requires forall k | 0 <= k < |events| :: KeyOf(events[k]) in keys
    ensures Sum(events, keys) == SumAll(events)
  {
    if events == [] {
    } else {
      SumEverything(Front(events), keys);
    }
  }

  lemma {:induction false} SumOfThread(events: seq<Event>, keys: set<Key>, t: Id)
    requires forall k | 0 <= k < |events| :: KeyOf(events[k]) in keys <==> events[k].thread == t
    ensures Sum(events, keys) == SumThread(events, t)
  {
    if events == [] {
    } else {
      SumOfThread(Front(events), keys, t);
    }
  }

  lemma SumNothingStep(events: seq<Event>)
    requires events != [] && Sum(Front(events), {}) == Zero()
    ensures Sum(events, {}) == Zero()
  {
  }

  lemma {:induction false} SumNothing(events: seq<Event>)
    ensures Sum(events, {}) == Zero()
  {
    if events == [] {
    } else {
      SumNothing(Front(events));
      SumNothingStep(events);
    }
  }

  // ---- How far stored costs drift -----------------------------------------------------------------------

  /** The sum of n stored costs is within n/2 micro-dollars of the exact sum. */
  lemma {:induction false} RoundingDrift(prices: map<string, Price>, events: seq<Event>)
    requires PricedWith(prices, events)
    ensures -50 * |events| <= SumExact(prices, events) - 100 * SumAll(events).micro <= 50 * |events|
  {
    if events == [] {
    } else {
      RoundingDrift(prices, Front(events));
      assert Last(events) == events[|events| - 1];
    }
  }

  lemma SnocSums(prices: map<string, Price>, events: seq<Event>, e: Event)
    ensures SumAll(events + [e]) == Add(SumAll(events), Tally(e.usage, e.micro))
    ensures SumExact(prices, events + [e]) == SumExact(prices, events) + ModelCost(prices, e.model, e.usage)
  {
    assert Front(events + [e]) == events;
  }

  /** The bound is met: an event of half a micro-dollar is stored as a whole one. */
  lemma {:induction false} DriftIsMet(n: nat) returns (events: seq<Event>)
    ensures var prices := map["model" := Price(50, 0, 0, 0)];
            && |events| == n && PricedWith(prices, events)
            && SumExact(prices, events) - 100 * SumAll(events).micro == -50 * n
  {
    events := [];
    if n == 0 {
    } else {
      events := DriftIsMet(n - 1);
      var e := Event(0, 0, "model", Usage(1, 0, 0, 0), 1);
      SnocSums(map["model" := Price(50, 0, 0, 0)], events, e);
      events := events + [e];
    }
  }

  lemma {:induction false} OneModelIsLinear(prices: map<string, Price>, events: seq<Event>, model: string)
    requires model in prices && forall k | 0 <= k < |events| :: events[k].model == model
    ensures SumExact(prices, events) == Cost(prices[model], SumAll(events).usage)
  {
    if events == [] {
    } else {
      OneModelIsLinear(prices, Front(events), model);
      CostIsLinear(prices[model], SumAll(Front(events)).usage, Last(events).usage);
    }
  }

  /**
   * For a user of one model, pricing the total token mix with that model gives the recorded spend, up to half a
   * micro-dollar per event.
   */
  lemma WhatIfAgreesWithSpend(prices: map<string, Price>, events: seq<Event>, model: string)
    requires PricedWith(prices, events) && model in prices
    requires forall k | 0 <= k < |events| :: events[k].model == model
    ensures var total := SumAll(events);
            -50 * |events| <= Cost(prices[model], total.usage) - 100 * total.micro <= 50 * |events|
  {
    RoundingDrift(prices, events);
    OneModelIsLinear(prices, events, model);
  }

  // ---- Cache savings ----------------------------------------------------------------------------------------

  /** Reads are billed at the cache price instead of the input price; writes cost a premium. */
  function Saved(p: Price, u: Usage): (s: int) {
    u.cacheRead * (p.input - p.cacheRead) - u.cacheWrite * (p.cacheWrite - p.input)
  }

  /** The same tokens without a cache. */
  function Uncached(u: Usage): (r: Usage) {
    Usage(u.input + u.cacheRead + u.cacheWrite, u.output, 0, 0)
  }

  function SumSaved(prices: map<string, Price>, events: seq<Event>, keys: set<Key>): (s: int) {
    if events == [] then 0
    else
      var e := Last(events);
      SumSaved(prices, Front(events), keys)
      + (if KeyOf(e) in keys && e.model in prices
         then Cost(prices[e.model], Uncached(e.usage)) - Cost(prices[e.model], e.usage) else 0)
  }

  /** What caching saved is the price of the same tokens without a cache, less the price paid. */
  lemma SavedIsDifference(p: Price, u: Usage)
    ensures Saved(p, u) == Cost(p, Uncached(u)) - Cost(p, u)
    ensures Cost(p, Uncached(u)) == (u.input + u.cacheRead + u.cacheWrite) * p.input + u.output * p.output
  {
    Distribute(u.input + u.cacheRead, u.cacheWrite, p.input);
    Distribute(u.input, u.cacheRead, p.input);
    assert u.cacheRead * (p.input - p.cacheRead) == u.cacheRead * p.input - u.cacheRead * p.cacheRead;
    assert u.cacheWrite * (p.cacheWrite - p.input) == u.cacheWrite * p.cacheWrite - u.cacheWrite * p.input;
  }

  lemma SavedIsLinear(p: Price, a: Usage, b: Usage)
    ensures Saved(p, Plus(a, b)) == Saved(p, a) + Saved(p, b)
  {
    SavedIsDifference(p, a);
    SavedIsDifference(p, b);
    SavedIsDifference(p, Plus(a, b));
    CostIsLinear(p, a, b);
    CostIsLinear(p, Uncached(a), Uncached(b));
    assert Uncached(Plus(a, b)) == Plus(Uncached(a), Uncached(b));
  }

  /** Pricing a group's token sums saves what its events saved. */
  lemma {:induction false} GroupSaved(prices: map<string, Price>, events: seq<Event>, k: Key)
    ensures SumSaved(prices, events, {k}) == if k.1 in prices then Saved(prices[k.1], Sum(events, {k}).usage) else 0
  {
    if events == [] {
    } else {
      GroupSaved(prices, Front(events), k);
      var e := Last(events);
      if KeyOf(e) == k && k.1 in prices {
        SavedIsLinear(prices[k.1], Sum(Front(events), {k}).usage, e.usage);
        SavedIsDifference(prices[k.1], e.usage);
      }
    }
  }

  lemma {:induction false} SavedUnion(prices: map<string, Price>, events: seq<Event>, a: set<Key>, b: set<Key>)
    requires a !! b
    ensures SumSaved(prices, events, a + b) == SumSaved(prices, events, a) + SumSaved(prices, events, b)
  {
    if events == [] {
    } else {
      SavedUnion(prices, Front(events), a, b);
    }
  }

  lemma {:induction false} SavedNothing(prices: map<string, Price>, events: seq<Event>)
    ensures SumSaved(prices, events, {}) == 0
  {
    if events == [] {
    } else {
      SavedNothing(prices, Front(events));
    }
  }

  // ---- Distinct runs --------------------------------------------------------------------------------------

  function RunsIn(events: seq<Event>, keys: set<Key>): (rs: set<Id>) {
    set k | 0 <= k < |events| && KeyOf(events[k]) in keys :: events[k].run
  }

  /** A run belongs to one thread and uses one model. */
  ghost predicate OneGroupPerRun(events: seq<Event>) {
    forall j, k | 0 <= j < |events| && 0 <= k < |events| && events[j].run == events[k].run ::
      KeyOf(events[j]) == KeyOf(events[k])
  }

  lemma RunsUnion(events: seq<Event>, a: set<Key>, b: set<Key>)
    requires a !! b && OneGroupPerRun(events)
    ensures |RunsIn(events, a + b)| == |RunsIn(events, a)| + |RunsIn(events, b)|
  {
    var ra, rb := RunsIn(events, a), RunsIn(events, b);
    assert ra !! rb;
    assert RunsIn(events, a + b) == ra + rb;
  }
}
