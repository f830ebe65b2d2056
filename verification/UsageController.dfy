// The usage table and the statistics page: groups from the database folded into threads, then into totals.
module UsageController {
  import opened Prelude
  import opened RunSteps
  import opened Pricing
  import opened Metering

  class UsageService {
    const prices: map<string, Price>
    var events: seq<Event>

    constructor (prices: map<string, Price>)
      ensures this.prices == prices && events == []
    {
      this.prices, events := prices, [];
    }

    /** Writes the rounded cost and returns the exact one. */
    method Record(thread: Id, run: Id, model: string, usage: Usage) returns (cost: nat)
      modifies this`events
      ensures cost == ModelCost(prices, model, usage)
      ensures model in prices ==>
                var p := prices[model];
                cost == usage.input * p.input + usage.output * p.output
                        + usage.cacheRead * p.cacheRead + usage.cacheWrite * p.cacheWrite
      ensures model !in prices ==> cost == 0
      ensures events == old(events) + [Event(thread, run, model, usage, Stored(cost))]
      ensures old(PricedWith(prices, events)) ==> PricedWith(prices, events)
    {
      cost := ModelCost(prices, model, usage);
      events := events + [Event(thread, run, model, usage, Stored(cost))];
    }

    method ThreadCost(thread: Id) returns (micro: nat)
      ensures micro == SumThread(events, thread).micro
    {
      micro := 0;
      for k := 0 to |events|
        invariant micro == SumThread(events[..k], thread).micro
      {
        assert Front(events[..k + 1]) == events[..k];
        if events[k].thread == thread { micro := micro + events[k].micro; }
      }
      assert events[..|events|] == events;
    }
  }

  // ---- Groups -------------------------------------------------------------------------------------

  /** A row of GROUP BY thread, model. */
  datatype Group = Group(key: Key, runs: nat, sums: Tally)

  function Keys(groups: seq<Group>): (ks: set<Key>) {
    set i | 0 <= i < |groups| :: groups[i].key
  }

  /** One row per thread and model in use, in any order. */
  ghost predicate IsGroupBy(groups: seq<Group>, events: seq<Event>) {
    && (forall i, j | 0 <= i < j < |groups| :: groups[i].key != groups[j].key)
    && (forall k | 0 <= k < |events| :: KeyOf(events[k]) in Keys(groups))
    && (forall i | 0 <= i < |groups| ::
          groups[i].sums == Sum(events, {groups[i].key}) && groups[i].runs == |RunsIn(events, {groups[i].key})|)
  }

  /** Keys of the given threads. */
  function KeysOf(groups: seq<Group>, threads: set<Id>): (ks: set<Key>) {
    set i | 0 <= i < |groups| && groups[i].key.0 in threads :: groups[i].key
  }

  function ModelsOf(groups: seq<Group>, t: Id): (ms: seq<string>) {
    if groups == [] then []
    else ModelsOf(Front(groups), t) + (if Last(groups).key.0 == t then [Last(groups).key.1] else [])
  }

  /** Runs, token and cost sums, and what caching saved. */
  datatype Totals = Totals(runs: nat, sums: Tally, saved: int)

  function NoTotals(): (t: Totals) {
    Totals(0, Zero(), 0)
  }

  function PlusTotals(a: Totals, b: Totals): (t: Totals) {
    Totals(a.runs + b.runs, Add(a.sums, b.sums), a.saved + b.saved)
  }

  /** The record of one thread. */
  datatype Roll = Roll(thread: Id, models: seq<string>, figures: Totals)

  /** The figures are those of the events in the groups of `keys`. */
  ghost predicate Figures(prices: map<string, Price>, events: seq<Event>, keys: set<Key>, t: Totals) {
    && t.sums == Sum(events, keys)
    && t.saved == SumSaved(prices, events, keys)
    && (OneGroupPerRun(events) ==> t.runs == |RunsIn(events, keys)|)
  }

  lemma NoFigures(prices: map<string, Price>, events: seq<Event>)
    ensures Figures(prices, events, {}, NoTotals())
  {
    SumNothing(events);
    SavedNothing(prices, events);
    assert RunsIn(events, {}) == {};
  }

  lemma AddSums(events: seq<Event>, a: set<Key>, b: set<Key>, all: set<Key>, x: Tally, y: Tally)
    requires a !! b && all == a + b && x == Sum(events, a) && y == Sum(events, b)
    ensures Add(x, y) == Sum(events, all)
  {
    SumUnion(events, a, b);
  }

  lemma AddSavings(prices: map<string, Price>, events: seq<Event>, a: set<Key>, b: set<Key>, all: set<Key>)
    requires a !! b && all == a + b
    ensures SumSaved(prices, events, all) == SumSaved(prices, events, a) + SumSaved(prices, events, b)
  {
    SavedUnion(prices, events, a, b);
  }

  lemma AddRuns(events: seq<Event>, a: set<Key>, b: set<Key>, all: set<Key>)
    requires a !! b && all == a + b
    ensures OneGroupPerRun(events) ==> |RunsIn(events, all)| == |RunsIn(events, a)| + |RunsIn(events, b)|
  {
    if OneGroupPerRun(events) {
      RunsUnion(events, a, b);
    }
  }

  lemma PlusSums(prices: map<string, Price>, events: seq<Event>, a: set<Key>, b: set<Key>, all: set<Key>,
                 t: Totals, u: Totals)
    requires a !! b && all == a + b
    requires Figures(prices, events, a, t) && Figures(prices, events, b, u)
    ensures PlusTotals(t, u).sums == Sum(events, all)
  {
    AddSums(events, a, b, all, t.sums, u.sums);
  }

  lemma PlusSaved(prices: map<string, Price>, events: seq<Event>, a: set<Key>, b: set<Key>, all: set<Key>,
                  t: Totals, u: Totals)
    requires a !! b && all == a + b
    requires Figures(prices, events, a, t) && Figures(prices, events, b, u)
    ensures PlusTotals(t, u).saved == SumSaved(prices, events, all)
  {
    AddSavings(prices, events, a, b, all);
  }

  lemma PlusRuns(prices: map<string, Price>, events: seq<Event>, a: set<Key>, b: set<Key>, all: set<Key>,
                 t: Totals, u: Totals)
    requires a !! b && all == a + b
    requires Figures(prices, events, a, t) && Figures(prices, events, b, u)
    ensures OneGroupPerRun(events) ==> PlusTotals(t, u).runs == |RunsIn(events, all)|
  {
    AddRuns(events, a, b, all);
  }

  lemma AddFigures(prices: map<string, Price>, events: seq<Event>, a: set<Key>, b: set<Key>, all: set<Key>,
                   t: Totals, u: Totals)
    requires a !! b && all == a + b
    requires Figures(prices, events, a, t) && Figures(prices, events, b, u)
    ensures Figures(prices, events, all, PlusTotals(t, u))
  {
    PlusSums(prices, events, a, b, all, t, u);
    PlusSaved(prices, events, a, b, all, t, u);
    PlusRuns(prices, events, a, b, all, t, u);
  }

  function GroupSaving(prices: map<string, Price>, g: Group): (s: int) {
    if g.key.1 in prices then Saved(prices[g.key.1], g.sums.usage) else 0
  }

  function GroupTotals(prices: map<string, Price>, g: Group): (t: Totals) {
    Totals(g.runs, g.sums, GroupSaving(prices, g))
  }

  lemma GroupFigures(prices: map<string, Price>, events: seq<Event>, groups: seq<Group>, i: nat)
    requires IsGroupBy(groups, events) && i < |groups|
    ensures Figures(prices, events, {groups[i].key}, GroupTotals(prices, groups[i]))
  {
    GroupSaved(prices, events, groups[i].key);
  }

  /** The models of a thread's record: those of its groups, each once. */
  lemma {:induction false} ModelsAre(groups: seq<Group>, t: Id)
    requires forall i, j | 0 <= i < j < |groups| :: groups[i].key != groups[j].key
    ensures forall m :: m in ModelsOf(groups, t) <==> (t, m) in Keys(groups)
    ensures Distinct(ModelsOf(groups, t))
  {
    if groups == [] {
    } else {
      var front, last := Front(groups), Last(groups);
      assert forall i | 0 <= i < |front| :: front[i] == groups[i];
      ModelsAre(front, t);
      forall k: Key ensures k in Keys(groups) <==> k in Keys(front) || k == last.key {
        if k in Keys(front) {
          var i :| 0 <= i < |front| && front[i].key == k;
          assert groups[i].key == k;
        }
        assert groups[|front|].key == last.key;
      }
      assert last.key !in Keys(front);
    }
  }

  // ---- Per thread ----------------------------------------------------------------------------------

  ghost predicate RollOk(prices: map<string, Price>, events: seq<Event>, groups: seq<Group>, r: Roll) {
    && r.models == ModelsOf(groups, r.thread)
    && Figures(prices, events, KeysOf(groups, {r.thread}), r.figures)
  }

  lemma NextKeys(groups: seq<Group>, k: nat, threads: set<Id>)
    requires k < |groups|
    ensures KeysOf(groups[..k + 1], threads) ==
              KeysOf(groups[..k], threads) + (if groups[k].key.0 in threads then {groups[k].key} else {})
  {
    var before, after := groups[..k], groups[..k + 1];
    forall key ensures key in KeysOf(after, threads) <==>
                         key in KeysOf(before, threads) || (key == groups[k].key && key.0 in threads)
    {
      if key in KeysOf(before, threads) {
        var i :| 0 <= i < k && before[i].key == key;
        assert after[i].key == key;
      }
      if key == groups[k].key && key.0 in threads {
        assert after[k].key == key;
      }
    }
  }

  lemma NextModels(groups: seq<Group>, k: nat, t: Id)
    requires k < |groups|
    ensures ModelsOf(groups[..k + 1], t) ==
              ModelsOf(groups[..k], t) + (if groups[k].key.0 == t then [groups[k].key.1] else [])
  {
    assert Front(groups[..k + 1]) == groups[..k];
  }

  lemma FreshKey(groups: seq<Group>, k: nat, threads: set<Id>)
    requires k < |groups| && forall i, j | 0 <= i < j < |groups| :: groups[i].key != groups[j].key
    ensures groups[k].key !in KeysOf(groups[..k], threads)
  {
  }

  /** One more group of the thread adds its key and its model. */
  lemma NextOfThread(groups: seq<Group>, k: nat, t: Id)
    requires k < |groups| && t == groups[k].key.0
    requires forall i, j | 0 <= i < j < |groups| :: groups[i].key != groups[j].key
    ensures KeysOf(groups[..k + 1], {t}) == KeysOf(groups[..k], {t}) + {groups[k].key}
    ensures KeysOf(groups[..k], {t}) !! {groups[k].key}
    ensures ModelsOf(groups[..k + 1], t) == ModelsOf(groups[..k], t) + [groups[k].key.1]
  {
    NextKeys(groups, k, {t});
    NextModels(groups, k, t);
    FreshKey(groups, k, {t});
  }

  /** Folds one group into its thread, which may be new. */
  lemma FoldOne(prices: map<string, Price>, events: seq<Event>, groups: seq<Group>, k: nat, r: Roll)
    requires IsGroupBy(groups, events) && k < |groups| && r.thread == groups[k].key.0
    requires RollOk(prices, events, groups[..k], r)
    ensures RollOk(prices, events, groups[..k + 1], Folded(prices, r, groups[k]))
  {
    var g := groups[k];
    NextOfThread(groups, k, r.thread);
    GroupFigures(prices, events, groups, k);
    AddFigures(prices, events, KeysOf(groups[..k], {r.thread}), {g.key}, KeysOf(groups[..k + 1], {r.thread}),
               r.figures, GroupTotals(prices, g));
  }

  lemma SkipOne(prices: map<string, Price>, events: seq<Event>, groups: seq<Group>, k: nat, r: Roll)
    requires k < |groups| && r.thread != groups[k].key.0 && RollOk(prices, events, groups[..k], r)
    ensures RollOk(prices, events, groups[..k + 1], r)
  {
    NextKeys(groups, k, {r.thread});
    NextModels(groups, k, r.thread);
    ConcatNothing(ModelsOf(groups[..k], r.thread));
    assert KeysOf(groups[..k + 1], {r.thread}) == KeysOf(groups[..k], {r.thread});
  }

  lemma NewRoll(prices: map<string, Price>, events: seq<Event>, groups: seq<Group>, t: Id)
    requires forall i | 0 <= i < |groups| :: groups[i].key.0 != t
    ensures RollOk(prices, events, groups, Roll(t, [], NoTotals()))
  {
    assert KeysOf(groups, {t}) == {};
    NoFigures(prices, events);
    NoModels(groups, t);
  }

  lemma {:induction false} NoModels(groups: seq<Group>, t: Id)
    requires forall i | 0 <= i < |groups| :: groups[i].key.0 != t
    ensures ModelsOf(groups, t) == []
  {
    if groups == [] {
    } else {
      NoModels(Front(groups), t);
    }
  }

  /** Exactly the threads of the groups, each folded from its groups. */
  ghost predicate RollsOk(prices: map<string, Price>, events: seq<Event>, groups: seq<Group>, threads: map<Id, Roll>) {
    && (forall i | 0 <= i < |groups| :: groups[i].key.0 in threads)
    && (forall t | t in threads :: threads[t].thread == t && RollOk(prices, events, groups, threads[t]))
  }

  function Folded(prices: map<string, Price>, r: Roll, g: Group): (r': Roll) {
    Roll(r.thread, r.models + [g.key.1], PlusTotals(r.figures, GroupTotals(prices, g)))
  }

  lemma StartOrGoOn(prices: map<string, Price>, events: seq<Event>, groups: seq<Group>, threads: map<Id, Roll>, t: Id)
    requires RollsOk(prices, events, groups, threads)
    ensures RollOk(prices, events, groups, if t in threads then threads[t] else Roll(t, [], NoTotals()))
  {
    if t !in threads {
      NewRoll(prices, events, groups, t);
    }
  }

  lemma FoldStep(prices: map<string, Price>, events: seq<Event>, groups: seq<Group>, k: nat,
                 threads: map<Id, Roll>, r: Roll)
    requires IsGroupBy(groups, events) && k < |groups| && RollsOk(prices, events, groups[..k], threads)
    requires r.thread == groups[k].key.0 && RollOk(prices, events, groups[..k + 1], r)
    ensures RollsOk(prices, events, groups[..k + 1], threads[groups[k].key.0 := r])
  {
    assert forall i | 0 <= i < k :: groups[..k][i] == groups[i];
    forall u | u in threads && u != r.thread ensures RollOk(prices, events, groups[..k + 1], threads[u]) {
      SkipOne(prices, events, groups, k, threads[u]);
    }
  }

  /** A map that remembers the order of insertion. */
  datatype ThreadsMap = ThreadsMap(order: seq<Id>, rolls: map<Id, Roll>)

  function Current(m: ThreadsMap, t: Id): (r: Roll) {
    if t in m.rolls then m.rolls[t] else Roll(t, [], NoTotals())
  }

  function Put(m: ThreadsMap, t: Id, r: Roll): (m': ThreadsMap) {
    ThreadsMap(if t in m.rolls then m.order else m.order + [t], m.rolls[t := r])
  }

  function FoldGroups(prices: map<string, Price>, groups: seq<Group>): (m: ThreadsMap) {
    if groups == [] then ThreadsMap([], map[])
    else
      var m, g := FoldGroups(prices, Front(groups)), Last(groups);
      Put(m, g.key.0, Folded(prices, Current(m, g.key.0), g))
  }

  method RollUp(prices: map<string, Price>, groups: seq<Group>) returns (m: ThreadsMap)
    ensures m == FoldGroups(prices, groups)
  {
    m := ThreadsMap([], map[]);
    for k := 0 to |groups|
      invariant m == FoldGroups(prices, groups[..k])
    {
      assert Front(groups[..k + 1]) == groups[..k];
      var g := groups[k];
      var t := Current(m, g.key.0);
      m := Put(m, g.key.0, Folded(prices, t, g));
    }
    assert groups[..|groups|] == groups;
  }

  ghost predicate OrderOk(m: ThreadsMap) {
    Distinct(m.order) && forall t :: t in m.order <==> t in m.rolls
  }

  lemma {:induction false} FoldOrder(prices: map<string, Price>, groups: seq<Group>)
    ensures OrderOk(FoldGroups(prices, groups))
  {
    if groups == [] {
    } else {
      FoldOrder(prices, Front(groups));
    }
  }

  lemma FoldNext(prices: map<string, Price>, events: seq<Event>, groups: seq<Group>, k: nat, m: ThreadsMap)
    requires IsGroupBy(groups, events) && k < |groups| && RollsOk(prices, events, groups[..k], m.rolls)
    ensures var t := groups[k].key.0;
            RollsOk(prices, events, groups[..k + 1], Put(m, t, Folded(prices, Current(m, t), groups[k])).rolls)
  {
    var t := groups[k].key.0;
    StartOrGoOn(prices, events, groups[..k], m.rolls, t);
    FoldOne(prices, events, groups, k, Current(m, t));
    FoldStep(prices, events, groups, k, m.rolls, Folded(prices, Current(m, t), groups[k]));
  }

  lemma FoldGroupsNext(prices: map<string, Price>, groups: seq<Group>, k: nat)
    requires k < |groups|
    ensures var m, t := FoldGroups(prices, groups[..k]), groups[k].key.0;
            FoldGroups(prices, groups[..k + 1]) == Put(m, t, Folded(prices, Current(m, t), groups[k]))
  {
    assert Front(groups[..k + 1]) == groups[..k];
  }

  lemma {:induction false} FoldRolls(prices: map<string, Price>, events: seq<Event>, groups: seq<Group>, k: nat)
    requires IsGroupBy(groups, events) && k <= |groups|
    ensures RollsOk(prices, events, groups[..k], FoldGroups(prices, groups[..k]).rolls)
  {
    if k == 0 {
    } else {
      FoldRolls(prices, events, groups, k - 1);
      FoldNext(prices, events, groups, k - 1, FoldGroups(prices, groups[..k - 1]));
      FoldGroupsNext(prices, groups, k - 1);
    }
  }

  /** The values of the map, in order of insertion. */
  function Values(m: ThreadsMap): (rs: seq<Roll>)
    requires forall t | t in m.order :: t in m.rolls
    ensures |rs| == |m.order| && forall i | 0 <= i < |rs| :: rs[i] == m.rolls[m.order[i]]
  {
    seq(|m.order|, i requires 0 <= i < |m.order| => m.rolls[m.order[i]])
  }

  lemma ValuesOk(prices: map<string, Price>, events: seq<Event>, groups: seq<Group>, m: ThreadsMap)
    requires OrderOk(m) && RollsOk(prices, events, groups, m.rolls)
    ensures DistinctThreads(Values(m))
    ensures forall r | r in Values(m) :: RollOk(prices, events, groups, r)
    ensures forall i | 0 <= i < |groups| :: groups[i].key.0 in ThreadsIn(Values(m))
  {
    var rs := Values(m);
    forall i | 0 <= i < |groups| ensures groups[i].key.0 in ThreadsIn(rs) {
      var t := groups[i].key.0;
      assert t in m.rolls && t in m.order;
      var j :| 0 <= j < |m.order| && m.order[j] == t;
      assert rs[j].thread == t;
    }
  }

  // ---- Sorting and totals ---------------------------------------------------------------------------

  function InsertByCost(r: Roll, rs: seq<Roll>): (s: seq<Roll>)
    ensures |s| == |rs| + 1 && (forall x :: x in s <==> x == r || x in rs)
  {
    if rs == [] then [r]
    else if rs[0].figures.sums.micro < r.figures.sums.micro then [r] + rs
    else [rs[0]] + InsertByCost(r, rs[1..])
  }

  /** Dearest thread first, ties in their old order. */
  function SortByCost(rs: seq<Roll>): (s: seq<Roll>)
    ensures |s| == |rs| && (forall x :: x in s <==> x in rs)
  {
    if rs == [] then [] else InsertByCost(Last(rs), SortByCost(Front(rs)))
  }

  ghost predicate DistinctThreads(rs: seq<Roll>) {
    forall i, j | 0 <= i < j < |rs| :: rs[i].thread != rs[j].thread
  }

  ghost predicate DearestFirst(rs: seq<Roll>) {
    forall i, j | 0 <= i < j < |rs| :: rs[i].figures.sums.micro >= rs[j].figures.sums.micro
  }

  lemma ConsKeepsOrder(first: Roll, tail: seq<Roll>)
    requires DearestFirst(tail) && DistinctThreads(tail)
    requires forall x | x in tail :: x.figures.sums.micro <= first.figures.sums.micro && x.thread != first.thread
    ensures DearestFirst([first] + tail) && DistinctThreads([first] + tail)
  {
  }

  lemma HeadIsDearest(rs: seq<Roll>)
    requires rs != [] && DearestFirst(rs) && DistinctThreads(rs)
    ensures DearestFirst(rs[1..]) && DistinctThreads(rs[1..])
    ensures forall x | x in rs[1..] ::
              x.figures.sums.micro <= rs[0].figures.sums.micro && x.thread != rs[0].thread && x in rs
  {
    forall x | x in rs[1..]
      ensures x.figures.sums.micro <= rs[0].figures.sums.micro && x.thread != rs[0].thread && x in rs
    {
      var k :| 0 <= k < |rs[1..]| && rs[1..][k] == x;
      assert rs[k + 1] == x;
    }
  }

  lemma {:induction false} InsertKeepsOrder(r: Roll, rs: seq<Roll>)
    requires DearestFirst(rs) && DistinctThreads(rs) && forall x | x in rs :: x.thread != r.thread
    ensures DearestFirst(InsertByCost(r, rs)) && DistinctThreads(InsertByCost(r, rs))
  {
    if rs == [] {
    } else {
      HeadIsDearest(rs);
      if rs[0].figures.sums.micro < r.figures.sums.micro {
        assert forall x | x in rs :: x == rs[0] || x in rs[1..];
        ConsKeepsOrder(r, rs);
      } else {
        InsertKeepsOrder(r, rs[1..]);
        assert rs[0] in rs;
        ConsKeepsOrder(rs[0], InsertByCost(r, rs[1..]));
      }
    }
  }

  lemma {:induction false} SortSorts(rs: seq<Roll>)
    requires DistinctThreads(rs)
    ensures DearestFirst(SortByCost(rs)) && DistinctThreads(SortByCost(rs))
  {
    if rs == [] {
    } else {
      SortSorts(Front(rs));
      forall x | x in Front(rs) ensures x.thread != Last(rs).thread {
        var k :| 0 <= k < |Front(rs)| && Front(rs)[k] == x;
        assert rs[k] == x;
      }
      InsertKeepsOrder(Last(rs), SortByCost(Front(rs)));
    }
  }

  /** The records of one cost, in order. */
  function OfCost(rs: seq<Roll>, micro: nat): (r: seq<Roll>) {
    if rs == [] then []
    else (if rs[0].figures.sums.micro == micro then [rs[0]] else []) + OfCost(rs[1..], micro)
  }

  lemma {:induction false} InsertIsStable(r: Roll, rs: seq<Roll>, micro: nat)
    requires DearestFirst(rs)
    ensures OfCost(InsertByCost(r, rs), micro) ==
              OfCost(rs, micro) + (if r.figures.sums.micro == micro then [r] else [])
  {
    if rs == [] {
    } else if rs[0].figures.sums.micro < r.figures.sums.micro {
      NoneDearer(rs, r.figures.sums.micro);
      assert ([r] + rs)[1..] == rs;
    } else {
      var tail := InsertByCost(r, rs[1..]);
      InsertIsStable(r, rs[1..], micro);
      assert ([rs[0]] + tail)[1..] == tail;
    }
  }

  lemma {:induction false} NoneDearer(rs: seq<Roll>, micro: nat)
    requires forall k | 0 <= k < |rs| :: rs[k].figures.sums.micro < micro
    ensures OfCost(rs, micro) == []
  {
    if rs == [] {
    } else {
      NoneDearer(rs[1..], micro);
    }
  }

  lemma {:induction false} OfCostSnoc(rs: seq<Roll>, r: Roll, micro: nat)
    ensures OfCost(rs + [r], micro) == OfCost(rs, micro) + (if r.figures.sums.micro == micro then [r] else [])
  {
    if rs == [] {
      assert [] + [r] == [r];
      assert [r][1..] == [];
    } else {
      OfCostSnoc(rs[1..], r, micro);
      assert (rs + [r])[1..] == rs[1..] + [r];
    }
  }

  /** Threads of one cost keep their order. */
  lemma {:induction false} SortIsStable(rs: seq<Roll>, micro: nat)
    requires DistinctThreads(rs)
    ensures OfCost(SortByCost(rs), micro) == OfCost(rs, micro)
  {
    if rs == [] {
    } else {
      SortIsStable(Front(rs), micro);
      SortSorts(Front(rs));
      InsertIsStable(Last(rs), SortByCost(Front(rs)), micro);
      OfCostSnoc(Front(rs), Last(rs), micro);
      FrontAndLast(rs);
    }
  }

  function ThreadsIn(rs: seq<Roll>): (ts: set<Id>) {
    set i | 0 <= i < |rs| :: rs[i].thread
  }

  lemma OneMoreThread(groups: seq<Group>, ts: set<Id>, t: Id)
    requires t !in ts
    ensures KeysOf(groups, ts + {t}) == KeysOf(groups, ts) + KeysOf(groups, {t})
    ensures KeysOf(groups, ts) !! KeysOf(groups, {t})
  {
  }

  ghost predicate TotalsOk(prices: map<string, Price>, events: seq<Event>, groups: seq<Group>,
                           rolls: seq<Roll>, t: Totals)
  {
    Figures(prices, events, KeysOf(groups, ThreadsIn(rolls)), t)
  }

  lemma OneMoreRoll(groups: seq<Group>, before: seq<Roll>, r: Roll)
    requires forall i | 0 <= i < |before| :: before[i].thread != r.thread
    ensures KeysOf(groups, ThreadsIn(before + [r])) == KeysOf(groups, ThreadsIn(before)) + KeysOf(groups, {r.thread})
    ensures KeysOf(groups, ThreadsIn(before)) !! KeysOf(groups, {r.thread})
  {
    var all := before + [r];
    assert ThreadsIn(all) == ThreadsIn(before) + {r.thread} by {
      assert forall i | 0 <= i < |before| :: all[i] == before[i];
      assert all[|before|] == r;
    }
    OneMoreThread(groups, ThreadsIn(before), r.thread);
  }

  lemma SumStep(prices: map<string, Price>, events: seq<Event>, groups: seq<Group>,
                before: seq<Roll>, r: Roll, t: Totals)
    requires TotalsOk(prices, events, groups, before, t) && RollOk(prices, events, groups, r)
    requires forall i | 0 <= i < |before| :: before[i].thread != r.thread
    ensures TotalsOk(prices, events, groups, before + [r], PlusTotals(t, r.figures))
  {
    OneMoreRoll(groups, before, r);
    AddFigures(prices, events, KeysOf(groups, ThreadsIn(before)), KeysOf(groups, {r.thread}),
               KeysOf(groups, ThreadsIn(before + [r])), t, r.figures);
  }

  function FoldRollsUp(rolls: seq<Roll>): (t: Totals) {
    if rolls == [] then NoTotals() else PlusTotals(FoldRollsUp(Front(rolls)), Last(rolls).figures)
  }

  method SumUp(rolls: seq<Roll>) returns (totals: Totals)
    ensures totals == FoldRollsUp(rolls)
  {
    totals := NoTotals();
    for k := 0 to |rolls|
      invariant totals == FoldRollsUp(rolls[..k])
    {
      assert Front(rolls[..k + 1]) == rolls[..k];
      totals := PlusTotals(totals, rolls[k].figures);
    }
    assert rolls[..|rolls|] == rolls;
  }

  lemma SumsNothing(prices: map<string, Price>, events: seq<Event>, groups: seq<Group>)
    ensures TotalsOk(prices, events, groups, [], FoldRollsUp([]))
  {
    NoFigures(prices, events);
    assert KeysOf(groups, ThreadsIn([])) == {};
  }

  lemma SumsOneMore(prices: map<string, Price>, events: seq<Event>, groups: seq<Group>, rolls: seq<Roll>)
    requires rolls != [] && DistinctThreads(rolls) && RollOk(prices, events, groups, Last(rolls))
    requires TotalsOk(prices, events, groups, Front(rolls), FoldRollsUp(Front(rolls)))
    ensures TotalsOk(prices, events, groups, rolls, FoldRollsUp(rolls))
  {
    SumStep(prices, events, groups, Front(rolls), Last(rolls), FoldRollsUp(Front(rolls)));
    FrontAndLast(rolls);
  }

  lemma {:induction false} SumsUp(prices: map<string, Price>, events: seq<Event>, groups: seq<Group>, rolls: seq<Roll>)
    requires DistinctThreads(rolls) && forall k | 0 <= k < |rolls| :: RollOk(prices, events, groups, rolls[k])
    ensures TotalsOk(prices, events, groups, rolls, FoldRollsUp(rolls))
  {
    if rolls == [] {
      SumsNothing(prices, events, groups);
    } else {
      SumsUp(prices, events, groups, Front(rolls));
      SumsOneMore(prices, events, groups, rolls);
    }
  }

  function AllRuns(events: seq<Event>): (rs: set<Id>) {
    set k | 0 <= k < |events| :: events[k].run
  }

  function RunsOfThread(events: seq<Event>, t: Id): (rs: set<Id>) {
    set k | 0 <= k < |events| && events[k].thread == t :: events[k].run
  }

  lemma ThreadFigures(prices: map<string, Price>, events: seq<Event>, groups: seq<Group>, r: Roll)
    requires IsGroupBy(groups, events) && RollOk(prices, events, groups, r)
    ensures r.figures.sums == SumThread(events, r.thread)
    ensures OneGroupPerRun(events) ==> r.figures.runs == |RunsOfThread(events, r.thread)|
  {
    var keys := KeysOf(groups, {r.thread});
    forall k | 0 <= k < |events| ensures KeyOf(events[k]) in keys <==> events[k].thread == r.thread {
      assert KeyOf(events[k]) in Keys(groups);
    }
    SumOfThread(events, keys, r.thread);
    assert RunsIn(events, keys) == RunsOfThread(events, r.thread);
  }

  /** What the page says of one thread. */
  ghost predicate ThreadTrue(prices: map<string, Price>, events: seq<Event>, groups: seq<Group>, r: Roll) {
    && r.figures.sums == SumThread(events, r.thread)
    && r.models == ModelsOf(groups, r.thread)
    && r.figures.saved == SumSaved(prices, events, KeysOf(groups, {r.thread}))
    && (OneGroupPerRun(events) ==> r.figures.runs == |RunsOfThread(events, r.thread)|)
  }

  /** What the page says in total. */
  ghost predicate TotalsTrue(prices: map<string, Price>, events: seq<Event>, groups: seq<Group>, t: Totals) {
    && t.sums == SumAll(events)
    && t.saved == SumSaved(prices, events, Keys(groups))
    && (OneGroupPerRun(events) ==> t.runs == |AllRuns(events)|)
  }

  lemma TotalFigures(prices: map<string, Price>, events: seq<Event>, groups: seq<Group>, rolls: seq<Roll>, t: Totals)
    requires IsGroupBy(groups, events) && TotalsOk(prices, events, groups, rolls, t)
    requires forall i | 0 <= i < |groups| :: groups[i].key.0 in ThreadsIn(rolls)
    ensures TotalsTrue(prices, events, groups, t)
  {
    assert KeysOf(groups, ThreadsIn(rolls)) == Keys(groups);
    SumEverything(events, Keys(groups));
    assert RunsIn(events, Keys(groups)) == AllRuns(events);
  }

  lemma SameThreads(a: seq<Roll>, b: seq<Roll>)
    requires forall x :: x in a <==> x in b
    ensures ThreadsIn(a) == ThreadsIn(b)
  {
    forall t ensures t in ThreadsIn(a) <==> t in ThreadsIn(b) {
      if i :| 0 <= i < |a| && a[i].thread == t {
        assert a[i] in b;
      }
      if i :| 0 <= i < |b| && b[i].thread == t {
        assert b[i] in a;
      }
    }
  }

  /** The token mix priced on every model. */
  function WhatIf(prices: map<string, Price>, u: Usage): (w: map<string, nat>) {
    map m | m in prices :: Cost(prices[m], u)
  }

  lemma WhatIfOfOnlyModel(prices: map<string, Price>, events: seq<Event>, m: string)
    requires m in prices && PricedWith(prices, events) && forall k | 0 <= k < |events| :: events[k].model == m
    ensures var t := SumAll(events); -50 * |events| <= WhatIf(prices, t.usage)[m] - 100 * t.micro <= 50 * |events|
  {
    WhatIfAgreesWithSpend(prices, events, m);
  }

  /** The sorted threads are folded right, and all there. */
  lemma RollsTrue(prices: map<string, Price>, events: seq<Event>, groups: seq<Group>)
    requires IsGroupBy(groups, events)
    ensures var m := FoldGroups(prices, groups);
            && OrderOk(m)
            && var threads := SortByCost(Values(m));
            && DearestFirst(threads) && DistinctThreads(threads)
            && (forall k | 0 <= k < |threads| :: RollOk(prices, events, groups, threads[k]))
            && (forall i | 0 <= i < |groups| :: groups[i].key.0 in ThreadsIn(threads))
  {
    var m := FoldGroups(prices, groups);
    FoldOrder(prices, groups);
    assert groups[..|groups|] == groups;
    FoldRolls(prices, events, groups, |groups|);
    ValuesOk(prices, events, groups, m);
    SortSorts(Values(m));
    SameThreads(SortByCost(Values(m)), Values(m));
  }

  /**
   * Grouped, folded and sorted in whatever order the rows came, the figures of a thread and the totals are those
   * of the events added directly.
   */
  method Stats(prices: map<string, Price>, groups: seq<Group>, ghost events: seq<Event>)
      returns (threads: seq<Roll>, totals: Totals, whatIf: map<string, nat>)
    requires IsGroupBy(groups, events)
    ensures DearestFirst(threads) && DistinctThreads(threads)
    ensures forall k | 0 <= k < |events| :: events[k].thread in ThreadsIn(threads)
    ensures forall r | r in threads :: ThreadTrue(prices, events, groups, r)
    ensures TotalsTrue(prices, events, groups, totals)
    ensures whatIf == WhatIf(prices, SumAll(events).usage)
    ensures whatIf.Keys == prices.Keys
    ensures forall m | m in prices ::
              var u, p := totals.sums.usage, prices[m];
              whatIf[m] == u.input * p.input + u.output * p.output
                           + u.cacheRead * p.cacheRead + u.cacheWrite * p.cacheWrite
  {
    var m := RollUp(prices, groups);
    StatsTrue(prices, events, groups);
    threads := SortByCost(Values(m));
    totals := SumUp(threads);
    whatIf := WhatIf(prices, totals.sums.usage);
  }

  lemma StatsTrue(prices: map<string, Price>, events: seq<Event>, groups: seq<Group>)
    requires IsGroupBy(groups, events)
    ensures OrderOk(FoldGroups(prices, groups))
    ensures var threads := SortByCost(Values(FoldGroups(prices, groups)));
            && DearestFirst(threads) && DistinctThreads(threads)
            && (forall k | 0 <= k < |events| :: events[k].thread in ThreadsIn(threads))
            && (forall r | r in threads :: ThreadTrue(prices, events, groups, r))
            && TotalsTrue(prices, events, groups, FoldRollsUp(threads))
  {
    RollsTrue(prices, events, groups);
    var threads := SortByCost(Values(FoldGroups(prices, groups)));
    SumsUp(prices, events, groups, threads);
    TotalFigures(prices, events, groups, threads, FoldRollsUp(threads));
    forall r | r in threads ensures ThreadTrue(prices, events, groups, r) {
      ThreadFigures(prices, events, groups, r);
    }
    forall k | 0 <= k < |events| ensures events[k].thread in ThreadsIn(threads) {
      assert KeyOf(events[k]) in Keys(groups);
    }
  }
}
