/** Native budgets over whole runs of the fleet: no token is lost or charged twice on
    its way from a response through a carry to the shared bucket. */
module CarryRun {
  import opened Text
  import opened SeTable
  import opened TokenCounters
  import opened CarryProtocol
  import opened Accounting
  import opened FleetRun

  // ---------- Conservation of tokens ----------

  /** Tokens staged for one consumer under one limit, over all engines. */
  function SumAt(es: seq<Engine>, l: Limit, id: string): nat {
    if es == [] then 0 else SumAt(es[..|es| - 1], l, id) + Staged(es[|es| - 1].table, l, id)
  }

  /** The part of it that a tick drops. */
  function Expiring(t: Table, to: nat, l: Limit, id: string): nat {
    var k := CarryKey(l.name, id);
    if k in t && t[k].expires <= to then NumberAt(t, k) else 0
  }

  function ExpiringAt(es: seq<Engine>, to: nat, l: Limit, id: string): nat {
    if es == [] then 0
    else ExpiringAt(es[..|es| - 1], to, l, id) + Expiring(es[|es| - 1].table, to, l, id)
  }

  lemma {:induction false} SumUpdate(es: seq<Engine>, i: nat, e: Engine, l: Limit, id: string)
    requires i < |es|
    ensures SumAt(es[i := e], l, id) + Staged(es[i].table, l, id) == SumAt(es, l, id) + Staged(e.table, l, id)
  {
    var n := |es| - 1;
    var updated := es[i := e];
    if i == n {
      assert updated[..n] == es[..n];
    } else {
      assert updated[..n] == es[..n][i := e];
      SumUpdate(es[..n], i, e, l, id);
    }
  }

  lemma {:induction false} SumExpire(es: seq<Engine>, to: nat, l: Limit, id: string)
    ensures SumAt(ExpireAll(es, to), l, id) + ExpiringAt(es, to, l, id) == SumAt(es, l, id)
  {
    if es != [] {
      var n := |es| - 1;
      SumExpire(es[..n], to, l, id);
      assert ExpireAll(es, to)[..n] == ExpireAll(es[..n], to);
    }
  }

  function StopOf(cfg: Config, f: Fleet, se: nat, who: Who): (at: nat)
    requires se < |f.engines|
    ensures at <= |cfg.limits|
  {
    Stop(cfg.vs, cfg.sizes, SideOf(f, se), cfg.limits, who)
  }

  function UsedIn(cfg: Config, e: Event, m: nat, id: string): nat
    requires m < |cfg.limits|
  {
    if e.Staging? then Gain(cfg.limits[m], e.who, e.usage.tokens, id) else 0
  }

  /** What a request charges through the carry of limit m: all of it, if the gate of m
      was passed. */
  function SettledIn(cfg: Config, f: Fleet, e: Event, m: nat, id: string): nat
    requires Fits(f, e) && m < |cfg.limits|
  {
    if e.Gates? && KeyId(cfg.limits[m], e.who) == id && cfg.limits[m].native && m < StopOf(cfg, f, e.se, e.who)
    then Staged(f.engines[e.se].table, cfg.limits[m], id) else 0
  }

  function ExpiredIn(cfg: Config, f: Fleet, e: Event, m: nat, id: string): nat
    requires m < |cfg.limits|
  {
    if e.Tick? then ExpiringAt(f.engines, e.to, cfg.limits[m], id) else 0
  }

  /** Totals over the first n steps of a run: tokens used by responses, charged to
      the limiter through the carry, and dropped with an expired carry. */
  datatype Totals = Totals(used: nat, settled: nat, expired: nat)

  function TotalsAt(cfg: Config, states: seq<Fleet>, events: seq<Event>, n: nat, m: nat, id: string): Totals
    requires n <= |events| < |states| && m < |cfg.limits|
    requires forall i | 0 <= i < n :: Fits(states[i], events[i])
  {
    if n == 0 then Totals(0, 0, 0)
    else
      var before := TotalsAt(cfg, states, events, n - 1, m, id);
      var f, e := states[n - 1], events[n - 1];
      Totals(before.used + UsedIn(cfg, e, m, id),
             before.settled + SettledIn(cfg, f, e, m, id),
             before.expired + ExpiredIn(cfg, f, e, m, id))
  }

  /** A request takes from a carry exactly what it settles. */
  lemma GatesMoveCarry(cfg: Config, f: Fleet, se: nat, who: Who, m: nat, id: string)
    requires Sound(cfg) && se < |f.engines| && m < |cfg.limits|
    ensures Staged(GatedSide(cfg, f, se, who).table, cfg.limits[m], id) + SettledIn(cfg, f, Gates(se, who), m, id)
              == Staged(f.engines[se].table, cfg.limits[m], id)
  {
    var l, at := cfg.limits[m], StopOf(cfg, f, se, who);
    var t := f.engines[se].table;
    var k := CarryKey(l.name, id);
    RequestExact(cfg.vs, cfg.sizes, SideOf(f, se), cfg.limits, who);
    if k == KeyOf(l, who) {
      CarryKeyInjective(l.name, id, l.name, KeyId(l, who));
      if m < at && !l.native {
        NotNative(t, cfg.limits, at, who, m);
      }
    } else {
      NotTheirs(t, cfg.limits, at, who, m, id);
    }
  }

  /** Nobody else's carry is settled. */
  lemma NotTheirs(t: Table, limits: seq<Limit>, n: nat, who: Who, m: nat, id: string)
    requires WellFormed(limits) && n <= |limits| && m < |limits|
    requires CarryKey(limits[m].name, id) != KeyOf(limits[m], who)
    ensures CarryKey(limits[m].name, id) !in CarriesOf(t, limits[..n], who)
  {
    if CarryKey(limits[m].name, id) in CarriesOf(t, limits[..n], who) {
      var l :| l in limits[..n] && KeyOf(l, who) == CarryKey(limits[m].name, id);
      assert KeyOf(l, who) == CarryKey(l.name, KeyId(l, who));
      assert KeyOf(l, who) == CarryKey(limits[m].name, id);
      var i :| 0 <= i < n && limits[i] == l;
      CarryKeyInjective(l.name, KeyId(l, who), limits[m].name, id);
    }
  }

  lemma NotNative(t: Table, limits: seq<Limit>, n: nat, who: Who, m: nat)
    requires WellFormed(limits) && m < n <= |limits| && !limits[m].native
    ensures KeyOf(limits[m], who) !in CarriesOf(t, limits[..n], who)
  {
    if KeyOf(limits[m], who) in CarriesOf(t, limits[..n], who) {
      var l :| l in limits[..n] && l.native && KeyOf(l, who) == KeyOf(limits[m], who);
      var i :| 0 <= i < n && limits[i] == l;
      CarryKeyInjective(l.name, KeyId(l, who), limits[m].name, KeyId(limits[m], who));
    }
  }

  ghost predicate Balanced(cfg: Config, f: Fleet, e: Event, m: nat, id: string)
    requires Windowed(cfg.limits) && Fits(f, e) && m < |cfg.limits|
  {
    SumAt(f.engines, cfg.limits[m], id) + UsedIn(cfg, e, m, id)
      == SumAt(Step(cfg, f, e).engines, cfg.limits[m], id) + SettledIn(cfg, f, e, m, id) + ExpiredIn(cfg, f, e, m, id)
  }

  lemma StagingBalances(cfg: Config, f: Fleet, e: Event, m: nat, id: string)
    requires Sound(cfg) && Fits(f, e) && e.Staging? && m < |cfg.limits|
    ensures Balanced(cfg, f, e, m, id)
  {
    var g := f.engines[e.se];
    SumUpdate(f.engines, e.se, Accounting.Staging(cfg, f.now, g, e.who, e.usage.tokens), cfg.limits[m], id);
    ConsumedCarry(cfg.epoch, g.table, f.now, cfg.limits, |cfg.limits|, e.who, e.usage.tokens, m, id);
  }

  lemma ResponseBalances(cfg: Config, f: Fleet, e: Event, m: nat, id: string)
    requires Sound(cfg) && Fits(f, e) && e.Response? && m < |cfg.limits|
    ensures Balanced(cfg, f, e, m, id)
  {
    var g := f.engines[e.se];
    CarryKeyIsCarry(cfg.limits[m].name, id);
    ResponseLeavesCarry(cfg, g.table, f.now, g.inflight[e.i], e.reply, CarryKey(cfg.limits[m].name, id));
    SumUpdate(f.engines, e.se, Responded(cfg, f.now, g, e.i, e.reply), cfg.limits[m], id);
  }

  lemma StepBalances(cfg: Config, f: Fleet, e: Event, m: nat, id: string)
    requires Sound(cfg) && Fits(f, e) && m < |cfg.limits|
    ensures Balanced(cfg, f, e, m, id)
  {
    match e
    case Gates(se, who) =>
      GatesMoveCarry(cfg, f, se, who, m, id);
      SumUpdate(f.engines, se, f.engines[se].(table := GatedSide(cfg, f, se, who).table), cfg.limits[m], id);
    case Staging(_, _, _) => StagingBalances(cfg, f, e, m, id);
    case Response(_, _, _) => ResponseBalances(cfg, f, e, m, id);
    case Tick(to) => SumExpire(f.engines, to, cfg.limits[m], id);
    case Request(se, who) =>
      SumUpdate(f.engines, se, f.engines[se].(inflight := f.engines[se].inflight + [who]), cfg.limits[m], id);
    case Abandon(se, i) =>
      SumUpdate(f.engines, se, f.engines[se].(inflight := Without(f.engines[se].inflight, i)), cfg.limits[m], id);
    case _ =>
  }

  lemma {:induction false} NothingStaged(es: seq<Engine>, l: Limit, id: string)
    requires forall i | 0 <= i < |es| :: es[i].table == map[]
    ensures SumAt(es, l, id) == 0
  {
    if es != [] {
      NothingStaged(es[..|es| - 1], l, id);
    }
  }

  /** In every run, over any number of engines, every token used under a native limit
      has been charged through the carry, is still staged on some engine, or was
      dropped by an expiry. */
  lemma {:induction false} CarryConserved(
    cfg: Config, states: seq<Fleet>, events: seq<Event>, n: nat, m: nat, id: string)
    requires Sound(cfg) && IsRun(cfg, states, events) && n < |states| && m < |cfg.limits|
    ensures
      var totals := TotalsAt(cfg, states, events, n, m, id);
      totals.used == totals.settled + SumAt(states[n].engines, cfg.limits[m], id) + totals.expired
  {
    if n == 0 {
      NothingStaged(states[0].engines, cfg.limits[m], id);
    } else {
      CarryConserved(cfg, states, events, n - 1, m, id);
      StepBalances(cfg, states[n - 1], events[n - 1], m, id);
      assert states[n - 1 + 1] == Step(cfg, states[n - 1], events[n - 1]);
    }
  }

  // ---------- Conservation in a bucket ----------

  ghost predicate LevelsFit(cfg: Config, levels: map<Bucket, nat>) {
    forall b :: Level(cfg.sizes, levels, b) <= SizeOf(cfg, b.0)
  }

  function DrawnIn(cfg: Config, f: Fleet, e: Event, b: Bucket): nat
    requires Fits(f, e)
  {
    if e.Gates? then DueTo(cfg.vs, f.engines[e.se].table, cfg.limits[..StopOf(cfg, f, e.se, e.who)], e.who, b) else 0
  }

  function CreditIn(cfg: Config, f: Fleet, e: Event, b: Bucket): nat {
    if e.Refill? && e.b == b && Refilled(cfg, f.levels, b, e.amount) >= Level(cfg.sizes, f.levels, b)
    then Refilled(cfg, f.levels, b, e.amount) - Level(cfg.sizes, f.levels, b)
    else 0
  }

  function BucketTotals(cfg: Config, states: seq<Fleet>, events: seq<Event>, n: nat, b: Bucket): (nat, nat)
    requires n <= |events| < |states|
    requires forall i | 0 <= i < n :: Fits(states[i], events[i])
  {
    if n == 0 then (0, 0)
    else
      var before := BucketTotals(cfg, states, events, n - 1, b);
      (before.0 + DrawnIn(cfg, states[n - 1], events[n - 1], b),
       before.1 + CreditIn(cfg, states[n - 1], events[n - 1], b))
  }

  lemma BucketStep(cfg: Config, f: Fleet, e: Event, b: Bucket)
    requires WellFormed(cfg.limits) && Fits(f, e) && LevelsFit(cfg, f.levels)
    ensures DrawnIn(cfg, f, e, b) + Level(cfg.sizes, Step(cfg, f, e).levels, b)
              == Level(cfg.sizes, f.levels, b) + CreditIn(cfg, f, e, b)
    ensures Level(cfg.sizes, Step(cfg, f, e).levels, b) <= SizeOf(cfg, b.0)
  {
    assert Level(cfg.sizes, f.levels, b) <= SizeOf(cfg, b.0);
    if e.Gates? {
      RequestExact(cfg.vs, cfg.sizes, SideOf(f, e.se), cfg.limits, e.who);
    }
  }

  lemma LevelsKeepFitting(cfg: Config, f: Fleet, e: Event)
    requires WellFormed(cfg.limits) && Fits(f, e) && LevelsFit(cfg, f.levels)
    ensures LevelsFit(cfg, Step(cfg, f, e).levels)
  {
    forall b ensures Level(cfg.sizes, Step(cfg, f, e).levels, b) <= SizeOf(cfg, b.0) {
      BucketStep(cfg, f, e, b);
    }
  }

  /** What requests drew from a bucket, refused ones included, plus what is left in it
      is what it held full plus what was refilled, whichever engines they came
      through. */
  lemma {:induction false} BucketConserved(cfg: Config, states: seq<Fleet>, events: seq<Event>, n: nat, b: Bucket)
    requires WellFormed(cfg.limits) && IsRun(cfg, states, events) && n < |states|
    ensures
      var totals := BucketTotals(cfg, states, events, n, b);
      totals.0 + Level(cfg.sizes, states[n].levels, b) == SizeOf(cfg, b.0) + totals.1
    ensures LevelsFit(cfg, states[n].levels)
  {
    if n > 0 {
      BucketConserved(cfg, states, events, n - 1, b);
      BucketStep(cfg, states[n - 1], events[n - 1], b);
      LevelsKeepFitting(cfg, states[n - 1], events[n - 1]);
      assert states[n - 1 + 1] == Step(cfg, states[n - 1], events[n - 1]);
    }
  }

  /** A refill adds to its bucket up to the bucket's size, and changes nothing else. */
  lemma RefillExactly(cfg: Config, f: Fleet, b: Bucket, amount: nat, c: Bucket)
    requires WellFormed(cfg.limits) && LevelsFit(cfg, f.levels)
    ensures
      var f' := Step(cfg, f, Refill(b, amount));
      var level := Level(cfg.sizes, f.levels, c);
      && f'.engines == f.engines && f'.collector == f.collector && f'.now == f.now
      && (c != b ==> Level(cfg.sizes, f'.levels, c) == level)
      && (c == b && level + amount <= SizeOf(cfg, b.0) ==> Level(cfg.sizes, f'.levels, c) == level + amount)
      && (c == b && level + amount >= SizeOf(cfg, b.0) ==> Level(cfg.sizes, f'.levels, c) == SizeOf(cfg, b.0))
  {
  }

  // ---------- What a budget is for ----------

  /** Every bucket a request of the identity can be charged to under the limit. */
  ghost predicate Covers(cfg: Config, l: Limit, id: string, bs: seq<Bucket>) {
    forall who | KeyId(l, who) == id :: BucketOf(cfg.vs, l, who).Some? ==> BucketOf(cfg.vs, l, who).value in bs
  }

  /** The buckets of a limit: one, or one per group and one for unknown groups. */
  function BucketsOf(cfg: Config, l: Limit, id: string, groups: seq<string>): seq<Bucket> {
    if !l.grouped then [(LimiterName(cfg.vs, l.name, ""), id)]
    else
      seq(|groups|, i requires 0 <= i < |groups| => (LimiterName(cfg.vs, l.name, groups[i]), id))
      + [(LimiterName(cfg.vs, l.name, FALLBACK_GROUP), id)]
  }

  lemma BucketsCover(cfg: Config, l: Limit, id: string, groups: seq<string>)
    requires forall g | g in l.groupBudgets :: g in groups
    ensures Covers(cfg, l, id, BucketsOf(cfg, l, id, groups))
  {
    var bs := BucketsOf(cfg, l, id, groups);
    forall who | KeyId(l, who) == id && BucketOf(cfg.vs, l, who).Some?
      ensures BucketOf(cfg.vs, l, who).value in bs
    {
      var g := GroupOf(l, who);
      if l.grouped && g in l.groupBudgets {
        var i :| 0 <= i < |groups| && groups[i] == g;
        assert bs[i] == (LimiterName(cfg.vs, l.name, g), id);
      } else {
        assert bs[|bs| - 1] == BucketOf(cfg.vs, l, who).value;
      }
    }
  }

  function DrawnSum(cfg: Config, f: Fleet, e: Event, bs: seq<Bucket>): nat
    requires Fits(f, e)
  {
    if bs == [] then 0 else DrawnSum(cfg, f, e, bs[..|bs| - 1]) + DrawnIn(cfg, f, e, bs[|bs| - 1])
  }

  lemma {:induction false} DrawnSumCovers(cfg: Config, f: Fleet, e: Event, bs: seq<Bucket>, b: Bucket)
    requires Fits(f, e) && b in bs
    ensures DrawnIn(cfg, f, e, b) <= DrawnSum(cfg, f, e, bs)
  {
    var init := bs[..|bs| - 1];
    assert bs == init + [bs[|bs| - 1]];
    if b in init {
      DrawnSumCovers(cfg, f, e, init, b);
    }
  }

  /** What a request settles for a limit, it draws from a bucket of that limit. */
  lemma SettledIsDrawn(cfg: Config, f: Fleet, e: Event, m: nat, id: string, bs: seq<Bucket>)
    requires WellFormed(cfg.limits) && Fits(f, e) && m < |cfg.limits| && Covers(cfg, cfg.limits[m], id, bs)
    ensures SettledIn(cfg, f, e, m, id) <= DrawnSum(cfg, f, e, bs)
  {
    if e.Gates? && KeyId(cfg.limits[m], e.who) == id && cfg.limits[m].native && m < StopOf(cfg, f, e.se, e.who) {
      var l, s, at := cfg.limits[m], SideOf(f, e.se), StopOf(cfg, f, e.se, e.who);
      StopsWhere(cfg.vs, cfg.sizes, s, cfg.limits, e.who);
      assert Affordable(cfg.vs, cfg.sizes, s, cfg.limits, e.who, m);
      SomethingDue(cfg.vs, s.table, cfg.limits[..at], e.who, m);
      DrawnSumCovers(cfg, f, e, bs, BucketOf(cfg.vs, l, e.who).value);
    }
  }

  /** Drawn from, and put into, all the buckets in the first n steps; the buckets start
      full. */
  function DrawnTotal(cfg: Config, states: seq<Fleet>, events: seq<Event>, n: nat, bs: seq<Bucket>): nat
    requires n <= |events| < |states|
    requires forall i | 0 <= i < n :: Fits(states[i], events[i])
  {
    if bs == [] then 0
    else
      DrawnTotal(cfg, states, events, n, bs[..|bs| - 1])
      + BucketTotals(cfg, states, events, n, bs[|bs| - 1]).0
  }

  function GrantedTotal(cfg: Config, states: seq<Fleet>, events: seq<Event>, n: nat, bs: seq<Bucket>): nat
    requires n <= |events| < |states|
    requires forall i | 0 <= i < n :: Fits(states[i], events[i])
  {
    if bs == [] then 0
    else
      GrantedTotal(cfg, states, events, n, bs[..|bs| - 1])
      + SizeOf(cfg, bs[|bs| - 1].0) + BucketTotals(cfg, states, events, n, bs[|bs| - 1]).1
  }

  lemma {:induction false} DrawnStep(cfg: Config, states: seq<Fleet>, events: seq<Event>, n: nat, bs: seq<Bucket>)
    requires n < |events| < |states|
    requires forall i | 0 <= i <= n :: Fits(states[i], events[i])
    ensures DrawnTotal(cfg, states, events, n + 1, bs)
              == DrawnTotal(cfg, states, events, n, bs) + DrawnSum(cfg, states[n], events[n], bs)
  {
    if bs != [] {
      DrawnStep(cfg, states, events, n, bs[..|bs| - 1]);
    }
  }

  lemma {:induction false} NothingDrawn(cfg: Config, states: seq<Fleet>, events: seq<Event>, bs: seq<Bucket>)
    requires |events| < |states|
    ensures DrawnTotal(cfg, states, events, 0, bs) == 0
  {
    if bs != [] {
      NothingDrawn(cfg, states, events, bs[..|bs| - 1]);
    }
  }

  /** In every run, what was settled for an identity under a limit was drawn from the
      buckets of that limit. */
  lemma {:induction false} SettledWasDrawn(
    cfg: Config, states: seq<Fleet>, events: seq<Event>, n: nat, m: nat, id: string, bs: seq<Bucket>)
    requires WellFormed(cfg.limits) && IsRun(cfg, states, events) && n < |states| && m < |cfg.limits|
    requires Covers(cfg, cfg.limits[m], id, bs)
    ensures TotalsAt(cfg, states, events, n, m, id).settled <= DrawnTotal(cfg, states, events, n, bs)
  {
    if n == 0 {
      NothingDrawn(cfg, states, events, bs);
    } else {
      SettledWasDrawn(cfg, states, events, n - 1, m, id, bs);
      SettledIsDrawn(cfg, states[n - 1], events[n - 1], m, id, bs);
      DrawnStep(cfg, states, events, n - 1, bs);
    }
  }

  lemma {:induction false} DrawnWasGranted(cfg: Config, states: seq<Fleet>, events: seq<Event>, n: nat, bs: seq<Bucket>)
    requires WellFormed(cfg.limits) && IsRun(cfg, states, events) && n < |states|
    ensures DrawnTotal(cfg, states, events, n, bs) <= GrantedTotal(cfg, states, events, n, bs)
  {
    if bs != [] {
      DrawnWasGranted(cfg, states, events, n, bs[..|bs| - 1]);
      BucketConserved(cfg, states, events, n, bs[|bs| - 1]);
    }
  }

  /** What the budget is for: in every run, the tokens an identity has used under a
      native limit, over all engines, are within the sizes of its buckets and what was
      refilled, but for what is still staged and what expired before it was charged. */
  lemma BudgetCovers(
    cfg: Config, states: seq<Fleet>, events: seq<Event>, n: nat, m: nat, id: string, bs: seq<Bucket>)
    requires Sound(cfg) && IsRun(cfg, states, events) && n < |states| && m < |cfg.limits|
    requires Covers(cfg, cfg.limits[m], id, bs)
    ensures
      var totals := TotalsAt(cfg, states, events, n, m, id);
      totals.used <= GrantedTotal(cfg, states, events, n, bs)
                     + SumAt(states[n].engines, cfg.limits[m], id) + totals.expired
  {
    CarryConserved(cfg, states, events, n, m, id);
    SettledWasDrawn(cfg, states, events, n, m, id, bs);
    DrawnWasGranted(cfg, states, events, n, bs);
  }

  // ---------- A carry larger than the bucket ----------

  /** No bucket a request can be charged to under the limit holds more than S. */
  ghost predicate BurstWithin(cfg: Config, l: Limit, S: nat) {
    forall group :: Resolve(cfg.vs, l, group).Some? ==> SizeOf(cfg, Resolve(cfg.vs, l, group).value) <= S
  }

  /** The consumer's carry on one engine exceeds S. */
  ghost predicate Stuck(cfg: Config, f: Fleet, se: nat, m: nat, id: string, S: nat)
    requires m < |cfg.limits|
  {
    && LevelsFit(cfg, f.levels)
    && se < |f.engines| && cfg.limits[m].native && Staged(f.engines[se].table, cfg.limits[m], id) > S
  }

  /** If the event is a tick, the carry outlives it. */
  predicate Survives(cfg: Config, f: Fleet, e: Event, se: nat, m: nat, id: string)
    requires m < |cfg.limits|
  {
    var k := CarryKey(cfg.limits[m].name, id);
    e.Tick? && se < |f.engines| && k in f.engines[se].table ==> e.to < f.engines[se].table[k].expires
  }

  /** A request of the consumer, reaching the engine. */
  predicate Theirs(cfg: Config, e: Event, se: nat, m: nat, id: string)
    requires m < |cfg.limits|
  {
    e.Gates? && e.se == se && KeyId(cfg.limits[m], e.who) == id
  }

  /** The request is refused, at the gate of limit m or an earlier one. */
  lemma StuckRefused(cfg: Config, f: Fleet, e: Event, se: nat, m: nat, id: string, S: nat)
    requires Sound(cfg) && Fits(f, e) && m < |cfg.limits| && BurstWithin(cfg, cfg.limits[m], S)
    requires Stuck(cfg, f, se, m, id, S) && Theirs(cfg, e, se, m, id)
    ensures StopOf(cfg, f, se, e.who) <= m
  {
    var l, s := cfg.limits[m], SideOf(f, se);
    StopsWhere(cfg.vs, cfg.sizes, s, cfg.limits, e.who);
    var b := BucketOf(cfg.vs, l, e.who);
    if b.Some? {
      assert SizeOf(cfg, Resolve(cfg.vs, l, GroupOf(l, e.who)).value) <= S;
      assert Level(cfg.sizes, s.levels, b.value) <= SizeOf(cfg, b.value.0);
      assert Due(s.table, l, e.who) > S;
    }
    assert !Affordable(cfg.vs, cfg.sizes, s, cfg.limits, e.who, m);
  }

  lemma StagedKept(cfg: Config, f: Fleet, e: Event, se: nat, m: nat, id: string, S: nat)
    requires Sound(cfg) && Fits(f, e) && m < |cfg.limits| && BurstWithin(cfg, cfg.limits[m], S)
    requires Stuck(cfg, f, se, m, id, S) && Survives(cfg, f, e, se, m, id)
    ensures Staged(Step(cfg, f, e).engines[se].table, cfg.limits[m], id)
              >= Staged(f.engines[se].table, cfg.limits[m], id)
  {
    match e
    case Gates(se', who) =>
      if se' == se {
        GatesMoveCarry(cfg, f, se, who, m, id);
        if KeyId(cfg.limits[m], who) == id {
          StuckRefused(cfg, f, e, se, m, id, S);
        }
      }
    case Staging(se', who, u) =>
      ConsumedCarry(cfg.epoch, f.engines[se].table, f.now, cfg.limits, |cfg.limits|, who, u.tokens, m, id);
    case Response(se', i, r) =>
      if se' == se {
        CarryKeyIsCarry(cfg.limits[m].name, id);
        var g := f.engines[se];
        ResponseLeavesCarry(cfg, g.table, f.now, g.inflight[i], r, CarryKey(cfg.limits[m].name, id));
      }
    case _ =>
  }

  ghost predicate NeverExpires(
    cfg: Config, states: seq<Fleet>, events: seq<Event>, from: nat, to: nat, se: nat, m: nat, id: string)
    requires m < |cfg.limits|
  {
    to <= |events| < |states| && forall i | from <= i < to :: Survives(cfg, states[i], events[i], se, m, id)
  }

  lemma StuckNext(
    cfg: Config, states: seq<Fleet>, events: seq<Event>, i: nat, se: nat, m: nat, id: string, S: nat)
    requires Sound(cfg) && IsRun(cfg, states, events) && i < |events| && m < |cfg.limits|
    requires BurstWithin(cfg, cfg.limits[m], S) && Stuck(cfg, states[i], se, m, id, S)
    requires Survives(cfg, states[i], events[i], se, m, id)
    ensures Stuck(cfg, states[i + 1], se, m, id, S)
  {
    StagedKept(cfg, states[i], events[i], se, m, id, S);
    LevelsKeepFitting(cfg, states[i], events[i]);
  }

  lemma {:induction false} StaysStuck(
    cfg: Config, states: seq<Fleet>, events: seq<Event>, from: nat, to: nat, se: nat, m: nat, id: string, S: nat)
    requires Sound(cfg) && IsRun(cfg, states, events) && from <= to < |states| && m < |cfg.limits|
    requires BurstWithin(cfg, cfg.limits[m], S) && Stuck(cfg, states[from], se, m, id, S)
    requires NeverExpires(cfg, states, events, from, to, se, m, id)
    ensures Stuck(cfg, states[to], se, m, id, S)
  {
    if from < to {
      StaysStuck(cfg, states, events, from, to - 1, se, m, id, S);
      StuckNext(cfg, states, events, to - 1, se, m, id, S);
    }
  }

  /** Once a carry exceeds every bucket size of its limit it stays above them, and
      every request of that consumer on that engine is refused, until it expires. */
  lemma StuckUntilExpiry(
    cfg: Config, states: seq<Fleet>, events: seq<Event>, from: nat, to: nat, se: nat, m: nat, id: string, S: nat)
    requires Sound(cfg) && IsRun(cfg, states, events) && from <= to < |states| && m < |cfg.limits|
    requires BurstWithin(cfg, cfg.limits[m], S) && Stuck(cfg, states[from], se, m, id, S)
    requires NeverExpires(cfg, states, events, from, to, se, m, id)
    ensures Stuck(cfg, states[to], se, m, id, S)
    ensures forall i | from <= i < to && Theirs(cfg, events[i], se, m, id) ::
              Fits(states[i], events[i]) && StopOf(cfg, states[i], se, events[i].who) <= m
  {
    StaysStuck(cfg, states, events, from, to, se, m, id, S);
    forall i | from <= i < to && Theirs(cfg, events[i], se, m, id)
      ensures Fits(states[i], events[i]) && StopOf(cfg, states[i], se, events[i].who) <= m
    {
      StaysStuck(cfg, states, events, from, i, se, m, id, S);
      StuckRefused(cfg, states[i], events[i], se, m, id, S);
    }
  }
}
