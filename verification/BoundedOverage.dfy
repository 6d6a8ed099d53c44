/** How far a consumer can go past a budget: enforcement looks at a counter that
    only grows when a response comes back, so every request already admitted can
    still add its tokens, and nothing else can. */
module BoundedOverage {
  import opened Text
  import opened SeTable
  import opened TokenCounters
  import opened UsageLedger
  import opened CarryProtocol
  import opened Accounting
  import opened FleetRun

  /** Admitted requests of one identity whose response has not been charged yet. */
  function Pending(inflight: seq<Who>, l: Limit, id: string): nat {
    if inflight == [] then 0
    else
      Pending(inflight[..|inflight| - 1], l, id)
      + if KeyId(l, inflight[|inflight| - 1]) == id then 1 else 0
  }

  lemma {:induction false} PendingAppend(a: seq<Who>, b: seq<Who>, l: Limit, id: string)
    ensures Pending(a + b, l, id) == Pending(a, l, id) + Pending(b, l, id)
  {
    if b == [] {
      assert a + b == a;
    } else {
      PendingAppend(a, b[..|b| - 1], l, id);
      assert (a + b)[..|a + b| - 1] == a + b[..|b| - 1];
    }
  }

  lemma PendingWithout(inflight: seq<Who>, i: nat, l: Limit, id: string)
    requires i < |inflight|
    ensures Pending(inflight, l, id)
              == Pending(Without(inflight, i), l, id) + if KeyId(l, inflight[i]) == id then 1 else 0
  {
    var a, b := inflight[..i], inflight[i + 1..];
    assert inflight == a + ([inflight[i]] + b);
    PendingAppend(a, [inflight[i]] + b, l, id);
    PendingAppend([inflight[i]], b, l, id);
    PendingAppend(a, b, l, id);
    assert [inflight[i]][..0] == [];
  }

  lemma SumSnoc(log: seq<Charge>, c: Charge, l: Limit, id: string, w: nat)
    requires l.window >= 1
    ensures WindowSum(log + [c], l, id, w)
              == WindowSum(log, l, id, w) + if InWindow(c, l, id, w) then c.amount else 0
  {
    assert (log + [c])[..|log|] == log;
  }

  /** Sum of a limit's charges once those of the first n limits have been added. */
  function SumAfter(
    log: seq<Charge>, now: nat, limits: seq<Limit>, n: nat, native: bool, who: Who, u: Tokens,
    l: Limit, id: string, w: nat): nat
    requires n <= |limits| && l.window >= 1
  {
    WindowSum(log + ChargesOf(now, limits[..n], native, who, u), l, id, w)
  }

  /** What a response adds to one limit, if its script charges that limit's kind. */
  function Share(now: nat, l: Limit, native: bool, who: Who, u: Tokens, id: string, w: nat): nat
    requires l.window >= 1
  {
    if l.native == native && KeyId(l, who) == id && w == WindowStart(now, l.window) then Amount(u, l.dim) else 0
  }

  lemma NextSum(
    log: seq<Charge>, now: nat, limits: seq<Limit>, i: nat, native: bool, who: Who, u: Tokens,
    j: nat, id: string, w: nat)
    requires WellFormed(limits) && i < |limits| && j < |limits|
    ensures SumAfter(log, now, limits, i + 1, native, who, u, limits[j], id, w)
              == SumAfter(log, now, limits, i, native, who, u, limits[j], id, w)
                 + if i == j then Share(now, limits[j], native, who, u, id, w) else 0
  {
    ChargesNext(log, now, limits, i, native, who, u);
    if limits[i].native == native {
      var c := ChargeOf(now, limits[i], who, u);
      SumSnoc(log + ChargesOf(now, limits[..i], native, who, u), c, limits[j], id, w);
      assert InWindow(c, limits[j], id, w) <==>
               j == i && KeyId(limits[j], who) == id && w == WindowStart(now, limits[j].window);
    }
  }

  /** A response adds to the window of the moment, once per limit of the kind its
      script charges, and to no other. */
  lemma {:induction false} ChargesSum(
    log: seq<Charge>, now: nat, limits: seq<Limit>, n: nat, native: bool, who: Who, u: Tokens,
    j: nat, id: string, w: nat)
    requires WellFormed(limits) && n <= |limits| && j < |limits|
    ensures SumAfter(log, now, limits, n, native, who, u, limits[j], id, w)
              == WindowSum(log, limits[j], id, w) + if j < n then Share(now, limits[j], native, who, u, id, w) else 0
  {
    if n == 0 {
      assert log + [] == log;
    } else {
      ChargesSum(log, now, limits, n - 1, native, who, u, j, id, w);
      NextSum(log, now, limits, n - 1, native, who, u, j, id, w);
    }
  }

  /** The room left on an engine: what is charged in the current window plus what the
      pending requests may still add stays inside the bound, in every window. */
  ghost predicate Below(now: nat, e: Engine, l: Limit, id: string, bound: nat, M: nat)
    requires l.window >= 1
  {
    && (forall w: nat :: WindowSum(e.charges, l, id, w) < bound)
    && WindowSum(e.charges, l, id, WindowStart(now, l.window)) + Pending(e.inflight, l, id) * M < bound
  }

  /** What the bound is about: a limit and an identity on an engine; its ceilings, the
      requests pending at a time, and the cost of a response. */
  datatype Aim = Aim(se: nat, j: nat, id: string, B: nat, K: nat, M: nat)

  ghost predicate Ceilings(l: Limit, B: nat) {
    && B >= 1 && !l.logOnly && !l.native
    && forall who :: Ceiling(l, who).Some? ==> Ceiling(l, who).value <= B
  }

  ghost predicate Calm(cfg: Config, f: Fleet, a: Aim) {
    a.j < |cfg.limits| && a.se < |f.engines| && Pending(f.engines[a.se].inflight, cfg.limits[a.j], a.id) <= a.K
  }

  predicate Modest(cfg: Config, e: Event, a: Aim) {
    a.j < |cfg.limits| && (e.Response? ==> Amount(e.reply.usage.tokens, cfg.limits[a.j].dim) <= a.M)
  }

  /** The setting of the bound: no ceiling of the limit exceeds B, at most K requests
      of the identity are pending on the engine at any time, and no response costs more
      than M. */
  ghost predicate Setting(cfg: Config, states: seq<Fleet>, events: seq<Event>, a: Aim) {
    && a.j < |cfg.limits| && Ceilings(cfg.limits[a.j], a.B)
    && |states| == |events| + 1
    && (forall i | 0 <= i < |states| :: Calm(cfg, states[i], a))
    && (forall i | 0 <= i < |events| :: Modest(cfg, events[i], a))
  }

  ghost predicate Roomy(cfg: Config, f: Fleet, a: Aim)
    requires Windowed(cfg.limits)
  {
    Calm(cfg, f, a) && Below(f.now, f.engines[a.se], cfg.limits[a.j], a.id, a.B + a.K * a.M, a.M)
  }

  /** A new window starts empty, so requests that straddle the boundary find the
      whole budget and are still only K of them. */
  lemma TickContains(cfg: Config, now: nat, e: Engine, to: nat, j: nat, id: string, B: nat, K: nat, M: nat)
    requires WellFormed(cfg.limits) && j < |cfg.limits| && Past(e.charges, now) && now <= to
    requires B >= 1 && Below(now, e, cfg.limits[j], id, B + K * M, M) && Pending(e.inflight, cfg.limits[j], id) <= K
    ensures Below(to, e.(table := Expire(e.table, to)), cfg.limits[j], id, B + K * M, M)
  {
    var l := cfg.limits[j];
    var w := WindowStart(to, l.window);
    if w != WindowStart(now, l.window) {
      if Touched(e.charges, l, id, w) {
        var i :| 0 <= i < |e.charges| && InWindow(e.charges[i], l, id, w);
        WindowOf(0, e.charges[i].at, l.window);
        WindowOf(0, to, l.window);
        WindowOf(e.charges[i].at, now, l.window);
      }
      UntouchedSum(e.charges, l, id, w);
      MulMono(Pending(e.inflight, l, id), K, M);
    }
  }

  lemma AdmitContains(cfg: Config, now: nat, e: Engine, who: Who, j: nat, id: string, B: nat, K: nat, M: nat)
    requires WellFormed(cfg.limits) && j < |cfg.limits| && CounterOk(e.charges, e.table, now, cfg.epoch, cfg.limits[j])
    requires B >= 1 && !cfg.limits[j].logOnly && !cfg.limits[j].native
    requires Ceiling(cfg.limits[j], who).Some? ==> Ceiling(cfg.limits[j], who).value <= B
    requires Below(now, e, cfg.limits[j], id, B + K * M, M) && Admits(cfg, now, e, who)
    requires Pending(e.inflight + [who], cfg.limits[j], id) <= K
    ensures Below(now, e.(inflight := e.inflight + [who]), cfg.limits[j], id, B + K * M, M)
  {
    var l := cfg.limits[j];
    assert Passes(e.table, now, cfg.epoch, l, who);
    assert (e.inflight + [who])[..|e.inflight|] == e.inflight;
    if KeyId(l, who) == id {
      CounterIsSum(e.charges, e.table, now, cfg.epoch, l, id);
      MulMono(Pending(e.inflight + [who], l, id), K, M);
    }
  }

  lemma ResponseContains(cfg: Config, now: nat, e: Engine, i: nat, r: Reply, j: nat, id: string, bound: nat, M: nat)
    requires WellFormed(cfg.limits) && j < |cfg.limits| && !cfg.limits[j].native && i < |e.inflight|
    requires Amount(r.usage.tokens, cfg.limits[j].dim) <= M
    requires Below(now, e, cfg.limits[j], id, bound, M)
    ensures Below(now, Responded(cfg, now, e, i, r), cfg.limits[j], id, bound, M)
  {
    var l, who := cfg.limits[j], e.inflight[i];
    var e' := Responded(cfg, now, e, i, r);
    PendingWithout(e.inflight, i, l, id);
    Distribute(Pending(e'.inflight, l, id), M);
    forall w: nat
      ensures WindowSum(e'.charges, l, id, w) == WindowSum(e.charges, l, id, w)
                + if !r.skipped && KeyId(l, who) == id && w == WindowStart(now, l.window)
                  then Amount(r.usage.tokens, l.dim) else 0
    {
      ResponseSum(cfg, now, e, i, r, j, id, w);
    }
  }

  lemma Distribute(p: nat, M: nat)
    ensures (p + 1) * M == p * M + M && p * M >= 0
  {
  }

  lemma ResponseSum(cfg: Config, now: nat, e: Engine, i: nat, r: Reply, j: nat, id: string, w: nat)
    requires WellFormed(cfg.limits) && j < |cfg.limits| && !cfg.limits[j].native && i < |e.inflight|
    ensures
      var l, who := cfg.limits[j], e.inflight[i];
      WindowSum(Responded(cfg, now, e, i, r).charges, l, id, w) == WindowSum(e.charges, l, id, w)
        + if !r.skipped && KeyId(l, who) == id && w == WindowStart(now, l.window)
          then Amount(r.usage.tokens, l.dim) else 0
  {
    assert cfg.limits[..|cfg.limits|] == cfg.limits;
    ChargesSum(e.charges, now, cfg.limits, |cfg.limits|, false, e.inflight[i], r.usage.tokens, j, id, w);
  }

  /** Display counters of native limits are charged apart. */
  lemma StagingContains(cfg: Config, now: nat, e: Engine, who: Who, u: Tokens, j: nat, id: string, bound: nat, M: nat)
    requires WellFormed(cfg.limits) && j < |cfg.limits| && !cfg.limits[j].native
    requires Below(now, e, cfg.limits[j], id, bound, M)
    ensures Below(now, Accounting.Staging(cfg, now, e, who, u), cfg.limits[j], id, bound, M)
  {
    assert cfg.limits[..|cfg.limits|] == cfg.limits;
    forall w: nat
      ensures WindowSum(e.charges + ChargesOf(now, cfg.limits, true, who, u), cfg.limits[j], id, w)
                == WindowSum(e.charges, cfg.limits[j], id, w)
    {
      ChargesSum(e.charges, now, cfg.limits, |cfg.limits|, true, who, u, j, id, w);
    }
  }

  lemma AbandonContains(now: nat, e: Engine, i: nat, l: Limit, id: string, bound: nat, M: nat)
    requires l.window >= 1 && i < |e.inflight| && Below(now, e, l, id, bound, M)
    ensures Below(now, e.(inflight := Without(e.inflight, i)), l, id, bound, M)
  {
    PendingWithout(e.inflight, i, l, id);
    MulMono(Pending(Without(e.inflight, i), l, id), Pending(e.inflight, l, id), M);
  }

  lemma StepContains(cfg: Config, f: Fleet, e: Event, f': Fleet, a: Aim)
    requires WellFormed(cfg.limits) && FleetOk(cfg, f) && Fits(f, e) && f' == Step(cfg, f, e)
    requires Roomy(cfg, f, a) && Calm(cfg, f', a) && Modest(cfg, e, a) && Ceilings(cfg.limits[a.j], a.B)
    ensures Roomy(cfg, f', a)
  {
    var g, bound := f.engines[a.se], a.B + a.K * a.M;
    assert EngineOk(cfg, f.now, g);
    match e
    case Tick(to) => TickContains(cfg, f.now, g, to, a.j, a.id, a.B, a.K, a.M);
    case Request(se, who) =>
      if se == a.se && Admits(cfg, f.now, g, who) {
        AdmitContains(cfg, f.now, g, who, a.j, a.id, a.B, a.K, a.M);
      }
    case Response(se, i, r) =>
      if se == a.se {
        ResponseContains(cfg, f.now, g, i, r, a.j, a.id, bound, a.M);
      }
    case Staging(se, who, u) =>
      if se == a.se {
        StagingContains(cfg, f.now, g, who, u.tokens, a.j, a.id, bound, a.M);
      }
    case Abandon(se, i) =>
      if se == a.se {
        AbandonContains(f.now, g, i, cfg.limits[a.j], a.id, bound, a.M);
      }
    case _ =>
  }

  lemma StartRoomy(cfg: Config, f: Fleet, a: Aim)
    requires WellFormed(cfg.limits) && IsStart(f) && Calm(cfg, f, a) && Ceilings(cfg.limits[a.j], a.B)
    ensures Roomy(cfg, f, a)
  {
    MulMono(0, a.K, a.M);
  }

  lemma {:induction false} AlwaysRoomy(cfg: Config, states: seq<Fleet>, events: seq<Event>, n: nat, a: Aim)
    requires Sound(cfg) && IsRun(cfg, states, events) && n < |states| && Setting(cfg, states, events, a)
    ensures Roomy(cfg, states[n], a)
  {
    if n == 0 {
      StartRoomy(cfg, states[0], a);
    } else {
      AlwaysRoomy(cfg, states, events, n - 1, a);
      AlwaysOk(cfg, states, events, n - 1);
      StepContains(cfg, states[n - 1], events[n - 1], states[n], a);
    }
  }

  /** In every run of the setting, an identity's charged total on an engine in any
      window is at most B - 1 + K * M. */
  lemma OverageBound(cfg: Config, states: seq<Fleet>, events: seq<Event>, n: nat, a: Aim, w: nat)
    requires Sound(cfg) && IsRun(cfg, states, events) && n < |states| && Setting(cfg, states, events, a)
    ensures a.se < |states[n].engines|
    ensures WindowSum(states[n].engines[a.se].charges, cfg.limits[a.j], a.id, w) <= a.B - 1 + a.K * a.M
  {
    AlwaysRoomy(cfg, states, events, n, a);
  }
}
