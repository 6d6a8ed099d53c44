/** What a request is measured against and what a response costs, said of the limits'
    own fields and of the figures in the body, in every run. */
module Enforcement {
  import opened Text
  import opened SeTable
  import opened TokenCounters
  import opened UsageParse
  import opened UsageBody
  import opened UsageLedger
  import opened CarryProtocol
  import opened Accounting
  import opened FleetRun
  import opened BoundedOverage

  // ---------- Admission ----------

  function Identity(l: Limit, who: Who): string { if l.key == ClientIP then who.ip else who.identity }

  /** The tokens charged on the engine so far in the limit's current window, to the
      caller or to the caller's address. */
  function Spent(f: Fleet, se: nat, l: Limit, who: Who): nat
    requires se < |f.engines| && l.window >= 1
  {
    WindowSum(f.engines[se].charges, l, Identity(l, who), WindowStart(f.now, l.window))
  }

  /** The group the caller's claim names; no claim names the empty group. */
  ghost predicate InGroup(l: Limit, who: Who, g: string) {
    if l.groupHeader in who.claims then g == who.claims[l.groupHeader] else g == ""
  }

  /** What the limit demands: an ungrouped one compares with its budget; a grouped one
      with the group's, or its own budget for a group it does not list, and refuses
      such a group when it has no budget of its own. A limit that only logs still
      refuses an unlisted group. */
  ghost predicate Within(l: Limit, who: Who, spent: nat) {
    && (!l.grouped ==> l.logOnly || spent < l.budget)
    && (forall g | l.grouped && InGroup(l, who, g) && g in l.groupBudgets :: l.logOnly || spent < l.groupBudgets[g])
    && (forall g | l.grouped && InGroup(l, who, g) && g !in l.groupBudgets ::
          l.budget > 0 && (l.logOnly || spent < l.budget))
  }

  lemma PassesWithin(log: seq<Charge>, t: Table, now: nat, epoch: string, l: Limit, who: Who)
    requires l.window >= 1 && CounterOk(log, t, now, epoch, l)
    ensures Passes(t, now, epoch, l, who) <==>
              Within(l, who, WindowSum(log, l, Identity(l, who), WindowStart(now, l.window)))
  {
    CounterIsSum(log, t, now, epoch, l, KeyId(l, who));
    var g := if l.groupHeader in who.claims then who.claims[l.groupHeader] else "";
    assert InGroup(l, who, g);
  }

  /** In every run a request is admitted exactly when every limit that is not native
      is within its demand for what was charged so far in the window. */
  lemma AdmittedExactly(cfg: Config, states: seq<Fleet>, events: seq<Event>, n: nat, se: nat, who: Who)
    requires Sound(cfg) && IsRun(cfg, states, events) && n < |states| && se < |states[n].engines|
    ensures Admits(cfg, states[n].now, states[n].engines[se], who) <==>
              forall i | 0 <= i < |cfg.limits| && !cfg.limits[i].native ::
                Within(cfg.limits[i], who, Spent(states[n], se, cfg.limits[i], who))
  {
    AlwaysOk(cfg, states, events, n);
    var f := states[n];
    assert EngineOk(cfg, f.now, f.engines[se]);
    forall i | 0 <= i < |cfg.limits|
      ensures Passes(f.engines[se].table, f.now, cfg.epoch, cfg.limits[i], who)
              <==> Within(cfg.limits[i], who, Spent(f, se, cfg.limits[i], who))
    {
      PassesWithin(f.engines[se].charges, f.engines[se].table, f.now, cfg.epoch, cfg.limits[i], who);
    }
  }

  // ---------- Charging ----------

  /** The figure a limit counts. */
  ghost predicate Counts(l: Limit, u: Tokens, figure: nat) {
    && (l.dim == Prompt ==> figure == u.prompt)
    && (l.dim == Completion ==> figure == u.completion)
    && (l.dim == Total ==> figure == u.total)
  }

  /** The limit counts against this caller under the identity. */
  ghost predicate CountsFor(l: Limit, who: Who, id: string) {
    (l.key == Consumer ==> id == who.identity) && (l.key == ClientIP ==> id == who.ip)
  }

  function CounterAt(cfg: Config, f: Fleet, se: nat, j: nat, id: string): nat
    requires Windowed(cfg.limits) && se < |f.engines| && j < |cfg.limits|
  {
    NumberAt(f.engines[se].table,
             CounterKey(cfg.epoch, cfg.limits[j].name, id, WindowStart(f.now, cfg.limits[j].window)))
  }

  /** The counter of one identity has gone up by so much. */
  ghost predicate Grown(cfg: Config, f: Fleet, f': Fleet, se: nat, j: nat, id: string, more: nat)
    requires Windowed(cfg.limits) && se < |f.engines| && j < |cfg.limits|
  {
    se < |f'.engines| && CounterAt(cfg, f', se, j, id) == CounterAt(cfg, f, se, j, id) + more
  }

  lemma ResponseAdds(cfg: Config, now: nat, e: Engine, i: nat, r: Reply, j: nat, id: string, figure: nat)
    requires WellFormed(cfg.limits) && i < |e.inflight| && j < |cfg.limits|
    requires Counts(cfg.limits[j], r.usage.tokens, figure)
    ensures
      var l, w := cfg.limits[j], WindowStart(now, cfg.limits[j].window);
      WindowSum(Responded(cfg, now, e, i, r).charges, l, id, w)
        == WindowSum(e.charges, l, id, w)
           + if !l.native && !r.skipped && CountsFor(l, e.inflight[i], id) then figure else 0
  {
    assert cfg.limits[..|cfg.limits|] == cfg.limits;
    ChargesSum(e.charges, now, cfg.limits, |cfg.limits|, false, e.inflight[i], r.usage.tokens, j, id,
               WindowStart(now, cfg.limits[j].window));
  }

  lemma StagingAdds(cfg: Config, now: nat, e: Engine, who: Who, u: Tokens, j: nat, id: string, figure: nat)
    requires WellFormed(cfg.limits) && j < |cfg.limits| && Counts(cfg.limits[j], u, figure)
    ensures
      var l, w := cfg.limits[j], WindowStart(now, cfg.limits[j].window);
      WindowSum(Accounting.Staging(cfg, now, e, who, u).charges, l, id, w)
        == WindowSum(e.charges, l, id, w) + if l.native && CountsFor(l, who, id) then figure else 0
  {
    assert cfg.limits[..|cfg.limits|] == cfg.limits;
    ChargesSum(e.charges, now, cfg.limits, |cfg.limits|, true, who, u, j, id, WindowStart(now, cfg.limits[j].window));
  }

  /** In every run a response adds to the counter of each limit that is not native, for
      its caller, the figure the limit counts, and to no other counter anything. */
  lemma ResponseCounts(
    cfg: Config, states: seq<Fleet>, events: seq<Event>, n: nat, j: nat, id: string, figure: nat)
    requires Sound(cfg) && IsRun(cfg, states, events) && n < |events| && j < |cfg.limits|
    requires Enabled(states[n], events[n]) && events[n].Response?
    requires Counts(cfg.limits[j], events[n].reply.usage.tokens, figure)
    ensures
      var e, l := events[n], cfg.limits[j];
      var who := states[n].engines[e.se].inflight[e.i];
      Grown(cfg, states[n], states[n + 1], e.se, j, id,
            if !l.native && !e.reply.skipped && CountsFor(l, who, id) then figure else 0)
  {
    var e := events[n];
    assert states[n + 1] == Step(cfg, states[n], e);
    CountersRefineSums(cfg, states, events, n, e.se, j, id);
    CountersRefineSums(cfg, states, events, n + 1, e.se, j, id);
    ResponseAdds(cfg, states[n].now, states[n].engines[e.se], e.i, e.reply, j, id, figure);
  }

  /** The response script of native limits does the same for their display counters. */
  lemma StagingCounts(
    cfg: Config, states: seq<Fleet>, events: seq<Event>, n: nat, j: nat, id: string, figure: nat)
    requires Sound(cfg) && IsRun(cfg, states, events) && n < |events| && j < |cfg.limits|
    requires Enabled(states[n], events[n]) && events[n].Staging?
    requires Counts(cfg.limits[j], events[n].usage.tokens, figure)
    ensures
      var e, l := events[n], cfg.limits[j];
      Grown(cfg, states[n], states[n + 1], e.se, j, id,
            if l.native && CountsFor(l, e.who, id) then figure else 0)
  {
    var e := events[n];
    assert states[n + 1] == Step(cfg, states[n], e);
    CountersRefineSums(cfg, states, events, n, e.se, j, id);
    CountersRefineSums(cfg, states, events, n + 1, e.se, j, id);
    StagingAdds(cfg, states[n].now, states[n].engines[e.se], e.who, e.usage.tokens, j, id, figure);
  }

  function CostOf(l: Limit, p: nat, c: nat, t: nat): nat {
    if l.dim == Prompt then p else if l.dim == Completion then c else if t == 0 then p + c else t
  }

  lemma Figured(l: Limit, who: Who, p: nat, c: nat, t: nat)
    ensures Counts(l, Tokens(p, c, if t == 0 then p + c else t), CostOf(l, p, c, t))
    ensures CountsFor(l, who, Identity(l, who))
  {
  }

  /** What a response whose body states p, c and t costs the caller under the limit. */
  ghost predicate Costs(cfg: Config, f: Fleet, f': Fleet, e: Event, j: nat, p: nat, c: nat, t: nat)
    requires Windowed(cfg.limits) && Fits(f, e) && e.Response? && j < |cfg.limits|
  {
    var l, who := cfg.limits[j], f.engines[e.se].inflight[e.i];
    Grown(cfg, f, f', e.se, j, Identity(l, who), CostOf(l, p, c, t))
  }

  lemma TokensCount(
    cfg: Config, states: seq<Fleet>, events: seq<Event>, n: nat, j: nat, p: nat, c: nat, t: nat)
    requires Sound(cfg) && IsRun(cfg, states, events) && n < |events| && j < |cfg.limits|
    requires Enabled(states[n], events[n]) && events[n].Response? && !events[n].reply.skipped
    requires events[n].reply.usage.tokens == Tokens(p, c, if t == 0 then p + c else t) && !cfg.limits[j].native
    ensures Costs(cfg, states[n], states[n + 1], events[n], j, p, c, t)
  {
    var who := states[n].engines[events[n].se].inflight[events[n].i];
    Figured(cfg.limits[j], who, p, c, t);
    ResponseCounts(cfg, states, events, n, j, Identity(cfg.limits[j], who), CostOf(cfg.limits[j], p, c, t));
  }

  lemma BodyTokens(model: string, figs: Figures, modelFirst: bool, p: nat, c: nat, t: nat)
    requires Keyed(figs) && '"' !in model && (modelFirst ==> !IsFigureKey(model)) && p + c > 0
    requires FigureOf(figs, "prompt_tokens") == p && FigureOf(figs, "completion_tokens") == c
    requires FigureOf(figs, "total_tokens") == t
    ensures Parse(true, false, Some(BodyText(model, figs, modelFirst))).tokens
              == Tokens(p, c, if t == 0 then p + c else t)
  {
    BodyCosts(model, figs, modelFirst, false);
  }

  /** From the body to the counter: in every run, a metered response whose usage object
      states p, c and t costs a prompt limit p, a completion limit c and a total limit
      t, or p + c when t is not stated. */
  lemma BodyCounts(
    cfg: Config, states: seq<Fleet>, events: seq<Event>, n: nat, j: nat,
    model: string, figs: Figures, modelFirst: bool, p: nat, c: nat, t: nat)
    requires Sound(cfg) && IsRun(cfg, states, events) && n < |events| && j < |cfg.limits| && !cfg.limits[j].native
    requires Enabled(states[n], events[n]) && events[n].Response? && !events[n].reply.skipped
    requires events[n].reply.usage == Parse(true, false, Some(BodyText(model, figs, modelFirst)))
    requires Keyed(figs) && '"' !in model && (modelFirst ==> !IsFigureKey(model)) && p + c > 0
    requires FigureOf(figs, "prompt_tokens") == p && FigureOf(figs, "completion_tokens") == c
    requires FigureOf(figs, "total_tokens") == t
    ensures Costs(cfg, states[n], states[n + 1], events[n], j, p, c, t)
  {
    BodyTokens(model, figs, modelFirst, p, c, t);
    TokensCount(cfg, states, events, n, j, p, c, t);
  }

  // ---------- Epochs ----------

  /** Counters of two epochs never meet, whatever the limits, callers and windows. */
  lemma EpochsApart(e: string, m: string, id: string, v: nat, e': string, n: string, id': string, w: nat)
    requires e != "" && e' != "" && ':' !in e && ':' !in e'
    ensures CounterKey(e, m, id, v) == CounterKey(e', n, id', w) ==> e == e'
  {
    EpochLeads(e, m, id, v);
    EpochLeads(e', n, id', w);
    if CounterKey(e, m, id, v) == CounterKey(e', n, id', w) {
      SameLead(CounterKey(e, m, id, v), e, e');
    }
  }

  ghost predicate Leads(e: string, k: string) { |e| < |k| && k[..|e|] == e && k[|e|] == ':' }

  lemma EpochLeads(e: string, m: string, id: string, v: nat)
    requires e != ""
    ensures Leads(e, CounterKey(e, m, id, v))
  {
  }

  lemma SameLead(k: string, e: string, e': string)
    requires Leads(e, k) && Leads(e', k) && ':' !in e && ':' !in e'
    ensures e == e'
  {
    assert forall i | 0 <= i < |e| :: k[i] == k[..|e|][i] && k[i] in e;
    assert forall i | 0 <= i < |e'| :: k[i] == k[..|e'|][i] && k[i] in e';
  }
}
