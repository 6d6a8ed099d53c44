/** How long a staged token lasts: from the response that staged it for exactly one
    window of its limit, unless the consumer's next request settles it or a further
    response renews it. */
module CarryLife {
  import opened Text
  import opened SeTable
  import opened TokenCounters
  import opened CarryProtocol
  import opened Accounting
  import opened FleetRun
  import opened CarryRun

  // ---------- One response ----------

  /** The carry is rewritten with one window to live, or left as it was. */
  ghost predicate Rewritten(t: Table, t': Table, now: nat, l: Limit, id: string, u: Tokens, staged: bool) {
    var k := CarryKey(l.name, id);
    if staged then k in t' && t'[k] == Entry(Dec(NumberAt(t, k) + Amount(u, l.dim)), now + l.window)
    else Same(t, t', k)
  }

  ghost predicate Entered(
    epoch: string, t: Table, now: nat, limits: seq<Limit>, n: nat, who: Who, u: Tokens, m: nat, id: string)
    requires Windowed(limits) && n <= |limits| && m < |limits|
  {
    Rewritten(t, Consumed(epoch, t, now, limits, n, who, u), now, limits[m], id, u,
              m < n && limits[m].native && KeyId(limits[m], who) == id)
  }

  /** A response rewrites the carry of its consumer under each native limit, with one
      window to live, and no other carry. */
  lemma EntryAfter(
    epoch: string, t: Table, now: nat, limits: seq<Limit>, n: nat, who: Who, u: Tokens, m: nat, id: string)
    requires WellFormed(limits) && OffCarry(epoch, limits) && n <= |limits| && m < |limits|
    ensures Entered(epoch, t, now, limits, n, who, u, m, id)
  {
    forall j | 0 <= j < n ensures Entered(epoch, t, now, limits, j, who, u, m, id) ==>
                                    Entered(epoch, t, now, limits, j + 1, who, u, m, id)
    {
      if limits[j].native {
        EntryStep(epoch, Consumed(epoch, t, now, limits, j, who, u), now, limits, j, who, u, m, id);
      }
    }
    EntryOn(epoch, t, now, limits, n, who, u, m, id);
  }

  lemma {:induction false} EntryOn(
    epoch: string, t: Table, now: nat, limits: seq<Limit>, n: nat, who: Who, u: Tokens, m: nat, id: string)
    requires Windowed(limits) && n <= |limits| && m < |limits|
    requires forall j | 0 <= j < n :: Entered(epoch, t, now, limits, j, who, u, m, id) ==>
                                        Entered(epoch, t, now, limits, j + 1, who, u, m, id)
    ensures Entered(epoch, t, now, limits, n, who, u, m, id)
  {
    if n > 0 {
      EntryOn(epoch, t, now, limits, n - 1, who, u, m, id);
    }
  }

  lemma EntryStep(
    epoch: string, t: Table, now: nat, limits: seq<Limit>, j: nat, who: Who, u: Tokens, m: nat, id: string)
    requires WellFormed(limits) && OffCarry(epoch, limits) && j < |limits| && m < |limits|
    ensures Rewritten(t, Consume(epoch, t, now, limits[j], who, u), now, limits[m], id, u,
                      m == j && KeyId(limits[m], who) == id)
  {
    var l, k := limits[j], CarryKey(limits[m].name, id);
    CarryKeyIsCarry(limits[m].name, id);
    ConsumeEffect(epoch, t, now, l, who, u, k);
    if k == KeyOf(l, who) {
      CarryKeyInjective(limits[m].name, id, l.name, KeyId(l, who));
    }
  }

  /** After a response each native limit's carry is there in full at every moment of the
      window that follows, and gone once the window has passed. */
  lemma CarryLasts(epoch: string, t: Table, now: nat, limits: seq<Limit>, who: Who, u: Tokens, m: nat, to: nat)
    requires WellFormed(limits) && OffCarry(epoch, limits) && m < |limits| && limits[m].native
    ensures
      var l, id := limits[m], KeyId(limits[m], who);
      Staged(Expire(Consumed(epoch, t, now, limits, |limits|, who, u), to), l, id)
        == if to < now + l.window then Staged(t, l, id) + Amount(u, l.dim) else 0
  {
    var l, id := limits[m], KeyId(limits[m], who);
    EntryAfter(epoch, t, now, limits, |limits|, who, u, m, id);
    DecRoundTrip(Staged(t, l, id) + Amount(u, l.dim));
  }

  // ---------- Over runs ----------

  /** A response that stages tokens of the identity on the engine. */
  predicate Stages(cfg: Config, e: Event, se: nat, m: nat, id: string)
    requires m < |cfg.limits|
  {
    e.Staging? && e.se == se && cfg.limits[m].native && KeyId(cfg.limits[m], e.who) == id
  }

  /** When the identity's tokens were last staged on the engine. */
  function LastStaged(
    cfg: Config, states: seq<Fleet>, events: seq<Event>, n: nat, se: nat, m: nat, id: string): (at: Option<nat>)
    requires n <= |events| < |states| && m < |cfg.limits|
  {
    if n == 0 then None
    else if Stages(cfg, events[n - 1], se, m, id) then Some(states[n - 1].now)
    else LastStaged(cfg, states, events, n - 1, se, m, id)
  }

  lemma TimeStep(cfg: Config, states: seq<Fleet>, events: seq<Event>, n: nat)
    requires Windowed(cfg.limits) && IsRun(cfg, states, events) && n < |events|
    ensures Enabled(states[n], events[n]) && states[n + 1] == Step(cfg, states[n], events[n])
    ensures states[n].now <= states[n + 1].now && |states[n].engines| == |states[n + 1].engines|
  {
  }

  lemma {:induction false} TimePasses(cfg: Config, states: seq<Fleet>, events: seq<Event>, i: nat, j: nat)
    requires Windowed(cfg.limits) && IsRun(cfg, states, events) && i <= j < |states|
    ensures states[i].now <= states[j].now && |states[i].engines| == |states[j].engines|
  {
    if i < j {
      TimePasses(cfg, states, events, i, j - 1);
      TimeStep(cfg, states, events, j - 1);
    }
  }

  /** What one step does to a carry: a tick drops it or leaves it, a request settles it
      or leaves it, a response of its consumer rewrites it. */
  lemma CarryStep(cfg: Config, f: Fleet, e: Event, se: nat, m: nat, id: string)
    requires Sound(cfg) && Fits(f, e) && se < |f.engines| && m < |cfg.limits|
    ensures
      var l, k := cfg.limits[m], CarryKey(cfg.limits[m].name, id);
      var t, t' := f.engines[se].table, Step(cfg, f, e).engines[se].table;
      if Stages(cfg, e, se, m, id)
      then k in t' && t'[k] == Entry(Dec(NumberAt(t, k) + Amount(e.usage.tokens, l.dim)), f.now + l.window)
      else if e.Tick? then Same(Expire(t, e.to), t', k)
      else Same(t, t', k) || (k !in t' && Theirs(cfg, e, se, m, id))
  {
    var k := CarryKey(cfg.limits[m].name, id);
    CarryKeyIsCarry(cfg.limits[m].name, id);
    match e
    case Gates(se', who) =>
      if se' == se {
        GatesTake(cfg, f, se, who, m, id);
      }
    case Staging(se', who, u) =>
      if se' == se {
        EntryAfter(cfg.epoch, f.engines[se].table, f.now, cfg.limits, |cfg.limits|, who, u.tokens, m, id);
      }
    case Response(se', i, r) =>
      if se' == se {
        ResponseLeavesCarry(cfg, f.engines[se].table, f.now, f.engines[se].inflight[i], r, k);
      }
    case _ =>
  }

  lemma GatesTake(cfg: Config, f: Fleet, se: nat, who: Who, m: nat, id: string)
    requires Sound(cfg) && se < |f.engines| && m < |cfg.limits|
    ensures
      var k, t := CarryKey(cfg.limits[m].name, id), f.engines[se].table;
      var t' := GatedSide(cfg, f, se, who).table;
      Same(t, t', k) || (k !in t' && KeyId(cfg.limits[m], who) == id)
  {
    var k, t := CarryKey(cfg.limits[m].name, id), f.engines[se].table;
    var at := StopOf(cfg, f, se, who);
    RequestExact(cfg.vs, cfg.sizes, SideOf(f, se), cfg.limits, who);
    if k in CarriesOf(t, cfg.limits[..at], who) {
      if k != KeyOf(cfg.limits[m], who) {
        NotTheirs(t, cfg.limits, at, who, m, id);
      }
      CarryKeyInjective(cfg.limits[m].name, id, cfg.limits[m].name, KeyId(cfg.limits[m], who));
    }
  }

  /** In every run, a carry there is lives to exactly one window after the response that
      last staged into it. */
  lemma {:induction false} ExpiryExactly(
    cfg: Config, states: seq<Fleet>, events: seq<Event>, n: nat, se: nat, m: nat, id: string)
    requires Sound(cfg) && IsRun(cfg, states, events) && n < |states|
    requires se < |states[n].engines| && m < |cfg.limits|
    ensures
      var t, k := states[n].engines[se].table, CarryKey(cfg.limits[m].name, id);
      var last := LastStaged(cfg, states, events, n, se, m, id);
      k in t ==> last.Some? && t[k].expires == last.value + cfg.limits[m].window && states[n].now < t[k].expires
  {
    if n > 0 {
      TimeStep(cfg, states, events, n - 1);
      ExpiryExactly(cfg, states, events, n - 1, se, m, id);
      CarryStep(cfg, states[n - 1], events[n - 1], se, m, id);
    }
  }

  lemma {:induction false} LastSince(
    cfg: Config, states: seq<Fleet>, events: seq<Event>, i: nat, n: nat, se: nat, m: nat, id: string)
    requires i < n <= |events| < |states| && m < |cfg.limits| && Stages(cfg, events[i], se, m, id)
    requires forall k | i <= k < n :: states[i].now <= states[k].now
    ensures
      var last := LastStaged(cfg, states, events, n, se, m, id);
      last.Some? && states[i].now <= last.value
  {
    if i < n - 1 {
      LastSince(cfg, states, events, i, n - 1, se, m, id);
    }
  }

  lemma StagedSince(
    cfg: Config, states: seq<Fleet>, events: seq<Event>, i: nat, n: nat, se: nat, m: nat, id: string)
    requires Sound(cfg) && IsRun(cfg, states, events) && i < n < |states| && m < |cfg.limits|
    requires Stages(cfg, events[i], se, m, id)
    ensures
      var last := LastStaged(cfg, states, events, n, se, m, id);
      last.Some? && states[i].now <= last.value
  {
    forall k | i <= k < n ensures states[i].now <= states[k].now {
      TimePasses(cfg, states, events, i, k);
    }
    LastSince(cfg, states, events, i, n, se, m, id);
  }

  /** In every run, nothing staged less than a window ago is dropped: a tick that drops
      any of a carry comes a full window after every response that staged into it. */
  lemma YoungNeverExpires(
    cfg: Config, states: seq<Fleet>, events: seq<Event>, i: nat, n: nat, se: nat, m: nat, id: string)
    requires Sound(cfg) && IsRun(cfg, states, events) && i < n < |events| && m < |cfg.limits|
    requires se < |states[n].engines| && Stages(cfg, events[i], se, m, id) && events[n].Tick?
    ensures events[n].to < states[i].now + cfg.limits[m].window ==>
              Expiring(states[n].engines[se].table, events[n].to, cfg.limits[m], id) == 0
  {
    ExpiryExactly(cfg, states, events, n, se, m, id);
    StagedSince(cfg, states, events, i, n, se, m, id);
  }

  /** In every run, a carry not renewed for a window is gone. */
  lemma OldIsGone(cfg: Config, states: seq<Fleet>, events: seq<Event>, n: nat, se: nat, m: nat, id: string)
    requires Sound(cfg) && IsRun(cfg, states, events) && n < |states|
    requires se < |states[n].engines| && m < |cfg.limits|
    requires
      var last := LastStaged(cfg, states, events, n, se, m, id);
      last.None? || last.value + cfg.limits[m].window <= states[n].now
    ensures Staged(states[n].engines[se].table, cfg.limits[m], id) == 0
  {
    ExpiryExactly(cfg, states, events, n, se, m, id);
  }

  /** What responses staged for the identity on the engine between two states. */
  function StagedIn(cfg: Config, events: seq<Event>, from: nat, to: nat, se: nat, m: nat, id: string): nat
    requires from <= to <= |events| && m < |cfg.limits|
  {
    if from == to then 0
    else
      StagedIn(cfg, events, from, to - 1, se, m, id)
      + if Stages(cfg, events[to - 1], se, m, id) then Amount(events[to - 1].usage.tokens, cfg.limits[m].dim) else 0
  }

  /** No request of the identity reached the engine in between. */
  ghost predicate Unasked(cfg: Config, events: seq<Event>, from: nat, to: nat, se: nat, m: nat, id: string)
    requires from <= to <= |events| && m < |cfg.limits|
  {
    forall k | from <= k < to :: !Theirs(cfg, events[k], se, m, id)
  }

  /** What is staged in state n is what was staged before event i and all since. */
  ghost predicate Held(
    cfg: Config, states: seq<Fleet>, events: seq<Event>, i: nat, n: nat, se: nat, m: nat, id: string)
    requires i <= n <= |events| < |states| && m < |cfg.limits|
  {
    && se < |states[i].engines| && se < |states[n].engines|
    && Staged(states[n].engines[se].table, cfg.limits[m], id)
         == Staged(states[i].engines[se].table, cfg.limits[m], id) + StagedIn(cfg, events, i, n, se, m, id)
  }

  lemma HeldNext(
    cfg: Config, states: seq<Fleet>, events: seq<Event>, i: nat, n: nat, se: nat, m: nat, id: string)
    requires Sound(cfg) && IsRun(cfg, states, events) && i <= n < |events| && m < |cfg.limits|
    requires Stages(cfg, events[i], se, m, id) && !Theirs(cfg, events[n], se, m, id)
    requires Held(cfg, states, events, i, n, se, m, id)
    requires states[n + 1].now < states[i].now + cfg.limits[m].window
    ensures Held(cfg, states, events, i, n + 1, se, m, id)
  {
    TimeStep(cfg, states, events, n);
    CarryStep(cfg, states[n], events[n], se, m, id);
    var l, t := cfg.limits[m], states[n].engines[se].table;
    if Stages(cfg, events[n], se, m, id) {
      DecRoundTrip(Staged(t, l, id) + Amount(events[n].usage.tokens, l.dim));
    } else if events[n].Tick? {
      YoungNeverExpires(cfg, states, events, i, n, se, m, id);
    }
  }

  /** In every run, what a response staged is still there in full a moment short of a
      window later, with all that was staged since, unless a request of its consumer
      came to the engine in between. */
  lemma HeldForAWindow(
    cfg: Config, states: seq<Fleet>, events: seq<Event>, i: nat, n: nat, se: nat, m: nat, id: string)
    requires Sound(cfg) && IsRun(cfg, states, events) && i <= n < |states| && i < |events| && m < |cfg.limits|
    requires Fits(states[i], events[i]) && Stages(cfg, events[i], se, m, id)
    requires Unasked(cfg, events, i, n, se, m, id) && states[n].now < states[i].now + cfg.limits[m].window
    ensures Held(cfg, states, events, i, n, se, m, id)
  {
    forall k | i <= k < n ensures Held(cfg, states, events, i, k, se, m, id) ==>
                                    Held(cfg, states, events, i, k + 1, se, m, id)
    {
      if Held(cfg, states, events, i, k, se, m, id) {
        TimePasses(cfg, states, events, k + 1, n);
        HeldNext(cfg, states, events, i, k, se, m, id);
      }
    }
    HeldOn(cfg, states, events, i, n, se, m, id);
  }

  lemma {:induction false} HeldOn(
    cfg: Config, states: seq<Fleet>, events: seq<Event>, i: nat, n: nat, se: nat, m: nat, id: string)
    requires i <= n <= |events| < |states| && m < |cfg.limits| && Held(cfg, states, events, i, i, se, m, id)
    requires forall k | i <= k < n :: Held(cfg, states, events, i, k, se, m, id) ==>
                                        Held(cfg, states, events, i, k + 1, se, m, id)
    ensures Held(cfg, states, events, i, n, se, m, id)
  {
    if i < n {
      HeldOn(cfg, states, events, i, n - 1, se, m, id);
    }
  }

  /** So the consumer's next request on that engine within the window is due the whole
      of it, and 1 only if nothing was used. */
  lemma DueWithinAWindow(
    cfg: Config, states: seq<Fleet>, events: seq<Event>, i: nat, n: nat, se: nat, m: nat, who: Who)
    requires Sound(cfg) && IsRun(cfg, states, events) && i < n < |states| && m < |cfg.limits|
    requires Fits(states[i], events[i]) && Stages(cfg, events[i], se, m, KeyId(cfg.limits[m], who))
    requires Unasked(cfg, events, i, n, se, m, KeyId(cfg.limits[m], who))
    requires states[n].now < states[i].now + cfg.limits[m].window
    ensures se < |states[n].engines|
    ensures
      var l, id := cfg.limits[m], KeyId(cfg.limits[m], who);
      var all := Staged(states[i].engines[se].table, l, id) + StagedIn(cfg, events, i, n, se, m, id);
      && all >= Amount(events[i].usage.tokens, l.dim)
      && Due(states[n].engines[se].table, l, who) == if all > 0 then all else 1
  {
    HeldForAWindow(cfg, states, events, i, n, se, m, KeyId(cfg.limits[m], who));
    StagedCounts(cfg, events, i, n, se, m, KeyId(cfg.limits[m], who));
  }

  lemma {:induction false} StagedCounts(
    cfg: Config, events: seq<Event>, i: nat, n: nat, se: nat, m: nat, id: string)
    requires i < n <= |events| && m < |cfg.limits| && Stages(cfg, events[i], se, m, id)
    ensures StagedIn(cfg, events, i, n, se, m, id) >= Amount(events[i].usage.tokens, cfg.limits[m].dim)
  {
    if i < n - 1 {
      StagedCounts(cfg, events, i, n - 1, se, m, id);
    }
  }
}
