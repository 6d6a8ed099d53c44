/** The bound on the overage is reached: a run that charges exactly B - 1 + K * M. One
    consumer uses the budget up to its last token, then sends K requests before any of
    them is answered. */
module OverageReached {
  import opened Text
  import opened SeTable
  import opened TokenCounters
  import opened UsageParse
  import opened UsageLedger
  import opened CarryProtocol
  import opened Accounting
  import opened FleetRun
  import opened BoundedOverage

  const CALLER := Who("u", "", map[])

  function Budget(B: nat): Limit { Limit("t", 60, Total, Consumer, B, false, "", map[], false, false) }

  function Route(B: nat): Config { Config("", "", [Budget(B)], map[], "") }

  lemma RouteSound(B: nat)
    ensures Sound(Route(B))
  {
  }

  // ---------- Responses of a given cost ----------

  const KEY := "\"total_tokens\""

  function BodyOf(n: nat): string { KEY + ":" + Dec(n) }

  function UsageOf(n: nat): Usage { Parse(true, false, Some(BodyOf(n))) }

  lemma BodyReads(n: nat)
    ensures NumAfter(BodyOf(n), KEY) == n
  {
    var body := BodyOf(n);
    assert body[0..|KEY|] == KEY;
    assert FindFrom(body, KEY, 0) == Some(0);
    assert body[|KEY|] == ':';
    assert body[|KEY| + 1..|body|] == Dec(n);
    NumAfterReads(body, KEY, n, |KEY| + 1, |body|);
  }

  lemma UsageCosts(n: nat)
    requires n >= 1
    ensures Parsed(UsageOf(n)) && UsageOf(n).tokens.total == n
  {
    BodyReads(n);
  }

  // ---------- Building the run ----------

  function AimAt(B: nat, K: nat, M: nat): Aim { Aim(0, 0, "u", B, K, M) }

  ghost predicate Ends(f: Fleet, B: nat, sum: nat, pending: nat) {
    && |f.engines| == 1 && f.now == 0
    && WindowSum(f.engines[0].charges, Budget(B), "u", 0) == sum
    && |f.engines[0].inflight| == pending && forall i | 0 <= i < pending :: f.engines[0].inflight[i] == CALLER
  }

  ghost predicate IsSuchRun(states: seq<Fleet>, events: seq<Event>, a: Aim, sum: nat, pending: nat) {
    && IsRun(Route(a.B), states, events) && Setting(Route(a.B), states, events, a)
    && Ends(states[|states| - 1], a.B, sum, pending)
  }

  /** Some run of the setting ends with so much charged and so many pending. */
  ghost predicate Reachable(a: Aim, sum: nat, pending: nat) {
    a == AimAt(a.B, a.K, a.M) && exists states, events :: IsSuchRun(states, events, a, sum, pending)
  }

  lemma {:induction false} PendingAtMost(inflight: seq<Who>, l: Limit, id: string)
    ensures Pending(inflight, l, id) <= |inflight|
  {
    if inflight != [] {
      PendingAtMost(inflight[..|inflight| - 1], l, id);
    }
  }

  /** The event is enabled, leads to the state, and the setting allows it. */
  ghost predicate MayFollow(f: Fleet, a: Aim, e: Event, f': Fleet) {
    && Windowed(Route(a.B).limits) && Enabled(f, e) && f' == Step(Route(a.B), f, e)
    && Calm(Route(a.B), f', a) && Modest(Route(a.B), e, a)
  }

  lemma Extend(states: seq<Fleet>, events: seq<Event>, a: Aim, e: Event, f: Fleet)
    requires IsRun(Route(a.B), states, events) && Setting(Route(a.B), states, events, a)
    requires MayFollow(states[|states| - 1], a, e, f)
    ensures IsRun(Route(a.B), states + [f], events + [e]) && Setting(Route(a.B), states + [f], events + [e], a)
  {
    var ss, es := states + [f], events + [e];
    forall i | 0 <= i < |es| ensures Enabled(ss[i], es[i]) && ss[i + 1] == Step(Route(a.B), ss[i], es[i]) {
      if i < |events| {
        assert ss[i] == states[i] && es[i] == events[i] && ss[i + 1] == states[i + 1];
      }
    }
  }

  lemma ReachOn(
    states: seq<Fleet>, events: seq<Event>, a: Aim, e: Event, f: Fleet, before: (nat, nat), after: (nat, nat))
    requires IsSuchRun(states, events, a, before.0, before.1) && a == AimAt(a.B, a.K, a.M)
    requires MayFollow(states[|states| - 1], a, e, f) && Ends(f, a.B, after.0, after.1)
    ensures Reachable(a, after.0, after.1)
  {
    Extend(states, events, a, e, f);
    assert IsSuchRun(states + [f], events + [e], a, after.0, after.1);
  }

  lemma CalmIf(f: Fleet, a: Aim)
    requires a == AimAt(a.B, a.K, a.M) && |f.engines| == 1 && |f.engines[0].inflight| <= a.K
    ensures Calm(Route(a.B), f, a)
  {
    PendingAtMost(f.engines[0].inflight, Budget(a.B), "u");
  }

  lemma Admitted(states: seq<Fleet>, events: seq<Event>, a: Aim, sum: nat, pending: nat)
    requires IsSuchRun(states, events, a, sum, pending) && sum < a.B
    ensures Admits(Route(a.B), 0, states[|states| - 1].engines[0], CALLER)
  {
    RouteSound(a.B);
    CountersRefineSums(Route(a.B), states, events, |states| - 1, 0, 0, "u");
  }

  lemma AdmitEvent(f: Fleet, a: Aim, sum: nat, pending: nat) returns (f': Fleet)
    requires Ends(f, a.B, sum, pending) && a == AimAt(a.B, a.K, a.M) && pending < a.K
    requires Windowed(Route(a.B).limits) && Admits(Route(a.B), 0, f.engines[0], CALLER)
    ensures MayFollow(f, a, Request(0, CALLER), f') && Ends(f', a.B, sum, pending + 1)
  {
    f' := Step(Route(a.B), f, Request(0, CALLER));
    CalmIf(f', a);
  }

  lemma AdmitOn(states: seq<Fleet>, events: seq<Event>, a: Aim, sum: nat, pending: nat)
    requires IsSuchRun(states, events, a, sum, pending) && a == AimAt(a.B, a.K, a.M) && sum < a.B && pending < a.K
    ensures Reachable(a, sum, pending + 1)
  {
    Admitted(states, events, a, sum, pending);
    var f := AdmitEvent(states[|states| - 1], a, sum, pending);
    ReachOn(states, events, a, Request(0, CALLER), f, (sum, pending), (sum, pending + 1));
  }

  lemma Admit(a: Aim, sum: nat, pending: nat)
    requires Reachable(a, sum, pending) && sum < a.B && pending < a.K
    ensures Reachable(a, sum, pending + 1)
  {
    var states, events :| IsSuchRun(states, events, a, sum, pending);
    AdmitOn(states, events, a, sum, pending);
  }

  lemma ChargeOn(states: seq<Fleet>, events: seq<Event>, a: Aim, sum: nat, pending: nat, u: Usage)
    requires IsSuchRun(states, events, a, sum, pending) && a == AimAt(a.B, a.K, a.M)
    requires Parsed(u) && u.tokens.total <= a.M && 1 <= pending <= a.K
    ensures Reachable(a, sum + u.tokens.total, pending - 1)
  {
    var e, f := ChargeEvent(states[|states| - 1], a, sum, pending, u);
    ReachOn(states, events, a, e, f, (sum, pending), (sum + u.tokens.total, pending - 1));
  }

  lemma Charge(a: Aim, sum: nat, pending: nat, cost: nat)
    requires Reachable(a, sum, pending) && 1 <= cost <= a.M && 1 <= pending <= a.K
    ensures Reachable(a, sum + cost, pending - 1)
  {
    var states, events :| IsSuchRun(states, events, a, sum, pending);
    UsageCosts(cost);
    ChargeOn(states, events, a, sum, pending, UsageOf(cost));
  }

  lemma ChargeEvent(f: Fleet, a: Aim, sum: nat, pending: nat, u: Usage) returns (e: Event, f': Fleet)
    requires Ends(f, a.B, sum, pending) && a == AimAt(a.B, a.K, a.M)
    requires Parsed(u) && u.tokens.total <= a.M && 1 <= pending <= a.K
    ensures MayFollow(f, a, e, f') && Ends(f', a.B, sum + u.tokens.total, pending - 1)
  {
    var r := Reply(false, u, "");
    RouteSound(a.B);
    e := Response(0, 0, r);
    f' := Step(Route(a.B), f, e);
    Charged(f, a.B, sum, pending, r, f');
    CalmIf(f', a);
  }

  lemma Charged(f: Fleet, B: nat, sum: nat, pending: nat, r: Reply, f': Fleet)
    requires Ends(f, B, sum, pending) && pending >= 1 && !r.skipped
    requires Windowed(Route(B).limits) && f' == Step(Route(B), f, Response(0, 0, r))
    ensures Ends(f', B, sum + r.usage.tokens.total, pending - 1)
  {
    RouteSound(B);
    var g := f.engines[0];
    assert f'.engines == [Responded(Route(B), 0, g, 0, r)];
    ResponseSum(Route(B), 0, g, 0, r, 0, "u", 0);
    assert f'.engines[0].inflight == Without(g.inflight, 0) == g.inflight[1..];
  }

  lemma Begin(a: Aim)
    requires a == AimAt(a.B, a.K, a.M) && a.B >= 1
    ensures Reachable(a, 0, 0)
  {
    var start := Fleet(0, [Engine(map[], [], [], [])], map[], Collector(map[], []));
    CalmIf(start, a);
    assert IsSuchRun([start], [], a, 0, 0);
  }

  /** The budget is used up token by token. */
  lemma {:induction false} Fill(a: Aim, n: nat)
    requires a == AimAt(a.B, a.K, a.M) && n < a.B && a.K >= 1 && a.M >= 1
    ensures Reachable(a, n, 0)
  {
    if n == 0 {
      Begin(a);
    } else {
      Fill(a, n - 1);
      Admit(a, n - 1, 0);
      Charge(a, n - 1, 1, 1);
    }
  }

  /** One token is left, so any number of requests is let in. */
  lemma {:induction false} Crowd(a: Aim, k: nat)
    requires a.B >= 1 && k <= a.K && Reachable(a, a.B - 1, 0)
    ensures Reachable(a, a.B - 1, k)
  {
    if k > 0 {
      Crowd(a, k - 1);
      Admit(a, a.B - 1, k - 1);
    }
  }

  /** And all of them are charged in full. */
  lemma {:induction false} Burst(a: Aim, sum: nat, k: nat, cost: nat)
    requires Reachable(a, sum, a.K) && a.M >= 1 && k <= a.K && cost == k * a.M
    ensures Reachable(a, sum + cost, a.K - k)
  {
    if k > 0 {
      Distribute(k - 1, a.M);
      Burst(a, sum, k - 1, cost - a.M);
      Charge(a, sum + cost - a.M, a.K - k + 1, a.M);
    }
  }

  /** For every budget, every number of pending requests and every cost there is a run
      of the setting that ends with exactly the bound charged in one window. */
  lemma BoundReached(B: nat, K: nat, M: nat)
    requires B >= 1 && K >= 1 && M >= 1
    ensures exists states: seq<Fleet>, events: seq<Event> ::
              && IsRun(Route(B), states, events) && Setting(Route(B), states, events, AimAt(B, K, M))
              && |states[|states| - 1].engines| == 1
              && WindowSum(states[|states| - 1].engines[0].charges, Budget(B), "u", 0) == B - 1 + K * M
  {
    var a := AimAt(B, K, M);
    Fill(a, B - 1);
    Crowd(a, K);
    Burst(a, B - 1, K, K * M);
    var states, events :| IsSuchRun(states, events, a, B - 1 + K * M, 0);
  }
}
