/** What a sync leaves behind, said of the route outcomes and not of the steps: whose
    children a gateway has, with what contents, and when its key is published. */
module SyncOutcome {
  import opened Text
  import opened RouteReconcile
  import opened GatewaySync
  import opened SyncRun

  // ---------- What is asked for ----------

  /** What the routes' jobs last said of a route; an errored job says nothing. */
  function LastFor(jobs: seq<Job>, route: Name): Option<Outcome> {
    if jobs == [] then None
    else
      var job := jobs[|jobs| - 1];
      if job.route == route && !job.outcome.Errored? then Some(job.outcome)
      else LastFor(jobs[..|jobs| - 1], route)
  }

  /** A route's children, in order. */
  function OfRoute(children: seq<Child>, route: Name): seq<Child> {
    if children == [] then []
    else
      OfRoute(children[..|children| - 1], route)
      + if children[|children| - 1].route == route then [children[|children| - 1]] else []
  }

  /** No later rule has the same child name. */
  ghost predicate LastRule(rules: seq<Rule>, i: nat) {
    i < |rules| && forall j | i < j < |rules| :: rules[j].child != rules[i].child
  }

  /** The child that a rule of the outcome asks for. */
  ghost predicate AskedFor(o: Outcome, route: Name, c: Child) {
    && o.Rebuilt? && o.hosts.Known? && o.hosts.hosts != []
    && exists i: nat :: LastRule(o.rules, i) && c == Child(o.rules[i].child, route, o.rules[i].body)
  }

  /** The children of the route are those asked for: none when it is gone, when none of
      its hostnames is on the gateway, or when none were ever mapped. */
  ghost predicate AsAsked(children: seq<Child>, route: Name, o: Outcome) {
    forall c: Child | c.route == route :: c in children <==> AskedFor(o, route, c)
  }

  /** A route of which nothing was said has the children it had, in the same order. */
  ghost predicate RouteAsAsked(before: seq<Child>, after: seq<Child>, jobs: seq<Job>, route: Name) {
    match LastFor(jobs, route)
    case Some(o) => AsAsked(after, route, o)
    case None => OfRoute(after, route) == OfRoute(before, route)
  }

  lemma {:induction false} OfRouteMembers(children: seq<Child>, route: Name, c: Child)
    ensures c in OfRoute(children, route) <==> c in children && c.route == route
  {
    if children != [] {
      var init := children[..|children| - 1];
      assert children == init + [children[|children| - 1]];
      OfRouteMembers(init, route, c);
    }
  }

  lemma {:induction false} OfOthers(children: seq<Child>, route: Name, other: Name)
    requires route != other
    ensures OfRoute(Others(children, route), other) == OfRoute(children, other)
  {
    if children != [] {
      var init, last := children[..|children| - 1], children[|children| - 1];
      OfOthers(init, route, other);
      OfRouteNext(Others(init, route), last, other);
      assert Others(init, route) + [] == Others(init, route);
    }
  }

  lemma OfRouteNext(children: seq<Child>, c: Child, route: Name)
    ensures OfRoute(children + [c], route) == OfRoute(children, route) + if c.route == route then [c] else []
  {
    assert (children + [c])[..|children|] == children;
  }

  lemma {:induction false} BodyForLast(rules: seq<Rule>, name: Name) returns (i: nat)
    requires name in RuleNames(rules)
    ensures LastRule(rules, i) && rules[i].child == name && BodyFor(rules, name) == rules[i].body
  {
    var init := rules[..|rules| - 1];
    if rules[|rules| - 1].child == name {
      i := |rules| - 1;
    } else {
      assert rules == init + [rules[|rules| - 1]];
      i := BodyForLast(init, name);
    }
  }

  lemma LastRuleUnique(rules: seq<Rule>, i: nat, j: nat)
    requires LastRule(rules, i) && LastRule(rules, j) && rules[i].child == rules[j].child
    ensures i == j
  {
  }

  // ---------- One job ----------

  /** A job for one route leaves every other route's children as they are. */
  lemma OtherRoute(a: seq<Child>, b: seq<Child>, route: Name, other: Name)
    requires Others(a, route) == Others(b, route) && route != other
    ensures OfRoute(a, other) == OfRoute(b, other)
  {
    OfOthers(a, route, other);
    OfOthers(b, route, other);
  }

  lemma GoneOutcome(s: Sync, job: Job, owner: Name -> Name)
    requires s.model.Some? && Owned(ModelOf(s), owner) && job.outcome.Gone?
    ensures
      var m' := ModelOf(DoJob(s, job));
      Owned(m', owner) && AsAsked(m'.children, job.route, Gone)
      && Others(m'.children, job.route) == Others(s.model.value.children, job.route)
  {
    var m := ModelOf(s);
    GoneModel(s, job);
    DeletionOwned(m, job.route, {}, owner);
    DeleteAllClears(m, job.route);
  }

  lemma RebuiltOutcome(s: Sync, job: Job, owner: Name -> Name)
    requires s.model.Some? && Owned(ModelOf(s), owner) && job.outcome.Rebuilt? && JobOwned(job, owner)
    ensures
      var m' := ModelOf(DoJob(s, job));
      Owned(m', owner) && AsAsked(m'.children, job.route, job.outcome)
      && Others(m'.children, job.route) == Others(s.model.value.children, job.route)
  {
    var m, rules, hosts := ModelOf(s), job.outcome.rules, job.outcome.hosts;
    RebuiltModel(s, job);
    RulesOwned(m, job, owner);
    DeletionOwned(BuildAll(m, job.route, rules, hosts), job.route, Built(rules, hosts), owner);
    OwnedNames(m, job, owner);
    ReconcileExact(m, job.route, rules, hosts);
    ReconciledAsAsked(m, Reconcile(m, job.route, rules, hosts), job.route, rules, hosts);
  }

  lemma ReconciledAsAsked(m: Model, m': Model, route: Name, rules: seq<Rule>, hosts: Hosts)
    requires Reconciled(m, m', route, rules, hosts)
    ensures AsAsked(m'.children, route, Rebuilt(rules, hosts))
  {
    forall c: Child | c.route == route
      ensures c in m'.children <==> AskedFor(Rebuilt(rules, hosts), route, c)
    {
      if hosts.Known? && hosts.hosts != [] {
        RuleOf(rules, route, c);
      }
    }
  }

  lemma RuleOf(rules: seq<Rule>, route: Name, c: Child)
    requires c.route == route
    ensures (c.name in RuleNames(rules) && c == Child(c.name, route, BodyFor(rules, c.name))) <==>
              exists i: nat :: LastRule(rules, i) && c == Child(rules[i].child, route, rules[i].body)
  {
    if c.name in RuleNames(rules) {
      var i := BodyForLast(rules, c.name);
      if j: nat :| LastRule(rules, j) && c == Child(rules[j].child, route, rules[j].body) {
        LastRuleUnique(rules, i, j);
      }
    }
  }

  /** A job makes its own route as it asks and leaves every other route alone. */
  lemma JobOutcome(s: Sync, job: Job, owner: Name -> Name, route: Name)
    requires s.model.Some? && Owned(ModelOf(s), owner) && JobOwned(job, owner)
    ensures
      var r := DoJob(s, job);
      && Owned(ModelOf(r), owner)
      && (if job.route == route && !job.outcome.Errored?
          then AsAsked(r.model.value.children, route, job.outcome)
          else OfRoute(r.model.value.children, route) == OfRoute(s.model.value.children, route))
  {
    match job.outcome
    case Errored =>
    case Gone =>
      GoneOutcome(s, job, owner);
      if job.route != route {
        OtherRoute(DoJob(s, job).model.value.children, s.model.value.children, job.route, route);
      }
    case Rebuilt(_, _) =>
      RebuiltOutcome(s, job, owner);
      if job.route != route {
        OtherRoute(DoJob(s, job).model.value.children, s.model.value.children, job.route, route);
      }
  }

  // ---------- All jobs ----------

  lemma AsAskedStays(a: seq<Child>, b: seq<Child>, route: Name, o: Outcome)
    requires OfRoute(a, route) == OfRoute(b, route) && AsAsked(a, route, o)
    ensures AsAsked(b, route, o)
  {
    forall c: Child | c.route == route ensures c in b <==> AskedFor(o, route, c) {
      OfRouteMembers(a, route, c);
      OfRouteMembers(b, route, c);
    }
  }

  lemma {:induction false} JobsOutcome(s: Sync, jobs: seq<Job>, owner: Name -> Name, route: Name)
    requires s.model.Some? && Owned(ModelOf(s), owner)
    requires forall i | 0 <= i < |jobs| :: JobOwned(jobs[i], owner)
    ensures
      var r := DoJobs(s, jobs);
      && Owned(ModelOf(r), owner)
      && RouteAsAsked(s.model.value.children, r.model.value.children, jobs, route)
  {
    if jobs != [] {
      var init, job := jobs[..|jobs| - 1], jobs[|jobs| - 1];
      assert forall i | 0 <= i < |init| :: init[i] == jobs[i];
      JobsOutcome(s, init, owner, route);
      NextOutcome(s, DoJobs(s, init), init, job, owner, route);
    }
  }

  lemma NextOutcome(s: Sync, mid: Sync, init: seq<Job>, job: Job, owner: Name -> Name, route: Name)
    requires s.model.Some? && mid.model.Some? && Owned(ModelOf(mid), owner) && JobOwned(job, owner)
    requires RouteAsAsked(s.model.value.children, mid.model.value.children, init, route)
    ensures Owned(ModelOf(DoJob(mid, job)), owner)
    ensures RouteAsAsked(s.model.value.children, DoJob(mid, job).model.value.children, init + [job], route)
  {
    JobOutcome(mid, job, owner, route);
    assert (init + [job])[..|init|] == init;
    var last := LastFor(init, route);
    if (job.route != route || job.outcome.Errored?) && last.Some? {
      AsAskedStays(mid.model.value.children, DoJob(mid, job).model.value.children, route, last.value);
    }
  }

  // ---------- The whole sync ----------

  function ChildrenOf(s: Sync): seq<Child> { if s.model.Some? then s.model.value.children else [] }

  /** The model is there, every route is as its jobs last asked, child names are
      distinct, and the default policy is on. */
  ghost predicate SyncedAsAsked(s: Sync, r: Sync, jobs: seq<Job>) {
    && r.model.Some?
    && (forall route :: RouteAsAsked(ChildrenOf(s), r.model.value.children, jobs, route))
    && DistinctNames(r.model.value.children)
    && r.model.value.defaultPolicy
  }

  lemma RoutesOutcome(s: Sync, s1: Sync, jobs: seq<Job>, changed: bool, owner: Name -> Name)
    requires s1.model.Some? && Owned(ModelOf(s1), owner) && s1.model.value.children == ChildrenOf(s)
    requires forall i | 0 <= i < |jobs| :: JobOwned(jobs[i], owner)
    ensures SyncedAsAsked(s, Finish(DoJobs(s1, jobs), changed), jobs)
    ensures Finish(DoJobs(s1, jobs), changed).model.value.parent == s1.model.value.parent
  {
    JobsOutcome(s1, jobs, owner, Name(""));
    var s2 := DoJobs(s1, jobs);
    var r := Finish(s2, changed);
    assert r.model == Some(s2.model.value.(defaultPolicy := true));
    forall route ensures RouteAsAsked(ChildrenOf(s), r.model.value.children, jobs, route) {
      JobsOutcome(s1, jobs, owner, route);
    }
    ParentStays(s1, jobs);
  }

  lemma {:induction false} ParentStays(s: Sync, jobs: seq<Job>)
    requires s.model.Some?
    ensures DoJobs(s, jobs).model.value.parent == s.model.value.parent
  {
    if jobs != [] {
      ParentStays(s, jobs[..|jobs| - 1]);
    }
  }

  /** A sync of a Gateway key that finds the gateway leaves its parent as just built; one
      of a gateway that is not ours goes on with the model there is. Either way each
      route comes out as its jobs last asked. A gateway that is gone, or whose class
      is, loses its model. */
  lemma GatewayOutcome(s: Sync, gw: GatewayObj, jobs: seq<Job>, owner: Name -> Name)
    requires Owned(Model(ChildrenOf(s), s.store), owner)
    requires forall i | 0 <= i < |jobs| :: JobOwned(jobs[i], owner)
    ensures
      var r := SyncGateway(s, gw, Some(jobs));
      match gw
      case Present(parent) => SyncedAsAsked(s, r, jobs) && (s.sum == s.model ==> r.model.value.parent == parent)
      case Foreign =>
        if s.model.Some? then SyncedAsAsked(s, r, jobs) && r.model.value.parent == s.model.value.parent else r == s
      case ClassMissing => r.model.None?
      case Missing => s.found ==> r.model.None?
  {
    var s1 := HandleGateway(s, gw);
    if s1.model.Some? && !gw.Missing? {
      RoutesOutcome(s, s1, jobs, ParentChanged(s, gw), owner);
    }
  }

  /** The same of a route's key, on one of its gateways. */
  lemma RouteKeyOutcome(s: Sync, jobs: seq<Job>, owner: Name -> Name)
    requires Owned(Model(ChildrenOf(s), s.store), owner)
    requires forall i | 0 <= i < |jobs| :: JobOwned(jobs[i], owner)
    ensures
      var r := SyncRoutes(s, jobs);
      if s.model.Some? then SyncedAsAsked(s, r, jobs) && r.model.value.parent == s.model.value.parent else r == s
  {
    if s.model.Some? {
      RoutesOutcome(s, s, jobs, false, owner);
    }
  }

  // ---------- After any syncs ----------

  /** Between syncs the checksum kept is that of the model kept. */
  lemma AfterSettled(s: Sync, e: Event)
    requires s.sum == s.model
    ensures e.GatewayKey? ==> var r := SyncGateway(s, e.gw, e.jobs); r.sum == r.model
    ensures e.RouteKey? ==> var r := SyncRoutes(s, e.routes); r.sum == r.model
  {
    match e
    case GatewayKey(_, gw, jobs) =>
      var s1 := HandleGateway(s, gw);
      if jobs.Some? && s1.model.Some? {
        FinishSettles(DoJobs(s1, jobs.value), ParentChanged(s, gw));
      }
    case RouteKey(_, routes) =>
      if s.model.Some? {
        FinishSettles(DoJobs(s, routes), false);
      }
  }

  lemma FinishSettles(s: Sync, changed: bool)
    requires s.model.Some?
    ensures Finish(s, changed).sum == Finish(s, changed).model
  {
  }

  lemma {:induction false} SettledInEveryRun(events: seq<Event>, g: Name)
    ensures SyncOf(Run(events), g).sum == SyncOf(Run(events), g).model
  {
    if events != [] {
      var init, e := events[..|events| - 1], events[|events| - 1];
      SettledInEveryRun(init, g);
      if e.gateway == g {
        AfterSettled(SyncOf(Run(init), g), e);
      }
    }
  }

  lemma OwnedInEveryRun(events: seq<Event>, e: Event, owner: Name -> Name, home: Name -> Name)
    requires EventsFit(events, owner, home)
    ensures var s := SyncOf(Run(events), e.gateway); Owned(Model(ChildrenOf(s), s.store), owner)
  {
    AlwaysConsistent(events, owner, home);
    var s := SyncOf(Run(events), e.gateway);
    if s.model.Some? {
      assert ModelOk(ModelOf(s), e.gateway, owner, home);
    }
  }

  /** A sync leaves its outcome in the world, and every other gateway as it was. */
  lemma StepLeaves(events: seq<Event>, e: Event)
    ensures SyncOf(Run(events + [e]), e.gateway) == After(Run(events), e)
    ensures forall h | h != e.gateway ::
              SyncOf(Run(events + [e]), h) == SyncOf(Run(events), h).(store := After(Run(events), e).store)
  {
    assert (events + [e])[..|events|] == events;
  }

  /** Whatever was synced before, a Gateway key leaves each route of the gateway as asked,
      and the other gateways' models as they were. */
  lemma GatewayOutcomeInEveryRun(
    events: seq<Event>, g: Name, parent: string, jobs: seq<Job>, owner: Name -> Name, home: Name -> Name)
    requires EventsFit(events, owner, home) && JobsFit(jobs, g, owner, home)
    ensures
      var before, after := Run(events), Run(events + [GatewayKey(g, Present(parent), Some(jobs))]);
      && SyncedAsAsked(SyncOf(before, g), SyncOf(after, g), jobs)
      && SyncOf(after, g).model.value.parent == parent
      && forall h | h != g :: SyncOf(after, h).model == SyncOf(before, h).model
  {
    OwnedInEveryRun(events, RouteKey(g, jobs), owner, home);
    SettledInEveryRun(events, g);
    StepLeaves(events, GatewayKey(g, Present(parent), Some(jobs)));
    GatewayOutcome(SyncOf(Run(events), g), Present(parent), jobs, owner);
  }

  /** And so does a route's key. */
  lemma RouteKeyOutcomeInEveryRun(
    events: seq<Event>, g: Name, jobs: seq<Job>, owner: Name -> Name, home: Name -> Name)
    requires EventsFit(events, owner, home) && JobsFit(jobs, g, owner, home)
    ensures
      var before, after := Run(events), Run(events + [RouteKey(g, jobs)]);
      && (if SyncOf(before, g).model.Some?
          then SyncedAsAsked(SyncOf(before, g), SyncOf(after, g), jobs)
          else SyncOf(after, g) == SyncOf(before, g))
      && forall h | h != g :: SyncOf(after, h).model == SyncOf(before, h).model
  {
    OwnedInEveryRun(events, RouteKey(g, jobs), owner, home);
    StepLeaves(events, RouteKey(g, jobs));
    RouteKeyOutcome(SyncOf(Run(events), g), jobs, owner);
  }

  // ---------- When the key is published ----------

  predicate Within(log: seq<Action>, from: nat, a: Action) {
    exists i :: from <= i < |log| && log[i] == a
  }

  /** The log has grown by readable models alone. */
  ghost predicate Quiet(a: seq<Action>, b: seq<Action>) {
    |a| <= |b| && b[..|a|] == a && forall i | |a| <= i < |b| :: b[i].Seen?
  }

  lemma {:induction false} JobsQuiet(s: Sync, jobs: seq<Job>)
    requires s.model.Some? && forall i | 0 <= i < |jobs| :: !jobs[i].outcome.Gone?
    ensures DoJobs(s, jobs).sum == s.sum && Quiet(s.log, DoJobs(s, jobs).log)
  {
    if jobs != [] {
      JobsQuiet(s, jobs[..|jobs| - 1]);
      JobQuiet(DoJobs(s, jobs[..|jobs| - 1]), jobs[|jobs| - 1]);
    }
  }

  lemma JobQuiet(s: Sync, job: Job)
    requires s.model.Some? && !job.outcome.Gone?
    ensures DoJob(s, job).sum == s.sum && Quiet(s.log, DoJob(s, job).log)
  {
  }

  lemma FinishLog(s: Sync, from: nat)
    requires s.model.Some? && from <= |s.log| && !Within(s.log, from, Published)
    ensures
      var r := Finish(s, false);
      Within(r.log, from, Published) <==> r.model != s.sum
  {
    var r := Finish(s, false);
    var seen := s.log + [Seen(r.model)];
    assert forall i | from <= i < |s.log| :: s.log[i] != Published;
    if r.model != s.sum {
      assert r.log == seen + [Saved, Seen(r.model)] + [Published];
      assert r.log[|r.log| - 1] == Published;
    } else {
      assert r.log == seen;
      assert forall i | from <= i < |seen| :: seen[i] != Published;
    }
  }

  /** A route's key of which no route is gone is published to the REST layer exactly
      when the model it leaves differs from the one the checksum was taken of. */
  lemma RouteKeyPublishes(s: Sync, jobs: seq<Job>)
    requires s.model.Some? && forall i | 0 <= i < |jobs| :: !jobs[i].outcome.Gone?
    ensures var r := SyncRoutes(s, jobs); Within(r.log, |s.log|, Published) <==> r.model != s.sum
  {
    JobsQuiet(s, jobs);
    FinishLog(DoJobs(s, jobs), |s.log|);
  }

  /** A gateway that is gone takes its model with it, and says so, if the lister knows
      it; one whose class is gone does so always; one of another controller's changes
      nothing unless it is ours already. */
  lemma GatewayGone(s: Sync, jobs: Option<seq<Job>>)
    ensures
      var r := SyncGateway(s, ClassMissing, jobs);
      r.model == None && r.sum == None && r.found && r.log == s.log + [Saved, Seen(None), Published]
    ensures s.found ==> SyncGateway(s, Missing, jobs) == SyncGateway(s, ClassMissing, jobs)
    ensures s.model == None ==> SyncGateway(s, Foreign, jobs) == s && (!s.found ==> SyncGateway(s, Missing, jobs) == s)
    ensures s.store == SyncGateway(s, ClassMissing, jobs).store
  {
  }
}
