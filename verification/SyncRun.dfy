/** Any sequence of syncs of any gateways. The gateways' models are apart, the
    route-to-child store is one; a step on one gateway leaves every other gateway's
    model and what the store says of its children alone. */
module SyncRun {
  import opened Text
  import opened RouteReconcile
  import opened GatewaySync

  /** What the lister and the log hold for one gateway. */
  datatype Gate = Gate(found: bool, model: Option<Content>, sum: Option<Content>, log: seq<Action>)

  datatype World = World(gates: map<Name, Gate>, store: Store)

  /** A Gateway key, with the outcome of its route lookup, or the part of a route's key
      that concerns one of its gateways. */
  datatype Event =
    | GatewayKey(gateway: Name, gw: GatewayObj, jobs: Option<seq<Job>>)
    | RouteKey(gateway: Name, routes: seq<Job>)

  const EMPTY := World(map[], map[])

  function SyncOf(w: World, g: Name): Sync {
    var gate := if g in w.gates then w.gates[g] else Gate(false, None, None, []);
    Sync(gate.found, gate.model, gate.sum, w.store, gate.log)
  }

  /** The route loop without a rebuilt parent. */
  function SyncRoutes(s: Sync, jobs: seq<Job>): Sync {
    if s.model.None? then s else Finish(DoJobs(s, jobs), false)
  }

  function After(w: World, e: Event): Sync {
    match e
    case GatewayKey(g, gw, jobs) => SyncGateway(SyncOf(w, g), gw, jobs)
    case RouteKey(g, routes) => SyncRoutes(SyncOf(w, g), routes)
  }

  function Step(w: World, e: Event): World {
    var s := After(w, e);
    World(w.gates[e.gateway := Gate(s.found, s.model, s.sum, s.log)], s.store)
  }

  function Run(events: seq<Event>): World {
    if events == [] then EMPTY else Step(Run(events[..|events| - 1]), events[|events| - 1])
  }

  /** Child names are derived from a gateway and a route: what a step builds carries
      names of its own gateway and of the route in hand. */
  ghost predicate JobFits(job: Job, g: Name, owner: Name -> Name, home: Name -> Name) {
    && JobOwned(job, owner)
    && (job.outcome.Rebuilt? ==> forall rule | rule in job.outcome.rules :: home(rule.child) == g)
  }

  ghost predicate JobsFit(jobs: seq<Job>, g: Name, owner: Name -> Name, home: Name -> Name) {
    forall i | 0 <= i < |jobs| :: JobFits(jobs[i], g, owner, home)
  }

  ghost predicate EventFits(e: Event, owner: Name -> Name, home: Name -> Name) {
    match e
    case GatewayKey(g, _, jobs) => jobs.Some? ==> JobsFit(jobs.value, g, owner, home)
    case RouteKey(g, routes) => JobsFit(routes, g, owner, home)
  }

  // ---------- What every world looks like ----------

  ghost predicate StoreOk(store: Store, owner: Name -> Name) {
    Owned(Model([], store), owner)
  }

  /** A gateway's children are its own, and the store covers them. */
  ghost predicate ModelOk(m: Model, g: Name, owner: Name -> Name, home: Name -> Name) {
    Owned(m, owner) && forall c | c in m.children :: home(c.name) == g
  }

  ghost predicate WorldOk(w: World, owner: Name -> Name, home: Name -> Name) {
    && StoreOk(w.store, owner)
    && forall g | g in w.gates && w.gates[g].model.Some? ::
         ModelOk(Model(w.gates[g].model.value.children, w.store), g, owner, home)
  }

  /** Nothing is said anew of names of other gateways. */
  ghost predicate Local(a: Store, b: Store, g: Name, home: Name -> Name) {
    forall r, n | home(n) != g :: n in Names(a, r) <==> n in Names(b, r)
  }

  // ---------- One route step ----------

  lemma DeletionLocal(m: Model, route: Name, keep: set<Name>, g: Name, owner: Name -> Name, home: Name -> Name)
    requires ModelOk(m, g, owner, home)
    ensures
      var m' := DeleteEach(m, route, Names(m.store, route), keep);
      ModelOk(m', g, owner, home) && Local(m.store, m'.store, g, home)
  {
    var m' := DeleteEach(m, route, Names(m.store, route), keep);
    DeletionOwned(m, route, keep, owner);
    DeleteEachFacts(m, route, Names(m.store, route), keep);
    forall r, n | home(n) != g ensures n in Names(m.store, r) <==> n in Names(m'.store, r) {
      HasIff(m.children, n);
    }
  }

  lemma RulesLocal(m: Model, job: Job, g: Name, owner: Name -> Name, home: Name -> Name)
    requires ModelOk(m, g, owner, home) && JobFits(job, g, owner, home) && job.outcome.Rebuilt?
    ensures
      var m' := BuildAll(m, job.route, job.outcome.rules, job.outcome.hosts);
      ModelOk(m', g, owner, home) && Local(m.store, m'.store, g, home)
  {
    var rules, hosts := job.outcome.rules, job.outcome.hosts;
    RulesOwned(m, job, owner);
    OwnedNames(m, job, owner);
    if hosts.Unknown? {
      UnknownBuildsNothing(m, job.route, rules);
    } else if hosts.hosts == [] {
      if rules != [] {
        ClearedLocal(m, BuildAll(m, job.route, rules, hosts), job, g, owner, home);
      }
    } else {
      GrownLocal(m, BuildAll(m, job.route, rules, hosts), job, g, owner, home);
    }
  }

  lemma ClearedLocal(m: Model, m': Model, job: Job, g: Name, owner: Name -> Name, home: Name -> Name)
    requires ModelOk(m, g, owner, home) && job.outcome.Rebuilt? && job.outcome.hosts == Known([])
    requires OwnNames(m, job.route, job.outcome.rules) && job.outcome.rules != []
    requires m' == BuildAll(m, job.route, job.outcome.rules, Known([]))
    ensures Local(m.store, m'.store, g, home) && forall c | c in m'.children :: home(c.name) == g
  {
    BuildAllClears(m, job.route, job.outcome.rules);
    forall r, n | home(n) != g ensures n in Names(m.store, r) <==> n in Names(m'.store, r) {
      HasIff(m.children, n);
    }
    forall c | c in m'.children ensures home(c.name) == g {
      OthersMembers(m'.children, job.route, c);
      OthersMembers(m.children, job.route, c);
    }
  }

  lemma GrownLocal(m: Model, m': Model, job: Job, g: Name, owner: Name -> Name, home: Name -> Name)
    requires ModelOk(m, g, owner, home) && JobFits(job, g, owner, home) && job.outcome.Rebuilt?
    requires job.outcome.hosts.Known? && job.outcome.hosts.hosts != [] && OwnNames(m, job.route, job.outcome.rules)
    requires m' == BuildAll(m, job.route, job.outcome.rules, job.outcome.hosts)
    ensures Local(m.store, m'.store, g, home) && forall c | c in m'.children :: home(c.name) == g
  {
    var rules := job.outcome.rules;
    BuildAllGrows(m, job.route, rules, job.outcome.hosts);
    forall name | name in RuleNames(rules) ensures home(name) == g {
      var rule :| rule in rules && rule.child == name;
    }
  }

  lemma LocalOn(a: Store, b: Store, c: Store, g: Name, home: Name -> Name)
    requires Local(a, b, g, home) && Local(b, c, g, home)
    ensures Local(a, c, g, home)
  {
  }

  /** A route step on a gateway's model. */
  ghost predicate Fine(s: Sync, s': Sync, g: Name, owner: Name -> Name, home: Name -> Name) {
    s'.model.Some? && ModelOk(ModelOf(s'), g, owner, home) && Local(s.store, s'.store, g, home)
  }

  lemma JobFine(s: Sync, job: Job, g: Name, owner: Name -> Name, home: Name -> Name)
    requires s.model.Some? && ModelOk(ModelOf(s), g, owner, home) && JobFits(job, g, owner, home)
    ensures Fine(s, DoJob(s, job), g, owner, home)
  {
    var m := ModelOf(s);
    match job.outcome
    case Errored =>
    case Gone =>
      DeletionLocal(m, job.route, {}, g, owner, home);
      GoneModel(s, job);
    case Rebuilt(rules, hosts) =>
      RulesLocal(m, job, g, owner, home);
      var m1 := BuildAll(m, job.route, rules, hosts);
      DeletionLocal(m1, job.route, Built(rules, hosts), g, owner, home);
      var m2 := DeleteEach(m1, job.route, Names(m1.store, job.route), Built(rules, hosts));
      LocalOn(m.store, m1.store, m2.store, g, home);
      RebuiltModel(s, job);
  }

  lemma GoneModel(s: Sync, job: Job)
    requires s.model.Some? && job.outcome.Gone?
    ensures ModelOf(DoJob(s, job)) == DeleteEach(ModelOf(s), job.route, Names(s.store, job.route), {})
    ensures DoJob(s, job).store == ModelOf(DoJob(s, job)).store
  {
  }

  lemma RebuiltModel(s: Sync, job: Job)
    requires s.model.Some? && job.outcome.Rebuilt?
    ensures
      var m1 := BuildAll(ModelOf(s), job.route, job.outcome.rules, job.outcome.hosts);
      ModelOf(DoJob(s, job))
        == DeleteEach(m1, job.route, Names(m1.store, job.route), Built(job.outcome.rules, job.outcome.hosts))
  {
  }

  lemma {:induction false} JobsFine(s: Sync, jobs: seq<Job>, g: Name, owner: Name -> Name, home: Name -> Name)
    requires s.model.Some? && ModelOk(ModelOf(s), g, owner, home) && JobsFit(jobs, g, owner, home)
    ensures Fine(s, DoJobs(s, jobs), g, owner, home)
  {
    if jobs != [] {
      var init := jobs[..|jobs| - 1];
      assert forall i | 0 <= i < |init| :: init[i] == jobs[i];
      JobsFine(s, init, g, owner, home);
      var mid := DoJobs(s, init);
      JobFine(mid, jobs[|jobs| - 1], g, owner, home);
      LocalOn(s.store, mid.store, DoJob(mid, jobs[|jobs| - 1]).store, g, home);
    }
  }

  // ---------- One sync ----------

  /** A whole sync leaves the gateway's own model right, if there is one, and touches
      the store only where it speaks of this gateway. */
  ghost predicate SyncFine(s: Sync, s': Sync, g: Name, owner: Name -> Name, home: Name -> Name) {
    && StoreOk(s'.store, owner) && Local(s.store, s'.store, g, home)
    && (s'.model.Some? ==> ModelOk(ModelOf(s'), g, owner, home))
  }

  lemma FinishFine(s: Sync, s1: Sync, jobs: seq<Job>, changed: bool, g: Name, owner: Name -> Name, home: Name -> Name)
    requires s1.model.Some? && ModelOk(ModelOf(s1), g, owner, home) && JobsFit(jobs, g, owner, home)
    requires s1.store == s.store
    ensures SyncFine(s, Finish(DoJobs(s1, jobs), changed), g, owner, home)
  {
    JobsFine(s1, jobs, g, owner, home);
    var s2 := DoJobs(s1, jobs);
    var s3 := Finish(s2, changed);
    assert s3.model.Some? && ModelOf(s3) == ModelOf(s2);
  }

  lemma AfterFine(w: World, e: Event, owner: Name -> Name, home: Name -> Name)
    requires WorldOk(w, owner, home) && EventFits(e, owner, home)
    ensures SyncFine(SyncOf(w, e.gateway), After(w, e), e.gateway, owner, home)
  {
    var g, s := e.gateway, SyncOf(w, e.gateway);
    assert s.model.Some? ==> ModelOk(ModelOf(s), g, owner, home);
    match e
    case RouteKey(_, routes) =>
      if s.model.Some? {
        FinishFine(s, s, routes, false, g, owner, home);
      }
    case GatewayKey(_, gw, jobs) =>
      var s1 := HandleGateway(s, gw);
      assert s1.store == s.store && (s1.model.Some? ==> ModelOk(ModelOf(s1), g, owner, home));
      if jobs.Some? && s1.model.Some? {
        FinishFine(s, s1, jobs.value, ParentChanged(s, gw), g, owner, home);
      }
  }

  /** What the store says of another gateway's children has not changed. */
  lemma OtherModel(m: Model, store: Store, g: Name, h: Name, owner: Name -> Name, home: Name -> Name)
    requires ModelOk(m, h, owner, home) && h != g && Local(m.store, store, g, home) && StoreOk(store, owner)
    ensures ModelOk(Model(m.children, store), h, owner, home)
  {
    forall c, r | c in m.children && c.name in Names(store, r) ensures c.route == r {
      assert c.name in Names(m.store, r);
    }
    forall c | c in m.children ensures c.name in Names(store, c.route) {
      assert c.name in Names(m.store, c.route);
    }
  }

  lemma StepKeeps(w: World, e: Event, owner: Name -> Name, home: Name -> Name)
    requires WorldOk(w, owner, home) && EventFits(e, owner, home)
    ensures WorldOk(Step(w, e), owner, home)
  {
    AfterFine(w, e, owner, home);
    var w' := Step(w, e);
    forall h | h in w'.gates && w'.gates[h].model.Some?
      ensures ModelOk(Model(w'.gates[h].model.value.children, w'.store), h, owner, home)
    {
      if h != e.gateway {
        OtherModel(Model(w.gates[h].model.value.children, w.store), w'.store, e.gateway, h, owner, home);
      }
    }
  }

  // ---------- Every sequence of syncs ----------

  ghost predicate EventsFit(events: seq<Event>, owner: Name -> Name, home: Name -> Name) {
    forall i | 0 <= i < |events| :: EventFits(events[i], owner, home)
  }

  /** From nothing, after any syncs of any gateways in any order: every gateway's
      children have distinct names, the one store covers each of them under its own
      route and no other, and repeats nothing. */
  lemma {:induction false} AlwaysConsistent(events: seq<Event>, owner: Name -> Name, home: Name -> Name)
    requires EventsFit(events, owner, home)
    ensures WorldOk(Run(events), owner, home)
  {
    if events != [] {
      var init := events[..|events| - 1];
      assert forall i | 0 <= i < |init| :: init[i] == events[i];
      AlwaysConsistent(init, owner, home);
      StepKeeps(Run(init), events[|events| - 1], owner, home);
    }
  }

  /** So whatever was synced before, a route rebuilt in a gateway comes out exact. */
  lemma ReconciledInEveryRun(
    events: seq<Event>, g: Name, route: Name, rules: seq<Rule>, hosts: Hosts, owner: Name -> Name, home: Name -> Name)
    requires EventsFit(events, owner, home) && JobFits(Job(route, Rebuilt(rules, hosts)), g, owner, home)
    requires SyncOf(Run(events), g).model.Some?
    ensures
      var m := ModelOf(SyncOf(Run(events), g));
      Reconciled(m, Reconcile(m, route, rules, hosts), route, rules, hosts)
  {
    AlwaysConsistent(events, owner, home);
    var m := ModelOf(SyncOf(Run(events), g));
    assert ModelOk(m, g, owner, home);
    OwnedNames(m, Job(route, Rebuilt(rules, hosts)), owner);
    ReconcileExact(m, route, rules, hosts);
  }

  /** And whatever was synced before, a Gateway key opens no childless window. */
  lemma NoWindowInEveryRun(
    events: seq<Event>, g: Name, gw: GatewayObj, jobs: Option<seq<Job>>,
    owner: Name -> Name, home: Name -> Name, n: Name)
    requires EventsFit(events, owner, home) && EventFits(GatewayKey(g, gw, jobs), owner, home)
    requires gw.Present? || gw.Foreign?
    requires var s := SyncOf(Run(events), g); s.model.Some? && Has(s.model.value.children, n)
    requires jobs.Some? ==> forall job | job in jobs.value :: owner(n) == job.route ==> Wants(job, n)
    ensures
      var s, r := SyncOf(Run(events), g), After(Run(events), GatewayKey(g, gw, jobs));
      r.model.Some? && Has(r.model.value.children, n) && AlwaysSeen(r.log, |s.log|, n)
  {
    AlwaysConsistent(events, owner, home);
    var s := SyncOf(Run(events), g);
    assert ModelOk(ModelOf(s), g, owner, home);
    if jobs.Some? {
      forall job | job in jobs.value ensures JobOwned(job, owner) {
        var i :| 0 <= i < |jobs.value| && jobs.value[i] == job;
        assert JobFits(jobs.value[i], g, owner, home);
      }
    }
    NoChildlessWindow(s, gw, jobs, owner, n);
  }
}
