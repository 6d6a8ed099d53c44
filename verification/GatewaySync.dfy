/** A Gateway key going through the graph layer. The parent VS is rebuilt first and
    the routes afterwards, on a model the REST layer can read at any moment; the
    publish of the parent is deferred until the routes are done. No tenant or mode
    change happens here, so the model keeps its name. */
module GatewaySync {
  import opened Text
  import opened RouteReconcile

  /** What a model's checksum is taken over; the checksum is assumed injective. */
  datatype Content = Content(parent: string, children: seq<Child>, defaultPolicy: bool)

  /** What happened, in order: the REST layer could read this model; the model was
      saved with a new checksum; its key was published. */
  datatype Action = Seen(model: Option<Content>) | Saved | Published

  /** The lister entry (an entry can be there and hold no model), the checksum stored
      with it, the route-to-child store. */
  datatype Sync = Sync(found: bool, model: Option<Content>, sum: Option<Content>, store: Store, log: seq<Action>)

  datatype GatewayObj = Missing | ClassMissing | Foreign | Present(parent: string)

  datatype Outcome = Gone | Errored | Rebuilt(rules: seq<Rule>, hosts: Hosts)

  datatype Job = Job(route: Name, outcome: Outcome)

  // ---------- Steps ----------

  function SaveModel(s: Sync, c: Content): Sync {
    if s.model.Some? && s.sum == Some(c) then s
    else s.(found := true, model := Some(c), sum := Some(c), log := s.log + [Saved, Seen(Some(c))])
  }

  predicate Changes(s: Sync, c: Content) { !(s.model.Some? && s.sum == Some(c)) }

  function Unset(s: Sync): Sync {
    s.(found := true, model := None, sum := None, log := s.log + [Saved, Seen(None), Published])
  }

  /** The freshly built parent takes over the children of the model it replaces. */
  function CarriedOver(s: Sync, parent: string): Content {
    Content(parent, if s.model.Some? then s.model.value.children else [], false)
  }

  function HandleGateway(s: Sync, gw: GatewayObj): Sync {
    match gw
    case Missing => if s.found then Unset(s) else s
    case ClassMissing => Unset(s)
    case Foreign => s
    case Present(parent) => SaveModel(s, CarriedOver(s, parent))
  }

  predicate ParentChanged(s: Sync, gw: GatewayObj) {
    gw.Present? && Changes(s, CarriedOver(s, gw.parent))
  }

  /** An edit made in place under the model's lock, visible once it is released. */
  function Edit(s: Sync, m: Model): Sync
    requires s.model.Some?
  {
    var c := s.model.value.(children := m.children);
    s.(model := Some(c), store := m.store, log := s.log + [Seen(Some(c))])
  }

  function ModelOf(s: Sync): Model
    requires s.model.Some?
  {
    Model(s.model.value.children, s.store)
  }

  function DoJob(s: Sync, job: Job): (r: Sync)
    requires s.model.Some?
    ensures r.model.Some?
  {
    match job.outcome
    case Errored => s
    case Gone =>
      var s1 := Edit(s, DeleteEach(ModelOf(s), job.route, Names(s.store, job.route), {}));
      if Changes(s1, s1.model.value)
      then var s2 := SaveModel(s1, s1.model.value); s2.(log := s2.log + [Published])
      else s1
    case Rebuilt(rules, hosts) =>
      var s1 := Edit(s, BuildAll(ModelOf(s), job.route, rules, hosts));
      Edit(s1, DeleteEach(ModelOf(s1), job.route, Names(s1.store, job.route), Built(rules, hosts)))
  }

  function DoJobs(s: Sync, jobs: seq<Job>): (r: Sync)
    requires s.model.Some?
    ensures r.model.Some?
  {
    if jobs == [] then s else DoJob(DoJobs(s, jobs[..|jobs| - 1]), jobs[|jobs| - 1])
  }

  function Finish(s: Sync, parentChanged: bool): Sync
    requires s.model.Some?
  {
    var c := s.model.value.(defaultPolicy := true);
    var s1 := s.(model := Some(c), log := s.log + [Seen(Some(c))]);
    var s2 := SaveModel(s1, c);
    if Changes(s1, c) || parentChanged then s2.(log := s2.log + [Published]) else s2
  }

  /** The whole sync; `jobs` is None when the route lookup failed. */
  function SyncGateway(s: Sync, gw: GatewayObj, jobs: Option<seq<Job>>): Sync {
    var s1 := HandleGateway(s, gw);
    if jobs.None? || s1.model.None? then s1
    else Finish(DoJobs(s1, jobs.value), ParentChanged(s, gw))
  }

  // ---------- No publish is lost ----------

  /** Every save so far has been followed by a publish. */
  ghost predicate AllPublished(log: seq<Action>) {
    forall i | 0 <= i < |log| && log[i] == Saved :: exists j :: i < j < |log| && log[j] == Published
  }

  lemma PublishedExtends(log: seq<Action>, more: seq<Action>)
    requires AllPublished(log) && Saved !in more
    ensures AllPublished(log + more)
  {
    forall i | 0 <= i < |log + more| && (log + more)[i] == Saved
      ensures exists j :: i < j < |log + more| && (log + more)[j] == Published
    {
      assert forall k | |log| <= k < |log + more| :: (log + more)[k] == more[k - |log|];
      assert i < |log|;
      assert log[i] == Saved;
      var j :| i < j < |log| && log[j] == Published;
      assert (log + more)[j] == Published;
    }
  }

  lemma PublishedLast(log: seq<Action>)
    ensures AllPublished(log + [Published])
  {
    assert (log + [Published])[|log|] == Published;
  }

  /** The route steps leave nothing unpublished of their own. */
  ghost predicate JobsLog(before: seq<Action>, after: seq<Action>) {
    && |before| <= |after| && after[..|before|] == before
    && AllPublished(after[|before|..])
  }

  lemma JobsLogStep(before: seq<Action>, mid: seq<Action>, more: seq<Action>)
    requires JobsLog(before, mid) && (Saved !in more || (more != [] && more[|more| - 1] == Published))
    ensures JobsLog(before, mid + more)
  {
    var tail := mid[|before|..];
    assert (mid + more)[..|before|] == before && (mid + more)[|before|..] == tail + more;
    if Saved !in more {
      PublishedExtends(tail, more);
    } else {
      var init := more[..|more| - 1];
      assert tail + more == (tail + init) + [Published];
      PublishedLast(tail + init);
    }
  }

  lemma DoJobLog(s: Sync, job: Job) returns (more: seq<Action>)
    requires s.model.Some?
    ensures DoJob(s, job).log == s.log + more
    ensures Saved !in more || (more != [] && more[|more| - 1] == Published)
  {
    match job.outcome
    case Errored => more := [];
    case Gone =>
      var s1 := Edit(s, DeleteEach(ModelOf(s), job.route, Names(s.store, job.route), {}));
      more := if Changes(s1, s1.model.value)
              then [Seen(s1.model), Saved, Seen(s1.model), Published] else [Seen(s1.model)];
    case Rebuilt(rules, hosts) =>
      var s1 := Edit(s, BuildAll(ModelOf(s), job.route, rules, hosts));
      more := [Seen(s1.model), Seen(DoJob(s, job).model)];
  }

  lemma {:induction false} DoJobsLog(s: Sync, jobs: seq<Job>)
    requires s.model.Some?
    ensures JobsLog(s.log, DoJobs(s, jobs).log)
  {
    if jobs == [] {
      assert s.log[|s.log|..] == [];
    } else {
      DoJobsLog(s, jobs[..|jobs| - 1]);
      var mid := DoJobs(s, jobs[..|jobs| - 1]);
      var more := DoJobLog(mid, jobs[|jobs| - 1]);
      JobsLogStep(s.log, mid.log, more);
    }
  }

  lemma PublishedConcat(a: seq<Action>, b: seq<Action>)
    requires AllPublished(a) && AllPublished(b)
    ensures AllPublished(a + b)
  {
    forall i | 0 <= i < |a + b| && (a + b)[i] == Saved
      ensures exists j :: i < j < |a + b| && (a + b)[j] == Published
    {
      if i < |a| {
        assert a[i] == Saved;
        var j :| i < j < |a| && a[j] == Published;
        assert (a + b)[j] == Published;
      } else {
        assert b[i - |a|] == Saved;
        var j :| i - |a| < j < |b| && b[j] == Published;
        assert (a + b)[j + |a|] == Published;
      }
    }
  }

  lemma FinishPublishes(s: Sync, parentChanged: bool)
    requires s.model.Some? && (parentChanged || AllPublished(s.log))
    ensures AllPublished(Finish(s, parentChanged).log)
    ensures Finish(s, parentChanged).sum == Finish(s, parentChanged).model
  {
    var r := Finish(s, parentChanged);
    var c := s.model.value.(defaultPolicy := true);
    var s1 := s.(model := Some(c), log := s.log + [Seen(Some(c))]);
    if Changes(s1, c) || parentChanged {
      PublishedLast(SaveModel(s1, c).log);
    } else {
      PublishedExtends(s.log, [Seen(Some(c))]);
    }
  }

  /** A sync leaves a save without a publish after it exactly when the route lookup
      fails right after the rebuilt parent was saved; in every other case each save
      is published, and when the routes were processed the model left in the lister
      is the one last saved. */
  lemma NoLostPublish(s: Sync, gw: GatewayObj, jobs: Option<seq<Job>>)
    requires AllPublished(s.log)
    ensures
      var r := SyncGateway(s, gw, jobs);
      && (AllPublished(r.log) <==> !(jobs.None? && ParentChanged(s, gw)))
      && (jobs.Some? && r.model.Some? ==> r.sum == r.model)
  {
    var s1 := HandleGateway(s, gw);
    var changed := ParentChanged(s, gw);
    if gw.Present? {
      if changed {
        assert s1.log == s.log + [Saved, Seen(s1.model)];
      }
    } else if s1 != s {
      assert s1.log == (s.log + [Saved, Seen(None)]) + [Published];
      PublishedLast(s.log + [Saved, Seen(None)]);
    }
    if jobs.None? && changed {
      assert s1.log[|s.log|] == Saved;
    }
    if jobs.Some? && s1.model.Some? {
      DoJobsLog(s1, jobs.value);
      var s2 := DoJobs(s1, jobs.value);
      if !changed {
        PublishedConcat(s1.log, s2.log[|s1.log|..]);
        assert s2.log == s1.log + s2.log[|s1.log|..];
      }
      FinishPublishes(s2, changed);
    }
  }

  // ---------- No childless window ----------

  /** Child names are derived from a gateway and a route, so each has one owner. */
  ghost predicate Owned(m: Model, owner: Name -> Name) {
    && Consistent(m)
    && (forall c | c in m.children :: owner(c.name) == c.route)
    && (forall r, n | n in Names(m.store, r) :: owner(n) == r)
  }

  ghost predicate JobOwned(job: Job, owner: Name -> Name) {
    job.outcome.Rebuilt? ==> forall rule | rule in job.outcome.rules :: owner(rule.child) == job.route
  }

  /** The route step has no reason to remove this child. */
  predicate Wants(job: Job, name: Name) {
    match job.outcome
    case Errored => true
    case Gone => false
    case Rebuilt(rules, hosts) => hosts.Known? && hosts.hosts != [] && name in RuleNames(rules)
  }

  lemma OwnedNames(m: Model, job: Job, owner: Name -> Name)
    requires Owned(m, owner) && JobOwned(job, owner) && job.outcome.Rebuilt?
    ensures OwnNames(m, job.route, job.outcome.rules)
  {
  }

  lemma KeptByOthers(m: Model, m': Model, route: Name, owner: Name -> Name, n: Name)
    requires Owned(m, owner) && Others(m'.children, route) == Others(m.children, route)
    requires Has(m.children, n) && owner(n) != route
    ensures Has(m'.children, n)
  {
    var c := m.children[IndexOf(m.children, n)];
    assert c in m.children;
    OthersMembers(m.children, route, c);
    OthersMembers(m'.children, route, c);
    HasIff(m'.children, n);
  }

  lemma OwnedAfter(m: Model, m': Model, route: Name, owner: Name -> Name)
    requires Owned(m, owner) && Consistent(m')
    requires Others(m'.children, route) == Others(m.children, route)
    requires forall c | c in m'.children && c.route == route :: owner(c.name) == route
    requires forall n | n in Names(m'.store, route) :: owner(n) == route
    requires forall r | r != route :: Names(m'.store, r) == Names(m.store, r)
    ensures Owned(m', owner)
  {
    forall c | c in m'.children ensures owner(c.name) == c.route {
      if c.route != route {
        OthersMembers(m'.children, route, c);
        OthersMembers(m.children, route, c);
      }
    }
  }

  lemma DeletionOwned(m: Model, route: Name, keep: set<Name>, owner: Name -> Name)
    requires Owned(m, owner)
    ensures Owned(DeleteEach(m, route, Names(m.store, route), keep), owner)
  {
    DeleteEachFacts(m, route, Names(m.store, route), keep);
    OwnedAfter(m, DeleteEach(m, route, Names(m.store, route), keep), route, owner);
  }

  /** Deleting keeps every child it was told to keep, and every other route's. */
  lemma DeletionKeeps(m: Model, route: Name, keep: set<Name>, owner: Name -> Name, n: Name)
    requires Owned(m, owner) && Has(m.children, n) && (owner(n) == route ==> n in keep)
    ensures Has(DeleteEach(m, route, Names(m.store, route), keep).children, n)
  {
    var m' := DeleteEach(m, route, Names(m.store, route), keep);
    DeleteEachFacts(m, route, Names(m.store, route), keep);
    var c := m.children[IndexOf(m.children, n)];
    assert c in m.children && c in m'.children;
    HasIff(m'.children, n);
  }

  lemma RulesOwned(m: Model, job: Job, owner: Name -> Name)
    requires Owned(m, owner) && JobOwned(job, owner) && job.outcome.Rebuilt?
    ensures Owned(BuildAll(m, job.route, job.outcome.rules, job.outcome.hosts), owner)
  {
    var rules, hosts := job.outcome.rules, job.outcome.hosts;
    var m' := BuildAll(m, job.route, rules, hosts);
    OwnedNames(m, job, owner);
    if hosts.Unknown? {
      UnknownBuildsNothing(m, job.route, rules);
    } else if hosts.hosts == [] {
      if rules != [] {
        BuildAllClears(m, job.route, rules);
        OwnedAfter(m, m', job.route, owner);
      }
    } else {
      BuildAllGrows(m, job.route, rules, hosts);
      forall name | name in RuleNames(rules) ensures owner(name) == job.route {
        var rule :| rule in rules && rule.child == name;
      }
      OwnedAfter(m, m', job.route, owner);
    }
  }

  lemma RulesKeep(m: Model, job: Job, owner: Name -> Name, n: Name)
    requires Owned(m, owner) && JobOwned(job, owner) && job.outcome.Rebuilt?
    requires Has(m.children, n) && (owner(n) == job.route ==> Wants(job, n))
    ensures Has(BuildAll(m, job.route, job.outcome.rules, job.outcome.hosts).children, n)
  {
    var rules, hosts := job.outcome.rules, job.outcome.hosts;
    var m' := BuildAll(m, job.route, rules, hosts);
    OwnedNames(m, job, owner);
    if hosts.Unknown? {
      UnknownBuildsNothing(m, job.route, rules);
    } else if hosts.hosts == [] {
      if rules != [] {
        BuildAllClears(m, job.route, rules);
        KeptByOthers(m, m', job.route, owner, n);
      }
    } else {
      BuildAllGrows(m, job.route, rules, hosts);
      if owner(n) == job.route {
        assert Child(n, job.route, BodyFor(rules, n)) in m'.children;
        HasIff(m'.children, n);
      } else {
        KeptByOthers(m, m', job.route, owner, n);
      }
    }
  }

  /** Every model readable since a point of the log has the child. */
  ghost predicate AlwaysSeen(log: seq<Action>, from: nat, n: Name) {
    forall i | from <= i < |log| && log[i].Seen? :: log[i].model.Some? && Has(log[i].model.value.children, n)
  }

  lemma JobKeeps(s: Sync, job: Job, owner: Name -> Name, n: Name, from: nat)
    requires s.model.Some? && Owned(ModelOf(s), owner) && JobOwned(job, owner)
    requires Has(s.model.value.children, n) && (owner(n) == job.route ==> Wants(job, n))
    requires AlwaysSeen(s.log, from, n)
    ensures
      var r := DoJob(s, job);
      Owned(ModelOf(r), owner) && Has(r.model.value.children, n) && AlwaysSeen(r.log, from, n)
  {
    match job.outcome
    case Errored =>
    case Gone =>
      DeletionOwned(ModelOf(s), job.route, {}, owner);
      DeletionKeeps(ModelOf(s), job.route, {}, owner, n);
      var m1 := DeleteEach(ModelOf(s), job.route, Names(s.store, job.route), {});
      EditKeeps(s, m1, n, from);
      ResaveKeeps(Edit(s, m1), n, from);
    case Rebuilt(rules, hosts) =>
      RulesOwned(ModelOf(s), job, owner);
      RulesKeep(ModelOf(s), job, owner, n);
      var m1 := BuildAll(ModelOf(s), job.route, rules, hosts);
      DeletionOwned(m1, job.route, Built(rules, hosts), owner);
      DeletionKeeps(m1, job.route, Built(rules, hosts), owner, n);
      var m2 := DeleteEach(m1, job.route, Names(m1.store, job.route), Built(rules, hosts));
      EditKeeps(s, m1, n, from);
      EditKeeps(Edit(s, m1), m2, n, from);
  }

  /** An edit that keeps the child keeps it in every readable model. */
  lemma EditKeeps(s: Sync, m: Model, n: Name, from: nat)
    requires s.model.Some? && Has(m.children, n) && AlwaysSeen(s.log, from, n)
    ensures ModelOf(Edit(s, m)) == m && AlwaysSeen(Edit(s, m).log, from, n)
  {
  }

  lemma ResaveKeeps(s: Sync, n: Name, from: nat)
    requires s.model.Some? && Has(s.model.value.children, n) && AlwaysSeen(s.log, from, n)
    ensures
      var r := SaveModel(s, s.model.value);
      r.model == s.model && r.store == s.store && AlwaysSeen(r.log, from, n) && AlwaysSeen(r.log + [Published], from, n)
  {
  }

  lemma {:induction false} JobsKeep(s: Sync, jobs: seq<Job>, owner: Name -> Name, n: Name, from: nat)
    requires s.model.Some? && Owned(ModelOf(s), owner) && Has(s.model.value.children, n)
    requires forall job | job in jobs :: JobOwned(job, owner) && (owner(n) == job.route ==> Wants(job, n))
    requires AlwaysSeen(s.log, from, n)
    ensures
      var r := DoJobs(s, jobs);
      Owned(ModelOf(r), owner) && Has(r.model.value.children, n) && AlwaysSeen(r.log, from, n)
  {
    if jobs != [] {
      var init := jobs[..|jobs| - 1];
      assert jobs[|jobs| - 1] in jobs && forall job | job in init :: job in jobs;
      JobsKeep(s, init, owner, n, from);
      JobKeeps(DoJobs(s, init), jobs[|jobs| - 1], owner, n, from);
    }
  }

  /** While a Gateway key is synced, a child that existed before is in every model
      the REST layer can read, up to and including the final one, unless a route
      step of that very sync had a reason to remove it. */
  lemma NoChildlessWindow(s: Sync, gw: GatewayObj, jobs: Option<seq<Job>>, owner: Name -> Name, n: Name)
    requires s.model.Some? && Owned(ModelOf(s), owner) && Has(s.model.value.children, n)
    requires gw.Present? || gw.Foreign?
    requires jobs.Some? ==> forall job | job in jobs.value ::
               JobOwned(job, owner) && (owner(n) == job.route ==> Wants(job, n))
    ensures
      var r := SyncGateway(s, gw, jobs);
      r.model.Some? && Has(r.model.value.children, n) && AlwaysSeen(r.log, |s.log|, n)
  {
    var s1 := HandleGateway(s, gw);
    HandleKeeps(s, gw, n);
    if jobs.Some? {
      assert ModelOf(s1) == ModelOf(s);
      JobsKeep(s1, jobs.value, owner, n, |s.log|);
      FinishKeeps(DoJobs(s1, jobs.value), ParentChanged(s, gw), n, |s.log|);
    }
  }

  lemma HandleKeeps(s: Sync, gw: GatewayObj, n: Name)
    requires s.model.Some? && Has(s.model.value.children, n)
    requires gw.Present? || gw.Foreign?
    ensures
      var s1 := HandleGateway(s, gw);
      && s1.model.Some? && s1.model.value.children == s.model.value.children && s1.store == s.store
      && AlwaysSeen(s1.log, |s.log|, n)
  {
  }

  lemma FinishKeeps(s: Sync, parentChanged: bool, n: Name, from: nat)
    requires s.model.Some? && Has(s.model.value.children, n) && AlwaysSeen(s.log, from, n)
    ensures
      var r := Finish(s, parentChanged);
      r.model.Some? && Has(r.model.value.children, n) && AlwaysSeen(r.log, from, n)
  {
  }

  // ---------- The same, in place ----------

  class GraphLayer {
    var found: bool
    var model: Option<Content>
    var sum: Option<Content>
    var store: Store
    ghost var log: seq<Action>

    constructor (store: Store)
      ensures Now() == Sync(false, None, None, store, [])
    {
      found, model, sum, this.store, log := false, None, None, store, [];
    }

    ghost function Now(): Sync
      reads this
    {
      Sync(found, model, sum, store, log)
    }

    method SaveAviModel(c: Content) returns (changed: bool)
      modifies this
      ensures Now() == SaveModel(old(Now()), c) && changed == Changes(old(Now()), c)
    {
      if model.Some? && sum == Some(c) {
        return false;
      }
      found, model, sum := true, Some(c), Some(c);
      log := log + [Saved, Seen(model)];
      changed := true;
    }

    method Publish()
      modifies this
      ensures Now() == old(Now()).(log := old(log) + [Published])
    {
      log := log + [Published];
    }

    method Handle(gw: GatewayObj) returns (changed: bool)
      modifies this
      ensures Now() == HandleGateway(old(Now()), gw) && changed == ParentChanged(old(Now()), gw)
    {
      changed := false;
      match gw {
        case Foreign =>
        case Present(parent) =>
          var carried := if model.Some? then model.value.children else [];
          changed := SaveAviModel(Content(parent, carried, false));
        case _ =>
          if gw.ClassMissing? || found {
            found, model, sum := true, None, None;
            log := log + [Saved, Seen(None), Published];
          }
      }
    }

    method Run(job: Job)
      requires model.Some?
      modifies this
      ensures Now() == DoJob(old(Now()), job) && model.Some?
    {
      if job.outcome.Errored? {
        return;
      }
      var g := new Graph(model.value.children, store);
      if job.outcome.Gone? {
        g.DeleteChildren(job.route, {});
        Release(g);
        var changed := SaveAviModel(model.value);
        if changed {
          Publish();
        }
      } else {
        var built := g.ProcessL7Routes(job.route, job.outcome.rules, job.outcome.hosts);
        Release(g);
        g.DeleteChildren(job.route, built);
        Release(g);
      }
    }

    /** The model's lock is released: the edited children become readable. */
    method Release(g: Graph)
      requires model.Some?
      modifies this
      ensures Now() == Edit(old(Now()), g.Now())
    {
      model, store := Some(model.value.(children := g.children)), g.store;
      log := log + [Seen(model)];
    }

    method Dequeue(gw: GatewayObj, jobs: Option<seq<Job>>)
      modifies this
      ensures Now() == SyncGateway(old(Now()), gw, jobs)
    {
      var parentChanged := Handle(gw);
      if jobs.None? || model.None? {
        return;
      }
      ghost var s1 := Now();
      var list := jobs.value;
      for i := 0 to |list|
        invariant model.Some? && Now() == DoJobs(s1, list[..i])
      {
        assert list[..i + 1][..i] == list[..i];
        Run(list[i]);
      }
      assert list[..|list|] == list;
      model := Some(model.value.(defaultPolicy := true));
      log := log + [Seen(model)];
      var changed := SaveAviModel(model.value);
      if changed || parentChanged {
        Publish();
      }
    }
  }
}
