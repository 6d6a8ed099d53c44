/** Rebuilding one HTTPRoute's child virtual services inside one gateway's model:
    the rule loop that adds or refreshes children, and the deletions that follow it.
    The route-to-child store is shared by all gateways; reading a list from it gives
    a copy, so the deletion loops walk a snapshot. */
module RouteReconcile {

  /** The name of an object. */
  datatype Name = Name(text: string)

  /** An EVH child: its name, the route it is tagged with, its contents. */
  datatype Child = Child(name: Name, route: Name, body: string)

  /** A route rule, as far as naming and contents of its child go. */
  datatype Rule = Rule(child: Name, body: string)

  /** Hostnames the route has on the gateway; Unknown when none were ever mapped. */
  datatype Hosts = Unknown | Known(hosts: seq<string>)

  type Store = map<Name, seq<Name>>

  datatype Model = Model(children: seq<Child>, store: Store)

  // ---------- Children ----------

  function IndexOf(children: seq<Child>, name: Name): (i: nat)
    ensures i <= |children|
    ensures i < |children| ==> children[i].name == name
    ensures forall j | 0 <= j < i :: children[j].name != name
  {
    if children == [] then 0
    else if children[0].name == name then 0
    else
      var i := IndexOf(children[1..], name);
      assert forall j | 0 < j < |children| :: children[j] == children[1..][j - 1];
      1 + i
  }

  predicate Has(children: seq<Child>, name: Name) { IndexOf(children, name) < |children| }

  /** The child node is edited in place when it exists and appended otherwise. */
  function Put(children: seq<Child>, c: Child): seq<Child> {
    var i := IndexOf(children, c.name);
    if i < |children| then children[i := c] else children + [c]
  }

  function Drop(children: seq<Child>, name: Name): seq<Child> {
    var i := IndexOf(children, name);
    if i < |children| then children[..i] + children[i + 1..] else children
  }

  /** Everything tagged with another route, in order. */
  function Others(children: seq<Child>, route: Name): seq<Child> {
    if children == [] then []
    else
      Others(children[..|children| - 1], route)
      + if children[|children| - 1].route == route then [] else [children[|children| - 1]]
  }

  lemma {:induction false} OthersAppend(a: seq<Child>, b: seq<Child>, route: Name)
    ensures Others(a + b, route) == Others(a, route) + Others(b, route)
  {
    if b == [] {
      assert a + b == a;
    } else {
      OthersAppend(a, b[..|b| - 1], route);
      assert (a + b)[..|a + b| - 1] == a + b[..|b| - 1];
    }
  }

  lemma OthersSingle(c: Child, route: Name)
    ensures Others([c], route) == if c.route == route then [] else [c]
  {
    assert [c][..0] == [];
  }

  lemma OthersMiddle(a: seq<Child>, x: Child, b: seq<Child>, route: Name)
    ensures Others(a + [x] + b, route)
              == Others(a, route) + (if x.route == route then [] else [x]) + Others(b, route)
  {
    OthersAppend(a + [x], b, route);
    OthersAppend(a, [x], route);
    OthersSingle(x, route);
  }

  ghost predicate DistinctNames(children: seq<Child>) {
    forall i, j | 0 <= i < j < |children| :: children[i].name != children[j].name
  }

  lemma DropIndex(children: seq<Child>, name: Name, j: nat)
    requires Has(children, name) && j < |Drop(children, name)|
    ensures |Drop(children, name)| == |children| - 1
    ensures Drop(children, name)[j] == children[if j < IndexOf(children, name) then j else j + 1]
  {
  }

  lemma DropDistinct(children: seq<Child>, name: Name)
    requires DistinctNames(children) && Has(children, name)
    ensures DistinctNames(Drop(children, name))
  {
    var d := Drop(children, name);
    forall a, b | 0 <= a < b < |d| ensures d[a].name != d[b].name {
      DropIndex(children, name, a);
      DropIndex(children, name, b);
    }
  }

  lemma DropMembers(children: seq<Child>, name: Name)
    requires DistinctNames(children) && Has(children, name)
    ensures forall c :: c in Drop(children, name) <==> c in children && c.name != name
  {
    var i := IndexOf(children, name);
    var d := Drop(children, name);
    forall c | c in children && c.name != name ensures c in d {
      var j :| 0 <= j < |children| && children[j] == c;
      DropIndex(children, name, if j < i then j else j - 1);
    }
    forall c | c in d ensures c in children && c.name != name {
      var j :| 0 <= j < |d| && d[j] == c;
      DropIndex(children, name, j);
    }
  }

  lemma DropOthers(children: seq<Child>, name: Name, route: Name)
    requires Has(children, name) && children[IndexOf(children, name)].route == route
    ensures Others(Drop(children, name), route) == Others(children, route)
  {
    var i := IndexOf(children, name);
    var a, c, b := children[..i], children[i], children[i + 1..];
    assert children == a + [c] + b;
    OthersMiddle(a, c, b, route);
    OthersAppend(a, b, route);
  }

  lemma PutMembers(children: seq<Child>, c: Child)
    requires DistinctNames(children)
    ensures
      var p := Put(children, c);
      && DistinctNames(p)
      && (forall x :: x in p <==> x == c || (x in children && x.name != c.name))
  {
    var i := IndexOf(children, c.name);
    var p := Put(children, c);
    assert p[i] == c && forall j | 0 <= j < |children| && j != i :: p[j] == children[j];
    forall x | x in children && x.name != c.name ensures x in p {
      var j :| 0 <= j < |children| && children[j] == x;
      assert p[j] == x;
    }
    forall x | x in p && x != c ensures x in children && x.name != c.name {
      var j :| 0 <= j < |p| && p[j] == x;
      assert children[j] == x;
    }
  }

  lemma PutOthers(children: seq<Child>, c: Child)
    requires Has(children, c.name) ==> children[IndexOf(children, c.name)].route == c.route
    ensures Others(Put(children, c), c.route) == Others(children, c.route)
  {
    var i := IndexOf(children, c.name);
    if i < |children| {
      OthersReplace(children, i, c);
    } else {
      OthersAppend(children, [c], c.route);
      OthersSingle(c, c.route);
    }
  }

  lemma OthersReplace(children: seq<Child>, i: nat, c: Child)
    requires i < |children| && children[i].route == c.route
    ensures Others(children[i := c], c.route) == Others(children, c.route)
  {
    var a, x, b := children[..i], children[i], children[i + 1..];
    assert children == a + [x] + b;
    assert children[i := c] == a + [c] + b;
    OthersMiddle(a, x, b, c.route);
    OthersMiddle(a, c, b, c.route);
  }

  lemma HasIff(children: seq<Child>, name: Name)
    ensures Has(children, name) <==> exists c :: c in children && c.name == name
  {
    if Has(children, name) {
      assert children[IndexOf(children, name)] in children;
    }
  }

  // ---------- The route-to-child store ----------

  function Names(store: Store, route: Name): seq<Name> {
    if route in store then store[route] else []
  }

  function AddName(store: Store, route: Name, name: Name): Store {
    if route in store then
      if name in store[route] then store else store[route := store[route] + [name]]
    else store[route := [name]]
  }

  function RemoveFirst(l: seq<Name>, name: Name): seq<Name> {
    if l == [] then []
    else if l[0] == name then l[1..]
    else [l[0]] + RemoveFirst(l[1..], name)
  }

  function DropName(store: Store, route: Name, name: Name): Store {
    if route in store then
      var l := RemoveFirst(store[route], name);
      if l == [] then store - {route} else store[route := l]
    else store
  }

  ghost predicate NoRepeats(l: seq<Name>) {
    forall i, j | 0 <= i < j < |l| :: l[i] != l[j]
  }

  lemma {:induction false} RemoveFirstFacts(l: seq<Name>, name: Name)
    requires NoRepeats(l)
    ensures NoRepeats(RemoveFirst(l, name))
    ensures forall n :: n in RemoveFirst(l, name) <==> n in l && n != name
  {
    if l != [] {
      var rest := l[1..];
      assert forall i | 0 <= i < |rest| :: rest[i] == l[i + 1];
      RemoveFirstFacts(rest, name);
      if l[0] != name {
        var r := RemoveFirst(rest, name);
        assert forall i | 0 <= i < |r| :: r[i] in r;
      }
    }
  }

  lemma DropNameFacts(store: Store, route: Name, name: Name)
    requires forall r | r in store :: NoRepeats(store[r])
    ensures
      var store' := DropName(store, route, name);
      && (forall r | r in store' :: NoRepeats(store'[r]))
      && (forall n :: n in Names(store', route) <==> n in Names(store, route) && n != name)
      && (forall r | r != route :: Names(store', r) == Names(store, r))
  {
    if route in store {
      RemoveFirstFacts(store[route], name);
    }
  }

  lemma AddNameFacts(store: Store, route: Name, name: Name)
    requires forall r | r in store :: NoRepeats(store[r])
    ensures
      var store' := AddName(store, route, name);
      && (forall r | r in store' :: NoRepeats(store'[r]))
      && (forall n :: n in Names(store', route) <==> n in Names(store, route) || n == name)
      && (forall r | r != route :: Names(store', r) == Names(store, r))
  {
  }

  /** The store covers every child, tells routes apart, and repeats nothing. */
  ghost predicate Consistent(m: Model) {
    && DistinctNames(m.children)
    && (forall c | c in m.children :: c.name in Names(m.store, c.route))
    && (forall c, r | c in m.children && c.name in Names(m.store, r) :: c.route == r)
    && (forall r | r in m.store :: NoRepeats(m.store[r]))
  }

  // ---------- Deleting a route's children ----------

  function DeleteOne(m: Model, route: Name, name: Name, keep: set<Name>): Model {
    if name !in keep && Has(m.children, name)
    then Model(Drop(m.children, name), DropName(m.store, route, name))
    else m
  }

  function DeleteEach(m: Model, route: Name, names: seq<Name>, keep: set<Name>): Model {
    if names == [] then m
    else DeleteOne(DeleteEach(m, route, names[..|names| - 1], keep), route, names[|names| - 1], keep)
  }

  /** What a deletion pass may and may not change. */
  ghost predicate Pruned(m: Model, m': Model, route: Name, names: seq<Name>, keep: set<Name>) {
    && Consistent(m')
    && Others(m'.children, route) == Others(m.children, route)
    && (forall c :: c in m'.children <==> c in m.children && !(c.name in names && c.name !in keep))
    && (forall n :: n in Names(m'.store, route) <==>
          n in Names(m.store, route) && !(n in names && n !in keep && Has(m.children, n)))
    && (forall r | r != route :: Names(m'.store, r) == Names(m.store, r))
  }

  lemma DeleteOneFacts(m: Model, route: Name, name: Name, keep: set<Name>)
    requires Consistent(m) && name in Names(m.store, route)
    ensures Pruned(m, DeleteOne(m, route, name, keep), route, [name], keep)
  {
    if name !in keep && Has(m.children, name) {
      var c := m.children[IndexOf(m.children, name)];
      assert c in m.children && c.route == route;
      DropMembers(m.children, name);
      DropDistinct(m.children, name);
      DropOthers(m.children, name, route);
      DropNameFacts(m.store, route, name);
      PrunedConsistent(m, DeleteOne(m, route, name, keep), route, name);
      assert forall n :: n in [name] <==> n == name;
    } else {
      HasIff(m.children, name);
    }
  }

  lemma PrunedConsistent(m: Model, m': Model, route: Name, name: Name)
    requires Consistent(m) && DistinctNames(m'.children)
    requires forall c | c in m'.children :: c in m.children && c.name != name
    requires forall r | r in m'.store :: NoRepeats(m'.store[r])
    requires forall n :: n in Names(m'.store, route) <==> n in Names(m.store, route) && n != name
    requires forall r | r != route :: Names(m'.store, r) == Names(m.store, r)
    ensures Consistent(m')
  {
    forall c, r | c in m'.children && c.name in Names(m'.store, r) ensures c.route == r {
      assert c.name in Names(m.store, r);
    }
  }

  lemma {:induction false} DeleteEachFacts(m: Model, route: Name, names: seq<Name>, keep: set<Name>)
    requires Consistent(m) && NoRepeats(names)
    requires forall n | n in names :: n in Names(m.store, route)
    ensures Pruned(m, DeleteEach(m, route, names, keep), route, names, keep)
  {
    if names != [] {
      var init, name := names[..|names| - 1], names[|names| - 1];
      assert names == init + [name] && name !in init;
      DeleteEachFacts(m, route, init, keep);
      var m1 := DeleteEach(m, route, init, keep);
      DeleteOneFacts(m1, route, name, keep);
      forall n ensures Has(m1.children, n) <==> Has(m.children, n) && !(n in init && n !in keep) {
        HasIff(m.children, n);
        HasIff(m1.children, n);
      }
    }
  }

  // ---------- Building children ----------

  function BuildOne(m: Model, route: Name, rule: Rule, hosts: Hosts): Model {
    match hosts
    case Unknown => m
    case Known(hs) =>
      if hs == [] then
        var edited := if Has(m.children, rule.child)
                      then m.(children := Put(m.children, Child(rule.child, route, rule.body))) else m;
        DeleteEach(edited, route, Names(m.store, route), {})
      else
        Model(Put(m.children, Child(rule.child, route, rule.body)),
              if Has(m.children, rule.child) then m.store else AddName(m.store, route, rule.child))
  }

  function BuildAll(m: Model, route: Name, rules: seq<Rule>, hosts: Hosts): Model {
    if rules == [] then m
    else BuildOne(BuildAll(m, route, rules[..|rules| - 1], hosts), route, rules[|rules| - 1], hosts)
  }

  function RuleNames(rules: seq<Rule>): set<Name> { set r | r in rules :: r.child }

  function Built(rules: seq<Rule>, hosts: Hosts): set<Name> {
    if hosts.Unknown? then {} else RuleNames(rules)
  }

  function Reconcile(m: Model, route: Name, rules: seq<Rule>, hosts: Hosts): Model {
    var built := BuildAll(m, route, rules, hosts);
    DeleteEach(built, route, Names(built.store, route), Built(rules, hosts))
  }

  /** The names the rules ask for are this route's alone: a child name is derived
      from the gateway and the route. */
  ghost predicate OwnNames(m: Model, route: Name, rules: seq<Rule>) {
    forall rule | rule in rules ::
      && (forall c | c in m.children && c.name == rule.child :: c.route == route)
      && (forall r | r != route :: rule.child !in Names(m.store, r))
  }

  /** Contents asked for under a name: the last rule with that name wins. */
  function BodyFor(rules: seq<Rule>, name: Name): string {
    if rules == [] then ""
    else if rules[|rules| - 1].child == name then rules[|rules| - 1].body
    else BodyFor(rules[..|rules| - 1], name)
  }

  /** The children named by the rules are as the rules say, the rest as before. */
  ghost predicate GrownChildren(a: seq<Child>, b: seq<Child>, route: Name, rules: seq<Rule>) {
    forall c :: c in b <==>
      if c.name in RuleNames(rules) then c == Child(c.name, route, BodyFor(rules, c.name)) else c in a
  }

  ghost predicate GrownStore(a: Store, b: Store, route: Name, names: set<Name>) {
    && (forall n | n in Names(a, route) :: n in Names(b, route))
    && (forall n | n in Names(b, route) :: n in Names(a, route) || n in names)
    && (forall r | r != route :: Names(b, r) == Names(a, r))
  }

  /** Progress of the rule loop on a route with hosts. */
  ghost predicate Grown(m: Model, m': Model, route: Name, rules: seq<Rule>) {
    && Consistent(m')
    && Others(m'.children, route) == Others(m.children, route)
    && GrownChildren(m.children, m'.children, route, rules)
    && GrownStore(m.store, m'.store, route, RuleNames(rules))
  }

  lemma BuildOneGrows(m: Model, route: Name, rule: Rule, hosts: Hosts)
    requires Consistent(m) && OwnNames(m, route, [rule])
    requires hosts.Known? && hosts.hosts != []
    ensures Grown(m, BuildOne(m, route, rule, hosts), route, [rule])
  {
    var c := Child(rule.child, route, rule.body);
    assert rule in [rule];
    if Has(m.children, rule.child) {
      assert m.children[IndexOf(m.children, rule.child)] in m.children;
    }
    PutMembers(m.children, c);
    PutOthers(m.children, c);
    AddNameFacts(m.store, route, rule.child);
    HasIff(m.children, rule.child);
    OneGrown(m, BuildOne(m, route, rule, hosts), route, rule);
  }

  lemma OneGrown(m: Model, m': Model, route: Name, rule: Rule)
    requires Consistent(m) && OwnNames(m, route, [rule])
    requires DistinctNames(m'.children) && Others(m'.children, route) == Others(m.children, route)
    requires forall c :: c in m'.children <==>
               c == Child(rule.child, route, rule.body) || (c in m.children && c.name != rule.child)
    requires forall r | r in m'.store :: NoRepeats(m'.store[r])
    requires forall n :: n in Names(m'.store, route) <==> n in Names(m.store, route) || n == rule.child
    requires forall r | r != route :: Names(m'.store, r) == Names(m.store, r)
    ensures Grown(m, m', route, [rule])
  {
    OneRule(rule);
    OneConsistent(m, m', route, rule);
  }

  lemma OneRule(rule: Rule)
    ensures RuleNames([rule]) == {rule.child} && BodyFor([rule], rule.child) == rule.body
  {
  }

  lemma OneConsistent(m: Model, m': Model, route: Name, rule: Rule)
    requires Consistent(m) && OwnNames(m, route, [rule]) && DistinctNames(m'.children)
    requires forall c | c in m'.children ::
               c == Child(rule.child, route, rule.body) || (c in m.children && c.name != rule.child)
    requires forall r | r in m'.store :: NoRepeats(m'.store[r])
    requires forall n :: n in Names(m'.store, route) <==> n in Names(m.store, route) || n == rule.child
    requires forall r | r != route :: Names(m'.store, r) == Names(m.store, r)
    ensures Consistent(m')
  {
    assert rule in [rule];
    forall c, r | c in m'.children && c.name in Names(m'.store, r)
      ensures c.route == r
    {
      if c in m.children && c.name != rule.child {
        assert c.name in Names(m.store, r);
      }
    }
  }

  lemma {:induction false} BuildAllGrows(m: Model, route: Name, rules: seq<Rule>, hosts: Hosts)
    requires Consistent(m) && OwnNames(m, route, rules)
    requires hosts.Known? && hosts.hosts != []
    ensures Grown(m, BuildAll(m, route, rules, hosts), route, rules)
  {
    if rules != [] {
      var init, rule := rules[..|rules| - 1], rules[|rules| - 1];
      assert rules == init + [rule];
      assert forall r :: r in rules <==> r in init || r == rule;
      BuildAllGrows(m, route, init, hosts);
      var m1 := BuildAll(m, route, init, hosts);
      OwnNamesKept(m, m1, route, init, rule);
      BuildOneGrows(m1, route, rule, hosts);
      GrownChain(m, m1, BuildOne(m1, route, rule, hosts), route, init, rule);
    }
  }

  lemma OwnNamesKept(m: Model, m1: Model, route: Name, init: seq<Rule>, rule: Rule)
    requires Grown(m, m1, route, init) && OwnNames(m, route, init + [rule])
    ensures OwnNames(m1, route, [rule])
  {
    assert rule in init + [rule];
  }

  lemma GrownChain(m: Model, m1: Model, m2: Model, route: Name, init: seq<Rule>, rule: Rule)
    requires Grown(m, m1, route, init) && Grown(m1, m2, route, [rule])
    ensures Grown(m, m2, route, init + [rule])
  {
    OneRule(rule);
    NamesSnoc(init, rule);
    ChildrenChain(m.children, m1.children, m2.children, route, init, rule);
    StoreChain(m.store, m1.store, m2.store, route, RuleNames(init), {rule.child});
  }

  lemma NamesSnoc(init: seq<Rule>, rule: Rule)
    ensures RuleNames(init + [rule]) == RuleNames(init) + {rule.child}
  {
  }

  lemma StoreChain(a: Store, b: Store, c: Store, route: Name, names: set<Name>, more: set<Name>)
    requires GrownStore(a, b, route, names) && GrownStore(b, c, route, more)
    ensures GrownStore(a, c, route, names + more)
  {
  }

  lemma ChildrenChain(a: seq<Child>, b: seq<Child>, d: seq<Child>, route: Name, init: seq<Rule>, rule: Rule)
    requires GrownChildren(a, b, route, init) && GrownChildren(b, d, route, [rule])
    ensures GrownChildren(a, d, route, init + [rule])
  {
    var rules := init + [rule];
    assert rules[..|rules| - 1] == init && rules[|rules| - 1] == rule;
    OneRule(rule);
    NamesSnoc(init, rule);
    forall c ensures c in d <==>
        if c.name in RuleNames(rules) then c == Child(c.name, route, BodyFor(rules, c.name)) else c in a
    {
      assert c.name in RuleNames([rule]) <==> c.name == rule.child;
    }
  }

  // ---------- A route whose hosts are gone ----------

  /** Nothing of the route is left in the model, and nothing else has changed. */
  ghost predicate Cleared(m: Model, m': Model, route: Name) {
    && Consistent(m')
    && Others(m'.children, route) == Others(m.children, route)
    && (forall c | c in m'.children :: c.route != route)
    && (forall c | c in m.children && c.route != route :: c in m'.children)
    && (forall n | n in Names(m.store, route) && !Has(m.children, n) :: n in Names(m'.store, route))
    && (forall n | n in Names(m'.store, route) :: n in Names(m.store, route))
    && (forall r | r != route :: Names(m'.store, r) == Names(m.store, r))
  }

  lemma DeleteAllClears(m: Model, route: Name)
    requires Consistent(m)
    ensures Cleared(m, DeleteEach(m, route, Names(m.store, route), {}), route)
  {
    DeleteEachFacts(m, route, Names(m.store, route), {});
  }

  lemma EditInPlace(m: Model, route: Name, rule: Rule)
    requires Consistent(m) && OwnNames(m, route, [rule]) && Has(m.children, rule.child)
    ensures
      var e := m.(children := Put(m.children, Child(rule.child, route, rule.body)));
      && Consistent(e)
      && Others(e.children, route) == Others(m.children, route)
      && (forall n :: Has(e.children, n) <==> Has(m.children, n))
      && (forall c: Child | c.route != route :: c in e.children <==> c in m.children)
  {
    var c := Child(rule.child, route, rule.body);
    assert rule in [rule] && m.children[IndexOf(m.children, rule.child)] in m.children;
    PutMembers(m.children, c);
    PutOthers(m.children, c);
    var e := m.(children := Put(m.children, c));
    forall n ensures Has(e.children, n) <==> Has(m.children, n) {
      HasIff(m.children, n);
      HasIff(e.children, n);
    }
  }

  lemma BuildOneClears(m: Model, route: Name, rule: Rule)
    requires Consistent(m) && OwnNames(m, route, [rule])
    ensures Cleared(m, BuildOne(m, route, rule, Known([])), route)
  {
    if Has(m.children, rule.child) {
      EditInPlace(m, route, rule);
      DeleteAllClears(m.(children := Put(m.children, Child(rule.child, route, rule.body))), route);
    } else {
      DeleteAllClears(m, route);
    }
  }

  lemma {:induction false} BuildAllClears(m: Model, route: Name, rules: seq<Rule>)
    requires Consistent(m) && OwnNames(m, route, rules) && rules != []
    ensures Cleared(m, BuildAll(m, route, rules, Known([])), route)
  {
    var init, rule := rules[..|rules| - 1], rules[|rules| - 1];
    assert rule in rules && forall r | r in init :: r in rules;
    if init != [] {
      BuildAllClears(m, route, init);
    }
    var m1 := BuildAll(m, route, init, Known([]));
    assert init != [] ==> Cleared(m, m1, route);
    assert OwnNames(m1, route, [rule]);
    BuildOneClears(m1, route, rule);
    ClearedChain(m, m1, BuildOne(m1, route, rule, Known([])), route);
  }

  lemma ClearedChain(m: Model, m1: Model, m2: Model, route: Name)
    requires (m1 == m || Cleared(m, m1, route)) && Cleared(m1, m2, route)
    ensures Cleared(m, m2, route)
  {
    forall n | n in Names(m1.store, route) && Cleared(m, m1, route)
      ensures !Has(m1.children, n)
    {
      HasIff(m1.children, n);
    }
  }

  lemma {:induction false} OthersMembers(children: seq<Child>, route: Name, c: Child)
    ensures c in Others(children, route) <==> c in children && c.route != route
  {
    if children != [] {
      var init := children[..|children| - 1];
      assert children == init + [children[|children| - 1]];
      OthersMembers(init, route, c);
    }
  }

  // ---------- The whole reconcile ----------

  /** After the rule loop and the stale deletion, the route's children in this
      gateway are exactly the ones its rules name, with the rules' contents, and none
      at all when it has no hosts; other routes' children are untouched and in order;
      the store still covers every child, still lists the route's children on other
      gateways, and says the same of every other route. */
  ghost predicate Reconciled(m: Model, m': Model, route: Name, rules: seq<Rule>, hosts: Hosts) {
    && Consistent(m')
    && Others(m'.children, route) == Others(m.children, route)
    && (forall c :: c in m'.children && c.route == route <==>
          hosts.Known? && hosts.hosts != [] && c.name in RuleNames(rules)
          && c == Child(c.name, route, BodyFor(rules, c.name)))
    && (forall n | n in Names(m.store, route) && !Has(m.children, n) :: n in Names(m'.store, route))
    && (forall r | r != route :: Names(m'.store, r) == Names(m.store, r))
  }

  lemma ReconcileExact(m: Model, route: Name, rules: seq<Rule>, hosts: Hosts)
    requires Consistent(m) && OwnNames(m, route, rules)
    ensures Reconciled(m, Reconcile(m, route, rules, hosts), route, rules, hosts)
  {
    if hosts.Known? && hosts.hosts != [] {
      ReconcileWithHosts(m, route, rules, hosts);
    } else if hosts.Known? && rules != [] {
      ReconcileEmptyHosts(m, route, rules);
    } else {
      assert BuildAll(m, route, rules, hosts) == m by {
        if hosts.Unknown? { UnknownBuildsNothing(m, route, rules); }
      }
      assert RuleNames([]) == {};
      DeleteAllClears(m, route);
    }
  }

  lemma {:induction false} UnknownBuildsNothing(m: Model, route: Name, rules: seq<Rule>)
    ensures BuildAll(m, route, rules, Unknown) == m
  {
    if rules != [] {
      UnknownBuildsNothing(m, route, rules[..|rules| - 1]);
    }
  }

  lemma ReconcileEmptyHosts(m: Model, route: Name, rules: seq<Rule>)
    requires Consistent(m) && OwnNames(m, route, rules) && rules != []
    ensures Reconciled(m, Reconcile(m, route, rules, Known([])), route, rules, Known([]))
  {
    BuildAllClears(m, route, rules);
    var m1 := BuildAll(m, route, rules, Known([]));
    DeleteEachFacts(m1, route, Names(m1.store, route), RuleNames(rules));
    forall n | n in Names(m1.store, route) ensures !Has(m1.children, n) {
      HasIff(m1.children, n);
    }
  }

  lemma ReconcileWithHosts(m: Model, route: Name, rules: seq<Rule>, hosts: Hosts)
    requires Consistent(m) && OwnNames(m, route, rules)
    requires hosts.Known? && hosts.hosts != []
    ensures Reconciled(m, Reconcile(m, route, rules, hosts), route, rules, hosts)
  {
    BuildAllGrows(m, route, rules, hosts);
    var m1 := BuildAll(m, route, rules, hosts);
    DeleteEachFacts(m1, route, Names(m1.store, route), RuleNames(rules));
    forall n | n in Names(m.store, route) && !Has(m.children, n) && n !in RuleNames(rules)
      ensures !Has(m1.children, n)
    {
      HasIff(m.children, n);
      HasIff(m1.children, n);
    }
  }

  // ---------- The same, in place ----------

  /** One gateway's parent VS and the process-wide store, edited as the graph layer
      edits them. */
  class Graph {
    var children: seq<Child>
    var store: Store

    constructor (children: seq<Child>, store: Store)
      ensures Now() == Model(children, store)
    {
      this.children, this.store := children, store;
    }

    ghost function Now(): Model
      reads this
    {
      Model(children, store)
    }

    method RemoveEvhInModel(name: Name) returns (removed: bool)
      modifies this`children
      ensures removed == Has(old(children), name)
      ensures children == Drop(old(children), name)
    {
      for i := 0 to |children|
        invariant children == old(children)
        invariant forall j | 0 <= j < i :: children[j].name != name
      {
        if children[i].name == name {
          children := children[..i] + children[i + 1..];
          return true;
        }
      }
      removed := false;
    }

    /** Shared by the route deletion (nothing kept) and the stale deletion. */
    method DeleteChildren(route: Name, keep: set<Name>)
      modifies this
      ensures Now() == DeleteEach(old(Now()), route, Names(old(store), route), keep)
    {
      var stored := if route in store then store[route] else [];
      for i := 0 to |stored|
        invariant Now() == DeleteEach(old(Now()), route, stored[..i], keep)
      {
        assert stored[..i + 1][..i] == stored[..i];
        if stored[i] !in keep {
          var removed := RemoveEvhInModel(stored[i]);
          if removed {
            store := DropName(store, route, stored[i]);
          }
        }
      }
      assert stored[..|stored|] == stored;
    }

    method BuildChildVS(route: Name, rule: Rule, hosts: Hosts, built: set<Name>) returns (built': set<Name>)
      modifies this
      ensures Now() == BuildOne(old(Now()), route, rule, hosts)
      ensures built' == if hosts.Unknown? then built else built + {rule.child}
    {
      built' := built;
      if hosts.Unknown? {
        return;
      }
      built' := built' + {rule.child};
      var i := IndexOf(children, rule.child);
      var node := Child(rule.child, route, rule.body);
      if i < |children| {
        children := children[i := node];
      }
      if hosts.hosts == [] {
        DeleteChildren(route, {});
        return;
      }
      if i == |children| {
        children := children + [node];
        store := AddName(store, route, rule.child);
      }
    }

    method ProcessL7Routes(route: Name, rules: seq<Rule>, hosts: Hosts) returns (built: set<Name>)
      modifies this
      ensures Now() == BuildAll(old(Now()), route, rules, hosts)
      ensures built == Built(rules, hosts)
    {
      built := {};
      for i := 0 to |rules|
        invariant Now() == BuildAll(old(Now()), route, rules[..i], hosts)
        invariant built == Built(rules[..i], hosts)
      {
        assert rules[..i + 1][..i] == rules[..i];
        assert RuleNames(rules[..i + 1]) == RuleNames(rules[..i]) + {rules[i].child};
        built := BuildChildVS(route, rules[i], hosts, built);
      }
      assert rules[..|rules|] == rules;
    }

    method ReconcileRoute(route: Name, rules: seq<Rule>, hosts: Hosts)
      modifies this
      ensures Now() == Reconcile(old(Now()), route, rules, hosts)
    {
      var built := ProcessL7Routes(route, rules, hosts);
      DeleteChildren(route, built);
    }
  }
}
