/** Model-based tier routing: the policy's own reading of a request (exact name,
    then longest prefix, then default; then entitlement) and the script it compiles
    to, which decides over constant tables. */
module ModelRoute {
  import opened Text

  datatype Entitlement = Entitlement(group: string, allow: seq<string>)

  datatype Spec = Spec(
    modelTiers: map<string, string>, defaultTier: string, tiers: seq<string>,
    entitlements: seq<Entitlement>, reject: bool)

  // ---------- Glob entries ----------

  datatype Prefix = Prefix(prefix: string, tier: string)

  ghost predicate LongestFirst(es: seq<Prefix>) {
    forall i, j | 0 <= i < j < |es| :: |es[i].prefix| >= |es[j].prefix|
  }

  /** The generator's order: longer first, then by dictionary. */
  predicate Ahead(a: Prefix, b: Prefix) {
    || |a.prefix| > |b.prefix|
    || (|a.prefix| == |b.prefix| && a.prefix != b.prefix && LexLe(a.prefix, b.prefix))
  }

  ghost predicate GlobOrder(es: seq<Prefix>) {
    forall i, j | 0 <= i < j < |es| :: Ahead(es[i], es[j])
  }

  lemma AheadTotal(a: Prefix, b: Prefix)
    requires a.prefix != b.prefix
    ensures Ahead(a, b) != Ahead(b, a)
  {
    LexTotal(a.prefix, b.prefix);
    if LexLe(a.prefix, b.prefix) && LexLe(b.prefix, a.prefix) {
      LexAntisymmetric(a.prefix, b.prefix);
    }
  }

  lemma AheadTransitive(a: Prefix, b: Prefix, c: Prefix)
    requires Ahead(a, b) && Ahead(b, c)
    ensures Ahead(a, c)
  {
    if |a.prefix| == |b.prefix| == |c.prefix| {
      LexTransitive(a.prefix, b.prefix, c.prefix);
      if a.prefix == c.prefix {
        LexAntisymmetric(a.prefix, b.prefix);
      }
    }
  }

  lemma AheadAsymmetric(a: Prefix, b: Prefix)
    ensures !(Ahead(a, b) && Ahead(b, a))
  {
    if a.prefix != b.prefix {
      AheadTotal(a, b);
    }
  }

  /** What is baked into the script does not depend on the order of the map: there is
      one listing of the globs in the generator's order. */
  lemma {:induction false} ListingUnique(a: seq<Prefix>, b: seq<Prefix>)
    requires GlobOrder(a) && GlobOrder(b) && forall e :: e in a <==> e in b
    ensures a == b
  {
    assert a != [] ==> a[0] in b;
    assert b != [] ==> b[0] in a;
    if a != [] {
      SameFirst(a, b);
      assert a == [a[0]] + a[1..] && b == [b[0]] + b[1..];
      forall e ensures e in a[1..] <==> e in b[1..] {
        FirstOnce(a, e);
        FirstOnce(b, e);
      }
      ListingUnique(a[1..], b[1..]);
    }
  }

  lemma SameFirst(a: seq<Prefix>, b: seq<Prefix>)
    requires a != [] && b != [] && GlobOrder(a) && GlobOrder(b) && a[0] in b && b[0] in a
    ensures a[0] == b[0]
  {
    AheadAsymmetric(a[0], b[0]);
  }

  lemma FirstOnce(a: seq<Prefix>, e: Prefix)
    requires a != [] && GlobOrder(a)
    ensures e in a[1..] <==> e in a && e != a[0]
  {
    assert a == [a[0]] + a[1..];
    if e in a[1..] {
      var i :| 0 <= i < |a[1..]| && a[1..][i] == e;
      assert Ahead(a[0], a[i + 1]);
      AheadAsymmetric(a[0], e);
    }
  }

  /** The entries are the policy's globs, each once, in whatever order. */
  ghost predicate ListsGlobs(es: seq<Prefix>, modelTiers: map<string, string>) {
    && (forall e | e in es :: e.prefix + "*" in modelTiers && modelTiers[e.prefix + "*"] == e.tier)
    && (forall k | k in modelTiers && IsGlob(k) :: Prefix(TrimLast(k), modelTiers[k]) in es)
  }

  /** Walks the map in any order and sorts the globs longest first. */
  method PrefixEntries(modelTiers: map<string, string>) returns (es: seq<Prefix>)
    ensures GlobOrder(es) && LongestFirst(es) && ListsGlobs(es, modelTiers)
  {
    es := [];
    var rest := modelTiers.Keys;
    while rest != {}
      invariant rest <= modelTiers.Keys
      invariant GlobOrder(es) && forall e | e in es :: e.prefix + "*" !in rest
      invariant forall e | e in es :: e.prefix + "*" in modelTiers && modelTiers[e.prefix + "*"] == e.tier
      invariant forall k | k in modelTiers && k !in rest && IsGlob(k) :: Prefix(TrimLast(k), modelTiers[k]) in es
      decreases rest
    {
      var k :| k in rest;
      rest := rest - {k};
      if IsGlob(k) {
        assert TrimLast(k) + "*" == k;
        forall e | e in es ensures e.prefix != TrimLast(k) {
          assert e.prefix + "*" != k;
        }
        es := InsertSorted(es, Prefix(TrimLast(k), modelTiers[k]));
      }
    }
  }

  method InsertSorted(es: seq<Prefix>, e: Prefix) returns (r: seq<Prefix>)
    requires GlobOrder(es) && forall x | x in es :: x.prefix != e.prefix
    ensures GlobOrder(r)
    ensures forall x :: x in r <==> x in es || x == e
  {
    var i := 0;
    while i < |es| && Ahead(es[i], e)
      invariant 0 <= i <= |es|
      invariant forall j | 0 <= j < i :: Ahead(es[j], e)
    {
      i := i + 1;
    }
    forall j | i <= j < |es| ensures Ahead(e, es[j]) {
      assert es[i] in es;
      AheadTotal(es[i], e);
      if i < j {
        AheadTransitive(e, es[i], es[j]);
      }
    }
    r := InsertAt(es, i, e);
    InsertMembers(es, i, e);
  }

  function FirstMatch(es: seq<Prefix>, model: string): Option<string> {
    if es == [] then None
    else if es[0].prefix <= model then Some(es[0].tier)
    else FirstMatch(es[1..], model)
  }

  /** k is the longest glob of the policy that matches. */
  ghost predicate IsLongestGlob(modelTiers: map<string, string>, model: string, k: string) {
    && k in modelTiers && IsGlob(k) && TrimLast(k) <= model
    && forall k' | k' in modelTiers && IsGlob(k') && TrimLast(k') <= model && k' != k :: |k'| < |k|
  }

  lemma {:induction false} FirstMatchAt(es: seq<Prefix>, model: string)
    ensures FirstMatch(es, model).Some? ==>
              exists i :: 0 <= i < |es| && es[i].prefix <= model && FirstMatch(es, model) == Some(es[i].tier)
                && forall j | 0 <= j < i :: !(es[j].prefix <= model)
    ensures FirstMatch(es, model).None? ==> forall i | 0 <= i < |es| :: !(es[i].prefix <= model)
  {
    if es != [] && !(es[0].prefix <= model) {
      FirstMatchAt(es[1..], model);
      if FirstMatch(es, model).Some? {
        var i :| 0 <= i < |es[1..]| && es[1..][i].prefix <= model && FirstMatch(es[1..], model) == Some(es[1..][i].tier)
          && forall j | 0 <= j < i :: !(es[1..][j].prefix <= model);
        assert es[i + 1] == es[1..][i];
        assert forall j | 0 < j < i + 1 :: es[j] == es[1..][j - 1];
      }
    }
  }

  /** Whatever order the map was walked in, the first match is the unique longest
      matching glob, and there is none exactly when no glob matches. */
  lemma FirstMatchIsLongest(es: seq<Prefix>, modelTiers: map<string, string>, model: string)
    requires LongestFirst(es) && ListsGlobs(es, modelTiers)
    ensures FirstMatch(es, model).Some? ==>
              exists k :: IsLongestGlob(modelTiers, model, k) && FirstMatch(es, model) == Some(modelTiers[k])
    ensures FirstMatch(es, model).None? <==>
              forall k | k in modelTiers && IsGlob(k) :: !(TrimLast(k) <= model)
  {
    FirstMatchAt(es, model);
    if FirstMatch(es, model).Some? {
      var i :| 0 <= i < |es| && es[i].prefix <= model && FirstMatch(es, model) == Some(es[i].tier)
        && forall j | 0 <= j < i :: !(es[j].prefix <= model);
      assert es[i] in es;
      LongestAt(es, modelTiers, model, i);
    } else {
      forall k | k in modelTiers && IsGlob(k) ensures !(TrimLast(k) <= model) {
        var i :| 0 <= i < |es| && es[i] == Prefix(TrimLast(k), modelTiers[k]);
      }
    }
  }

  lemma LongestAt(es: seq<Prefix>, modelTiers: map<string, string>, model: string, i: nat)
    requires LongestFirst(es) && ListsGlobs(es, modelTiers)
    requires i < |es| && es[i].prefix <= model && forall j | 0 <= j < i :: !(es[j].prefix <= model)
    ensures IsLongestGlob(modelTiers, model, es[i].prefix + "*") && modelTiers[es[i].prefix + "*"] == es[i].tier
  {
    var k := es[i].prefix + "*";
    assert es[i] in es;
    assert TrimLast(k) == es[i].prefix;
    forall k' | k' in modelTiers && IsGlob(k') && TrimLast(k') <= model && k' != k
      ensures |k'| < |k|
    {
      var j :| 0 <= j < |es| && es[j] == Prefix(TrimLast(k'), modelTiers[k']);
      assert k == model[..|k| - 1] + "*" && k' == model[..|k'| - 1] + "*";
    }
  }

  lemma LongestGlobUnique(modelTiers: map<string, string>, model: string, k: string, k': string)
    requires IsLongestGlob(modelTiers, model, k) && IsLongestGlob(modelTiers, model, k')
    ensures k == k'
  {
  }

  // ---------- The policy's own reading ----------

  function ResolveTier(spec: Spec, es: seq<Prefix>, model: string): string {
    if model in spec.modelTiers && !IsGlob(model) then spec.modelTiers[model]
    else if FirstMatch(es, model).Some? then FirstMatch(es, model).value
    else spec.defaultTier
  }

  function FirstRule(rules: seq<Entitlement>, group: string): Option<Entitlement> {
    if rules == [] then None
    else if rules[0].group == group then Some(rules[0])
    else FirstRule(rules[1..], group)
  }

  predicate IsAllowed(spec: Spec, group: string, tier: string) {
    if spec.entitlements == [] then tier in spec.tiers
    else
      match FirstRule(spec.entitlements, group)
      case None => false
      case Some(r) => tier in r.allow
  }

  /** The caller's most preferred tier, "" when there is none. */
  function BestAllowed(spec: Spec, tiers: seq<string>, group: string): string {
    if tiers == [] then ""
    else if IsAllowed(spec, group, tiers[0]) then tiers[0]
    else BestAllowed(spec, tiers[1..], group)
  }

  datatype Decision = Refuse | Route(tier: string)

  /** Resolve, check entitlement, then refuse or fall back to the caller's best. */
  function Decide(spec: Spec, es: seq<Prefix>, model: string, group: string): Decision {
    var tier := ResolveTier(spec, es, model);
    if IsAllowed(spec, group, tier) then Route(tier)
    else if spec.reject then Refuse
    else
      var best := BestAllowed(spec, spec.tiers, group);
      if best == "" then Refuse else Route(best)
  }

  /** Validate, as far as the decision goes: tiers are declared and distinct, and
      every reference to a tier names a declared one. */
  predicate Valid(spec: Spec) {
    && spec.tiers != [] && "" !in spec.tiers
    && (forall i, j | 0 <= i < j < |spec.tiers| :: spec.tiers[i] != spec.tiers[j])
    && spec.defaultTier in spec.tiers
    && (forall m | m in spec.modelTiers :: spec.modelTiers[m] in spec.tiers)
    && (forall r | r in spec.entitlements :: forall t | t in r.allow :: t in spec.tiers)
  }

  // ---------- The reading, said without its steps ----------

  /** The tier a model asks for: the one stated under its very name, unless that is a
      glob; else that of the longest glob it begins with; else the default. */
  ghost predicate Asks(spec: Spec, model: string, tier: string) {
    var m := spec.modelTiers;
    if model in m && !IsGlob(model) then tier == m[model]
    else if exists k :: IsLongestGlob(m, model, k) then exists k :: IsLongestGlob(m, model, k) && tier == m[k]
    else tier == spec.defaultTier
  }

  /** The group may use the tier: with no entitlements every declared tier, otherwise
      what the first rule for the group allows. */
  ghost predicate MayUse(spec: Spec, group: string, tier: string) {
    if spec.entitlements == [] then tier in spec.tiers
    else
      exists i :: 0 <= i < |spec.entitlements| && spec.entitlements[i].group == group
        && tier in spec.entitlements[i].allow
        && forall j | 0 <= j < i :: spec.entitlements[j].group != group
  }

  lemma {:induction false} FirstRuleAt(rules: seq<Entitlement>, group: string) returns (i: nat)
    ensures i <= |rules| && forall j | 0 <= j < i :: rules[j].group != group
    ensures FirstRule(rules, group) == if i < |rules| then Some(rules[i]) else None
    ensures i < |rules| ==> rules[i].group == group
  {
    if rules == [] || rules[0].group == group {
      i := 0;
    } else {
      i := FirstRuleAt(rules[1..], group);
      assert forall j | 0 < j < |rules| :: rules[j] == rules[1..][j - 1];
      i := i + 1;
    }
  }

  lemma AllowedMayUse(spec: Spec, group: string, tier: string)
    ensures IsAllowed(spec, group, tier) <==> MayUse(spec, group, tier)
  {
    var i := FirstRuleAt(spec.entitlements, group);
    if i < |spec.entitlements| && spec.entitlements != [] {
      assert forall k | 0 <= k < |spec.entitlements| && k != i && spec.entitlements[k].group == group :: i < k;
    }
  }

  /** The first of the tiers that the group may use. */
  ghost predicate IsBest(spec: Spec, group: string, i: nat) {
    && i < |spec.tiers| && MayUse(spec, group, spec.tiers[i])
    && forall j | 0 <= j < i :: !MayUse(spec, group, spec.tiers[j])
  }

  lemma {:induction false} BestAt(spec: Spec, n: nat, group: string)
    requires n <= |spec.tiers| && "" !in spec.tiers && forall j | 0 <= j < n :: !MayUse(spec, group, spec.tiers[j])
    ensures
      var best := BestAllowed(spec, spec.tiers[n..], group);
      if best == "" then forall t | t in spec.tiers :: !MayUse(spec, group, t)
      else exists i: nat :: IsBest(spec, group, i) && best == spec.tiers[i]
    decreases |spec.tiers| - n
  {
    if n < |spec.tiers| {
      AllowedMayUse(spec, group, spec.tiers[n]);
      assert spec.tiers[n..][1..] == spec.tiers[n + 1..];
      if MayUse(spec, group, spec.tiers[n]) {
        assert IsBest(spec, group, n);
      } else {
        BestAt(spec, n + 1, group);
      }
    }
  }

  /** What a decision comes to: the tier asked for if the group may use it; otherwise a
      refusal if the policy rejects, or the first declared tier the group may use, or
      a refusal if there is none. */
  ghost predicate Decided(spec: Spec, group: string, tier: string, d: Decision) {
    && (MayUse(spec, group, tier) ==> d == Route(tier))
    && (!MayUse(spec, group, tier) && spec.reject ==> d == Refuse)
    && (!MayUse(spec, group, tier) && !spec.reject ==>
          if exists t :: t in spec.tiers && MayUse(spec, group, t)
          then exists i: nat :: IsBest(spec, group, i) && d == Route(spec.tiers[i])
          else d == Refuse)
  }

  lemma ResolveAsks(spec: Spec, es: seq<Prefix>, model: string)
    requires LongestFirst(es) && ListsGlobs(es, spec.modelTiers)
    ensures Asks(spec, model, ResolveTier(spec, es, model))
  {
    FirstMatchIsLongest(es, spec.modelTiers, model);
  }

  lemma AsksOne(spec: Spec, model: string, tier: string, tier': string)
    requires Asks(spec, model, tier) && Asks(spec, model, tier')
    ensures tier == tier'
  {
  }

  /** The policy's reading of a request is the decision on the one tier it asks for. */
  lemma DecisionIs(spec: Spec, es: seq<Prefix>, model: string, group: string, tier: string)
    requires Valid(spec) && LongestFirst(es) && ListsGlobs(es, spec.modelTiers) && Asks(spec, model, tier)
    ensures Decided(spec, group, tier, Decide(spec, es, model, group))
  {
    ResolveAsks(spec, es, model);
    AsksOne(spec, model, tier, ResolveTier(spec, es, model));
    AllowedMayUse(spec, group, tier);
    assert spec.tiers[0..] == spec.tiers;
    BestAt(spec, 0, group);
    if i: nat :| IsBest(spec, group, i) {
      assert spec.tiers[i] in spec.tiers;
    }
  }

  // ---------- The emitted script ----------

  /** Constant tables baked into the script. A table constructor that names a key
      twice keeps the later value. */
  datatype Script = Script(
    modelTiers: map<string, string>, prefixes: seq<Prefix>, defaultTier: string, pref: seq<string>,
    entitled: bool, entitle: map<string, set<string>>, reject: bool)

  function ExactTiers(m: map<string, string>): map<string, string> {
    map k | k in m && !IsGlob(k) :: m[k]
  }

  function EntitleTable(rules: seq<Entitlement>): map<string, set<string>> {
    if rules == [] then map[]
    else
      var r := rules[|rules| - 1];
      EntitleTable(rules[..|rules| - 1])[r.group := set t | t in r.allow]
  }

  /** `order` is the entitlement list as the generator sorted it. */
  function Compile(spec: Spec, es: seq<Prefix>, order: seq<Entitlement>): Script {
    Script(ExactTiers(spec.modelTiers), es, spec.defaultTier, spec.tiers,
           spec.entitlements != [], EntitleTable(order), spec.reject)
  }

  /** The script as it runs: `tier` is reassigned down the page. */
  method RunScript(sc: Script, model: string, group: string) returns (d: Decision)
    ensures d == ScriptDecision(sc, model, group)
  {
    var tier: Option<string> := if model in sc.modelTiers then Some(sc.modelTiers[model]) else None;
    if tier.None? {
      var i := 0;
      while i < |sc.prefixes| && tier.None?
        invariant 0 <= i <= |sc.prefixes|
        invariant tier.None? ==> FirstMatch(sc.prefixes[i..], model) == FirstMatch(sc.prefixes, model)
        invariant tier.Some? ==> tier == FirstMatch(sc.prefixes, model)
        decreases |sc.prefixes| - i
      {
        var p := sc.prefixes[i];
        assert sc.prefixes[i..][1..] == sc.prefixes[i + 1..];
        if |p.prefix| <= |model| && model[..|p.prefix|] == p.prefix {
          tier := Some(p.tier);
        }
        i := i + 1;
      }
    }
    if tier.None? {
      tier := Some(sc.defaultTier);
    }
    if sc.entitled {
      var a := if group in sc.entitle then sc.entitle[group] else {};
      if tier.value !in a {
        if sc.reject {
          return Refuse;
        }
        var best: Option<string> := None;
        var i := 0;
        while i < |sc.pref| && best.None?
          invariant 0 <= i <= |sc.pref|
          invariant best.None? ==> FirstIn(sc.pref[i..], a) == FirstIn(sc.pref, a)
          invariant best.Some? ==> best == FirstIn(sc.pref, a)
          decreases |sc.pref| - i
        {
          assert sc.pref[i..][1..] == sc.pref[i + 1..];
          if sc.pref[i] in a {
            best := Some(sc.pref[i]);
          }
          i := i + 1;
        }
        if best.None? {
          return Refuse;
        }
        tier := best;
      }
    }
    d := Route(tier.value);
  }

  function FirstIn(tiers: seq<string>, allowed: set<string>): Option<string> {
    if tiers == [] then None
    else if tiers[0] in allowed then Some(tiers[0])
    else FirstIn(tiers[1..], allowed)
  }

  function ScriptTier(sc: Script, model: string): string {
    if model in sc.modelTiers then sc.modelTiers[model]
    else if FirstMatch(sc.prefixes, model).Some? then FirstMatch(sc.prefixes, model).value
    else sc.defaultTier
  }

  function ScriptDecision(sc: Script, model: string, group: string): Decision {
    var tier := ScriptTier(sc, model);
    var a := if group in sc.entitle then sc.entitle[group] else {};
    if !sc.entitled || tier in a then Route(tier)
    else if sc.reject then Refuse
    else
      match FirstIn(sc.pref, a)
      case None => Refuse
      case Some(best) => Route(best)
  }

  // ---------- The entitlement table ----------

  function LastRule(rules: seq<Entitlement>, group: string): Option<Entitlement> {
    if rules == [] then None
    else if rules[|rules| - 1].group == group then Some(rules[|rules| - 1])
    else LastRule(rules[..|rules| - 1], group)
  }

  lemma {:induction false} TableHoldsLast(rules: seq<Entitlement>, group: string)
    ensures group in EntitleTable(rules) <==> LastRule(rules, group).Some?
    ensures group in EntitleTable(rules) ==>
              EntitleTable(rules)[group] == set t | t in LastRule(rules, group).value.allow
  {
    if rules != [] {
      TableHoldsLast(rules[..|rules| - 1], group);
    }
  }

  lemma {:induction false} FirstRuleFacts(rules: seq<Entitlement>, group: string)
    ensures FirstRule(rules, group).Some? ==>
              FirstRule(rules, group).value in rules && FirstRule(rules, group).value.group == group
    ensures FirstRule(rules, group).None? ==> forall r | r in rules :: r.group != group
  {
    if rules != [] {
      FirstRuleFacts(rules[1..], group);
      assert rules == [rules[0]] + rules[1..];
    }
  }

  lemma {:induction false} LastRuleFacts(rules: seq<Entitlement>, group: string)
    ensures LastRule(rules, group).Some? ==>
              LastRule(rules, group).value in rules && LastRule(rules, group).value.group == group
    ensures LastRule(rules, group).None? ==> forall r | r in rules :: r.group != group
  {
    if rules != [] {
      LastRuleFacts(rules[..|rules| - 1], group);
      assert rules == rules[..|rules| - 1] + [rules[|rules| - 1]];
    }
  }

  function Tiers(r: Entitlement): set<string> { set t | t in r.allow }

  /** Rules for the same group say the same. */
  ghost predicate Agreeing(rules: seq<Entitlement>) {
    forall r, r' | r in rules && r' in rules && r.group == r'.group :: Tiers(r) == Tiers(r')
  }

  predicate TableAllows(table: map<string, set<string>>, group: string, tier: string) {
    group in table && tier in table[group]
  }

  predicate PolicyAllows(rules: seq<Entitlement>, group: string, tier: string) {
    FirstRule(rules, group).Some? && tier in FirstRule(rules, group).value.allow
  }

  lemma TableAgrees(rules: seq<Entitlement>, order: seq<Entitlement>, group: string, tier: string)
    requires multiset(order) == multiset(rules) && Agreeing(rules)
    ensures TableAllows(EntitleTable(order), group, tier) <==> PolicyAllows(rules, group, tier)
  {
    TableHoldsLast(order, group);
    LastRuleFacts(order, group);
    FirstRuleFacts(rules, group);
    SameMembers(rules, order);
    if LastRule(order, group).Some? && FirstRule(rules, group).Some? {
      var r, r' := LastRule(order, group).value, FirstRule(rules, group).value;
      assert Tiers(r) == Tiers(r');
      assert tier in Tiers(r) <==> tier in r.allow;
      assert tier in Tiers(r') <==> tier in r'.allow;
    }
  }

  lemma SameMembers<T>(a: seq<T>, b: seq<T>)
    requires multiset(a) == multiset(b)
    ensures forall r :: r in a <==> r in b
  {
    assert forall r :: r in a <==> r in multiset(a);
    assert forall r :: r in b <==> r in multiset(b);
  }

  /** An order the generator may emit: the rules sorted by group, ties anyhow. */
  ghost predicate MayEmit(rules: seq<Entitlement>, order: seq<Entitlement>) {
    && multiset(order) == multiset(rules)
    && forall i, j | 0 <= i < j < |order| :: LexLe(order[i].group, order[j].group)
  }

  function InsertRule(sorted: seq<Entitlement>, r: Entitlement): seq<Entitlement> {
    if sorted == [] then [r]
    else if LexLe(sorted[|sorted| - 1].group, r.group) then sorted + [r]
    else InsertRule(sorted[..|sorted| - 1], r) + [sorted[|sorted| - 1]]
  }

  function SortRules(rules: seq<Entitlement>): seq<Entitlement> {
    if rules == [] then [] else InsertRule(SortRules(rules[..|rules| - 1]), rules[|rules| - 1])
  }

  lemma {:induction false} InsertRuleFacts(sorted: seq<Entitlement>, r: Entitlement, group: string)
    requires MayEmit(sorted, sorted)
    ensures
      var s := InsertRule(sorted, r);
      && multiset(s) == multiset(sorted) + multiset{r}
      && MayEmit(s, s)
      && LastRule(s, group) == if r.group == group then Some(r) else LastRule(sorted, group)
  {
    if sorted != [] {
      var init, last := sorted[..|sorted| - 1], sorted[|sorted| - 1];
      assert sorted == init + [last];
      var s := InsertRule(sorted, r);
      if LexLe(last.group, r.group) {
        assert s[..|s| - 1] == sorted;
        SortedSnoc(sorted, r);
      } else {
        assert MayEmit(init, init) by { SortedInit(sorted); }
        InsertRuleFacts(init, r, group);
        var s' := InsertRule(init, r);
        assert s == s' + [last] && s[..|s| - 1] == s';
        LexTotal(last.group, r.group);
        BelowLast(sorted, s', r);
        SortedSnoc(s', last);
      }
    }
  }

  lemma SortedInit(sorted: seq<Entitlement>)
    requires MayEmit(sorted, sorted) && sorted != []
    ensures MayEmit(sorted[..|sorted| - 1], sorted[..|sorted| - 1])
  {
  }

  lemma SortedSnoc(sorted: seq<Entitlement>, r: Entitlement)
    requires MayEmit(sorted, sorted)
    requires sorted != [] ==> LexLe(sorted[|sorted| - 1].group, r.group)
    ensures MayEmit(sorted + [r], sorted + [r])
  {
    forall i | 0 <= i < |sorted| ensures LexLe(sorted[i].group, r.group) {
      if i < |sorted| - 1 {
        LexTransitive(sorted[i].group, sorted[|sorted| - 1].group, r.group);
      }
    }
  }

  lemma BelowLast(sorted: seq<Entitlement>, s: seq<Entitlement>, r: Entitlement)
    requires MayEmit(sorted, sorted) && sorted != [] && LexLe(r.group, sorted[|sorted| - 1].group)
    requires multiset(s) == multiset(sorted[..|sorted| - 1]) + multiset{r}
    ensures forall i | 0 <= i < |s| :: LexLe(s[i].group, sorted[|sorted| - 1].group)
  {
    var init := sorted[..|sorted| - 1];
    forall i | 0 <= i < |s| ensures LexLe(s[i].group, sorted[|sorted| - 1].group) {
      assert s[i] in multiset(s);
      if s[i] in init {
        var j :| 0 <= j < |init| && init[j] == s[i];
        assert sorted[j] == init[j];
      }
    }
  }

  lemma {:induction false} SortRulesFacts(rules: seq<Entitlement>, group: string)
    ensures MayEmit(rules, SortRules(rules))
    ensures LastRule(SortRules(rules), group) == LastRule(rules, group)
  {
    if rules != [] {
      var init := rules[..|rules| - 1];
      assert rules == init + [rules[|rules| - 1]];
      SortRulesFacts(init, group);
      InsertRuleFacts(SortRules(init), rules[|rules| - 1], group);
    }
  }

  /** The baked table says what the policy says, in every order the generator may
      choose, exactly when rules for the same group agree with each other. */
  lemma TableExact(rules: seq<Entitlement>)
    ensures (forall order, group, tier | MayEmit(rules, order) ::
               TableAllows(EntitleTable(order), group, tier) <==> PolicyAllows(rules, group, tier))
            <==> Agreeing(rules)
  {
    if Agreeing(rules) {
      forall order, group, tier | MayEmit(rules, order)
        ensures TableAllows(EntitleTable(order), group, tier) <==> PolicyAllows(rules, group, tier)
      {
        TableAgrees(rules, order, group, tier);
      }
    } else {
      var r, r' :| r in rules && r' in rules && r.group == r'.group && Tiers(r) != Tiers(r');
      FirstRuleFacts(rules, r.group);
      var first := FirstRule(rules, r.group).value;
      if Tiers(first) != Tiers(r) {
        Disagreement(rules, r);
      } else {
        Disagreement(rules, r');
      }
    }
  }

  lemma Disagreement(rules: seq<Entitlement>, r: Entitlement)
    requires r in rules && FirstRule(rules, r.group).Some?
    requires Tiers(FirstRule(rules, r.group).value) != Tiers(r)
    ensures exists order, group, tier :: MayEmit(rules, order)
              && TableAllows(EntitleTable(order), group, tier) != PolicyAllows(rules, group, tier)
  {
    var first := FirstRule(rules, r.group).value;
    var i :| 0 <= i < |rules| && rules[i] == r;
    var moved := rules[..i] + rules[i + 1..] + [r];
    assert rules == rules[..i] + [r] + rules[i + 1..];
    assert multiset(moved) == multiset(rules);
    var order := SortRules(moved);
    SortRulesFacts(moved, r.group);
    TableHoldsLast(order, r.group);
    assert EntitleTable(order)[r.group] == Tiers(r);
    var tier :| tier in Tiers(first) + Tiers(r) && (tier in Tiers(first)) != (tier in Tiers(r));
    assert TableAllows(EntitleTable(order), r.group, tier) != PolicyAllows(rules, r.group, tier);
  }

  // ---------- Compilation preserves meaning ----------

  lemma ResolveIsIndependent(spec: Spec, es: seq<Prefix>, es': seq<Prefix>, model: string)
    requires LongestFirst(es) && ListsGlobs(es, spec.modelTiers)
    requires LongestFirst(es') && ListsGlobs(es', spec.modelTiers)
    ensures FirstMatch(es, model) == FirstMatch(es', model)
  {
    FirstMatchIsLongest(es, spec.modelTiers, model);
    FirstMatchIsLongest(es', spec.modelTiers, model);
    if FirstMatch(es, model).Some? {
      var k :| IsLongestGlob(spec.modelTiers, model, k) && FirstMatch(es, model) == Some(spec.modelTiers[k]);
      var k' :| IsLongestGlob(spec.modelTiers, model, k') && FirstMatch(es', model) == Some(spec.modelTiers[k']);
      LongestGlobUnique(spec.modelTiers, model, k, k');
    }
  }

  lemma ResolvedIsDeclared(spec: Spec, es: seq<Prefix>, model: string)
    requires Valid(spec) && LongestFirst(es) && ListsGlobs(es, spec.modelTiers)
    ensures ResolveTier(spec, es, model) in spec.tiers
  {
    FirstMatchIsLongest(es, spec.modelTiers, model);
  }

  lemma {:induction false} BestMatches(spec: Spec, tiers: seq<string>, group: string, allowed: set<string>)
    requires "" !in tiers
    requires forall t | t in tiers :: IsAllowed(spec, group, t) <==> t in allowed
    ensures FirstIn(tiers, allowed)
              == if BestAllowed(spec, tiers, group) == "" then None else Some(BestAllowed(spec, tiers, group))
  {
    if tiers != [] {
      assert tiers == [tiers[0]] + tiers[1..];
      BestMatches(spec, tiers[1..], group, allowed);
    }
  }

  /** For every validated policy whose rules for a group agree, every model and
      every group, the script routes or refuses as the policy does, whatever order
      the maps were walked in and the rules were emitted in. */
  lemma CompilationPreserves(
    spec: Spec, es: seq<Prefix>, es': seq<Prefix>, order: seq<Entitlement>, model: string, group: string)
    requires Valid(spec) && Agreeing(spec.entitlements) && MayEmit(spec.entitlements, order)
    requires LongestFirst(es) && ListsGlobs(es, spec.modelTiers)
    requires LongestFirst(es') && ListsGlobs(es', spec.modelTiers)
    ensures ScriptDecision(Compile(spec, es', order), model, group) == Decide(spec, es, model, group)
  {
    var sc := Compile(spec, es', order);
    ResolveIsIndependent(spec, es, es', model);
    ResolvedIsDeclared(spec, es, model);
    assert ScriptTier(sc, model) == ResolveTier(spec, es, model);
    if spec.entitlements != [] {
      var a := if group in sc.entitle then sc.entitle[group] else {};
      forall t ensures IsAllowed(spec, group, t) <==> t in a {
        TableAgrees(spec.entitlements, order, group, t);
      }
      BestMatches(spec, spec.tiers, group, a);
    }
  }

  // ---------- Pool groups ----------

  /** One tier's pool group, None when the tier was skipped while building. */
  datatype Tier = Tier(name: string, poolGroup: Option<string>)

  /** What the tier loop leaves: the tiers that were built, each with its own pool
      group, and every one of those declared. */
  ghost predicate TierPools(tiers: seq<Tier>, tierPG: map<string, string>, refs: seq<string>) {
    && (forall t | t in tierPG :: tierPG[t] in refs)
    && (forall i | 0 <= i < |tiers| && tiers[i].poolGroup.Some? :: tiers[i].name in tierPG)
    && (forall t | t in tierPG :: Tier(t, Some(tierPG[t])) in tiers)
  }

  lemma {:induction false} FirstInMember(tiers: seq<string>, allowed: set<string>)
    ensures FirstIn(tiers, allowed).Some? ==> FirstIn(tiers, allowed).value in tiers
  {
    if tiers != [] {
      FirstInMember(tiers[1..], allowed);
    }
  }

  /** Whatever tier the script routes to is declared by the policy; it selects a pool
      group exactly when that tier was built, then that tier's own, and the script
      set declares it. */
  lemma SelectedPoolIsDeclared(
    spec: Spec, es: seq<Prefix>, order: seq<Entitlement>, tiers: seq<Tier>,
    tierPG: map<string, string>, refs: seq<string>, model: string, group: string)
    requires Valid(spec) && LongestFirst(es) && ListsGlobs(es, spec.modelTiers)
    requires |tiers| == |spec.tiers| && forall i | 0 <= i < |tiers| :: tiers[i].name == spec.tiers[i]
    requires TierPools(tiers, tierPG, refs)
    ensures
      match ScriptDecision(Compile(spec, es, order), model, group)
      case Refuse => true
      case Route(t) =>
        exists i :: 0 <= i < |tiers| && tiers[i].name == t
          && (t in tierPG <==> tiers[i].poolGroup.Some?)
          && (t in tierPG ==> tiers[i].poolGroup == Some(tierPG[t]) && tierPG[t] in refs)
  {
    var sc := Compile(spec, es, order);
    ResolvedIsDeclared(spec, es, model);
    FirstInMember(sc.pref, if group in sc.entitle then sc.entitle[group] else {});
    match ScriptDecision(sc, model, group)
    case Refuse =>
    case Route(t) =>
      assert ScriptTier(sc, model) == ResolveTier(spec, es, model);
      var i :| 0 <= i < |spec.tiers| && spec.tiers[i] == t;
      PoolOfTier(spec, tiers, tierPG, refs, i);
  }

  lemma PoolOfTier(spec: Spec, tiers: seq<Tier>, tierPG: map<string, string>, refs: seq<string>, i: nat)
    requires Valid(spec) && i < |tiers| == |spec.tiers| && forall j | 0 <= j < |tiers| :: tiers[j].name == spec.tiers[j]
    requires TierPools(tiers, tierPG, refs)
    ensures tiers[i].name in tierPG <==> tiers[i].poolGroup.Some?
    ensures tiers[i].name in tierPG ==> tiers[i].poolGroup == Some(tierPG[tiers[i].name])
  {
    var t := tiers[i].name;
    if t in tierPG {
      var j :| 0 <= j < |tiers| && tiers[j] == Tier(t, Some(tierPG[t]));
      assert spec.tiers[i] == spec.tiers[j];
    }
  }

  /** The tier loop: which tier selects which pool group, and the pool groups the
      script set declares. */
  method BuildTierPools(tiers: seq<Tier>) returns (tierPG: map<string, string>, refs: seq<string>)
    ensures TierPools(tiers, tierPG, refs)
  {
    tierPG, refs := map[], [];
    for i := 0 to |tiers|
      invariant forall t | t in tierPG :: tierPG[t] in refs
      invariant forall j | 0 <= j < i && tiers[j].poolGroup.Some? :: tiers[j].name in tierPG
      invariant forall t | t in tierPG :: Tier(t, Some(tierPG[t])) in tiers
    {
      if tiers[i].poolGroup.Some? {
        tierPG := tierPG[tiers[i].name := tiers[i].poolGroup.value];
        refs := refs + [tiers[i].poolGroup.value];
        assert tiers[i] in tiers;
      }
    }
  }
}
