/** Model aliases published by pods: the oldest eligible claimant of an alias wins,
    and what is discovered never displaces what the policy states. */
module ModelDiscovery {
  import opened Text
  import opened ModelRoute

  /** A pod as discovery reads it; alias and tier are "" when absent, `key` is
      namespace/name. */
  datatype Pod = Pod(created: int, key: string, alias: string, tier: string, terminating: bool)

  predicate Older(p: Pod, q: Pod) {
    p.created < q.created || (p.created == q.created && LexLe(p.key, q.key))
  }

  ghost predicate DistinctPods(pods: seq<Pod>) {
    forall i, j | 0 <= i < j < |pods| :: pods[i].key != pods[j].key
  }

  predicate Eligible(p: Pod, known: set<string>, fixed: map<string, string>) {
    p.alias != "" && !p.terminating && '*' !in p.alias && p.tier != "" && p.tier in known && p.alias !in fixed
  }

  ghost predicate IsOldest(pods: seq<Pod>, known: set<string>, fixed: map<string, string>, alias: string, p: Pod) {
    && p in pods && Eligible(p, known, fixed) && p.alias == alias
    && forall q | q in pods && Eligible(q, known, fixed) && q.alias == alias :: Older(p, q)
  }

  /** What a merge has to be, said without an order of the pods. */
  ghost predicate IsMerge(out: map<string, string>, pods: seq<Pod>, known: set<string>, fixed: map<string, string>) {
    && (forall a | a in out :: exists p :: IsOldest(pods, known, fixed, a, p) && out[a] == p.tier)
    && (forall p | p in pods && Eligible(p, known, fixed) :: p.alias in out)
  }

  ghost predicate OldestFirst(pods: seq<Pod>) {
    forall i, j | 0 <= i < j < |pods| :: Older(pods[i], pods[j])
  }

  lemma OlderTransitive(p: Pod, q: Pod, r: Pod)
    requires Older(p, q) && Older(q, r)
    ensures Older(p, r)
  {
    if p.created == q.created == r.created {
      LexTransitive(p.key, q.key, r.key);
    }
  }

  lemma OlderTotal(p: Pod, q: Pod)
    ensures Older(p, q) || Older(q, p)
  {
    LexTotal(p.key, q.key);
  }

  method SortPods(pods: seq<Pod>) returns (sorted: seq<Pod>)
    ensures OldestFirst(sorted) && multiset(sorted) == multiset(pods)
  {
    sorted := [];
    for i := 0 to |pods|
      invariant OldestFirst(sorted)
      invariant multiset(sorted) == multiset(pods[..i])
    {
      assert pods[..i + 1] == pods[..i] + [pods[i]];
      sorted := InsertPod(sorted, pods[i]);
    }
    assert pods[..|pods|] == pods;
  }

  method InsertPod(sorted: seq<Pod>, p: Pod) returns (r: seq<Pod>)
    requires OldestFirst(sorted)
    ensures OldestFirst(r) && multiset(r) == multiset(sorted) + multiset{p}
  {
    var i := |sorted|;
    while i > 0 && !Older(sorted[i - 1], p)
      invariant 0 <= i <= |sorted|
      invariant forall j | i <= j < |sorted| :: Older(p, sorted[j])
    {
      OlderTotal(p, sorted[i - 1]);
      i := i - 1;
    }
    forall j | 0 <= j < i ensures Older(sorted[j], p) {
      if j < i - 1 {
        OlderTransitive(sorted[j], sorted[i - 1], p);
      }
    }
    r := InsertAt(sorted, i, p);
    InsertCounts(sorted, i, p);
  }

  method MergeDiscovered(known: set<string>, fixed: map<string, string>, pods: seq<Pod>)
    returns (out: map<string, string>)
    ensures IsMerge(out, pods, known, fixed)
  {
    var sorted := SortPods(pods);
    SameMembers(sorted, pods);
    out := map[];
    for i := 0 to |sorted|
      invariant forall a | a in out :: exists p :: IsOldest(pods, known, fixed, a, p) && out[a] == p.tier
      invariant forall j | 0 <= j < i && Eligible(sorted[j], known, fixed) :: sorted[j].alias in out
    {
      var p := sorted[i];
      assert p in sorted;
      if Eligible(p, known, fixed) && p.alias !in out {
        FirstClaimIsOldest(pods, sorted, known, fixed, i);
        out := out[p.alias := p.tier];
      }
    }
    forall p | p in pods && Eligible(p, known, fixed) ensures p.alias in out {
      assert p in sorted;
    }
  }

  lemma FirstClaimIsOldest(pods: seq<Pod>, sorted: seq<Pod>, known: set<string>, fixed: map<string, string>, i: nat)
    requires OldestFirst(sorted) && (forall p :: p in sorted <==> p in pods)
    requires i < |sorted| && Eligible(sorted[i], known, fixed)
    requires forall j | 0 <= j < i && Eligible(sorted[j], known, fixed) :: sorted[j].alias != sorted[i].alias
    ensures IsOldest(pods, known, fixed, sorted[i].alias, sorted[i])
  {
    var p := sorted[i];
    assert p in sorted;
    forall q | q in pods && Eligible(q, known, fixed) && q.alias == p.alias ensures Older(p, q) {
      var j :| 0 <= j < |sorted| && sorted[j] == q;
      if j == i {
        LexTotal(p.key, p.key);
      }
    }
  }

  lemma OldestUnique(
    pods: seq<Pod>, pods': seq<Pod>, known: set<string>, fixed: map<string, string>, a: string, p: Pod, q: Pod)
    requires DistinctPods(pods) && forall x :: x in pods <==> x in pods'
    requires IsOldest(pods, known, fixed, a, p) && IsOldest(pods', known, fixed, a, q)
    ensures p == q
  {
    assert Older(p, q) && Older(q, p);
    LexAntisymmetric(p.key, q.key);
    var i :| 0 <= i < |pods| && pods[i] == p;
    var j :| 0 <= j < |pods| && pods[j] == q;
  }

  /** The order in which the informer lists the pods makes no difference. */
  lemma MergeOrderIndependent(
    pods: seq<Pod>, pods': seq<Pod>, known: set<string>, fixed: map<string, string>,
    out: map<string, string>, out': map<string, string>)
    requires DistinctPods(pods) && multiset(pods) == multiset(pods')
    requires IsMerge(out, pods, known, fixed) && IsMerge(out', pods', known, fixed)
    ensures out == out'
  {
    SameMembers(pods, pods');
    assert forall a :: (a in out <==> a in out') && (a in out && a in out' ==> out[a] == out'[a]) by {
      forall a ensures (a in out <==> a in out') && (a in out && a in out' ==> out[a] == out'[a]) {
        SameClaim(pods, pods', known, fixed, out, out', a);
      }
    }
    SameMaps(out, out');
  }

  lemma SameMaps(m: map<string, string>, m': map<string, string>)
    requires forall a :: (a in m <==> a in m') && (a in m && a in m' ==> m[a] == m'[a])
    ensures m == m'
  {
  }

  lemma SameClaim(
    pods: seq<Pod>, pods': seq<Pod>, known: set<string>, fixed: map<string, string>,
    out: map<string, string>, out': map<string, string>, a: string)
    requires DistinctPods(pods) && forall p :: p in pods <==> p in pods'
    requires IsMerge(out, pods, known, fixed) && IsMerge(out', pods', known, fixed)
    ensures (a in out <==> a in out') && (a in out && a in out' ==> out[a] == out'[a])
  {
    if a in out {
      var p :| IsOldest(pods, known, fixed, a, p) && out[a] == p.tier;
      assert p in pods';
    }
    if a in out' {
      var q :| IsOldest(pods', known, fixed, a, q) && out'[a] == q.tier;
      assert q in pods;
      var p :| IsOldest(pods, known, fixed, a, p) && out[a] == p.tier;
      OldestUnique(pods, pods', known, fixed, a, p, q);
    }
  }

  /** The pod puts forward its alias for the tier: it is not going away, and names a
      tier the policy declares. */
  predicate Claims(p: Pod, alias: string, known: set<string>) {
    p.alias == alias && !p.terminating && p.tier != "" && p.tier in known
  }

  /** What discovery finds, in the pods' own terms: for an alias that is not empty, not a
      glob and not stated by the policy, the tier of the claimant created first, among
      several the one whose key comes first in dictionary order, and nothing when
      there is no claimant; for any other alias nothing. */
  lemma DiscoveryExactly(
    out: map<string, string>, pods: seq<Pod>, known: set<string>, fixed: map<string, string>, alias: string)
    requires IsMerge(out, pods, known, fixed)
    ensures alias in out <==>
              alias != "" && '*' !in alias && alias !in fixed && exists p :: p in pods && Claims(p, alias, known)
    ensures alias in out ==>
              exists p | p in pods && Claims(p, alias, known) && out[alias] == p.tier ::
                forall q | q in pods && Claims(q, alias, known) ::
                  p.created < q.created || (p.created == q.created && exists k: nat :: Parts(p.key, q.key, k))
  {
    forall p | p in pods && Claims(p, alias, known) && alias != "" && '*' !in alias && alias !in fixed
      ensures alias in out
    {
      assert Eligible(p, known, fixed);
    }
    if alias in out {
      var p :| IsOldest(pods, known, fixed, alias, p) && out[alias] == p.tier;
      forall q | q in pods && Claims(q, alias, known)
        ensures p.created < q.created || (p.created == q.created && exists k: nat :: Parts(p.key, q.key, k))
      {
        assert Eligible(q, known, fixed) && Older(p, q);
        LexMeans(p.key, q.key);
      }
      assert Claims(p, alias, known);
    }
  }

  // ---------- The effective policy ----------

  function KnownTiers(spec: Spec): set<string> { set t | t in spec.tiers }

  function Effective(spec: Spec, found: map<string, string>): Spec {
    spec.(modelTiers := spec.modelTiers + found)
  }

  lemma GlobHasStar(key: string)
    ensures IsGlob(key) ==> '*' in key
  {
    if IsGlob(key) {
      assert key[|key| - 1..][0] == '*';
    }
  }

  lemma MergeFacts(spec: Spec, pods: seq<Pod>, found: map<string, string>)
    requires IsMerge(found, pods, KnownTiers(spec), spec.modelTiers)
    ensures forall a | a in found :: !IsGlob(a) && a !in spec.modelTiers && found[a] in spec.tiers
  {
    forall a | a in found ensures !IsGlob(a) && a !in spec.modelTiers && found[a] in spec.tiers {
      var p :| IsOldest(pods, KnownTiers(spec), spec.modelTiers, a, p) && found[a] == p.tier;
      GlobHasStar(a);
    }
  }

  /** Discovery leaves a valid policy valid. */
  lemma EffectiveStaysValid(spec: Spec, pods: seq<Pod>, found: map<string, string>)
    requires Valid(spec) && IsMerge(found, pods, KnownTiers(spec), spec.modelTiers)
    ensures Valid(Effective(spec, found))
  {
    MergeFacts(spec, pods, found);
  }

  /** A discovered alias resolves to the tier of its oldest eligible claimant; every
      other model, in particular every name the policy states, resolves as before. */
  lemma EffectiveResolves(
    spec: Spec, pods: seq<Pod>, found: map<string, string>, es: seq<Prefix>, es': seq<Prefix>, model: string)
    requires IsMerge(found, pods, KnownTiers(spec), spec.modelTiers)
    requires LongestFirst(es) && ListsGlobs(es, spec.modelTiers)
    requires LongestFirst(es') && ListsGlobs(es', Effective(spec, found).modelTiers)
    ensures model in found ==> ResolveTier(Effective(spec, found), es', model) == found[model]
    ensures model !in found ==>
              ResolveTier(Effective(spec, found), es', model) == ResolveTier(spec, es, model)
    ensures model in spec.modelTiers ==> model !in found
  {
    MergeFacts(spec, pods, found);
    if model !in found {
      SameGlobs(spec, found, es');
      ResolveIsIndependent(spec, es, es', model);
    }
  }

  lemma SameGlobs(spec: Spec, found: map<string, string>, es: seq<Prefix>)
    requires forall a | a in found :: !IsGlob(a)
    requires ListsGlobs(es, Effective(spec, found).modelTiers)
    ensures ListsGlobs(es, spec.modelTiers)
  {
    forall e | e in es
      ensures e.prefix + "*" in spec.modelTiers && spec.modelTiers[e.prefix + "*"] == e.tier
    {
      assert IsGlob(e.prefix + "*");
    }
  }
}
