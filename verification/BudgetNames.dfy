/** The rate limiters built for a native limit, and the budget that the limiter a
    request is charged to holds. The builder and the scripts name limiters apart from
    each other, one from the policy and one from the caller's claim. */
module BudgetNames {
  import opened Text
  import opened TokenCounters
  import opened CarryProtocol

  /** A limiter's name, and its burst and count. */
  datatype Limiter = Limiter(name: string, size: nat)

  const WORD := 0x1_0000_0000

  /** No limiter for a budget that is not positive; a budget is cut to 32 bits. */
  function Added(vs: string, l: Limit, group: string, budget: int): seq<Limiter> {
    if budget <= 0 then [] else [Limiter(LimiterName(vs, l.name, group), budget % WORD)]
  }

  function AddedAll(vs: string, l: Limit, groups: seq<string>): seq<Limiter>
    requires forall g | g in groups :: g in l.groupBudgets
  {
    if groups == [] then []
    else
      var init, g := groups[..|groups| - 1], groups[|groups| - 1];
      assert groups == init + [g];
      AddedAll(vs, l, init) + Added(vs, l, g, l.groupBudgets[g])
  }

  /** `groups` lists the limit's groups in the order the builder sorted them. */
  function Limiters(vs: string, l: Limit, groups: seq<string>): seq<Limiter>
    requires forall g | g in groups :: g in l.groupBudgets
  {
    if l.grouped then AddedAll(vs, l, groups) + Added(vs, l, FALLBACK_GROUP, l.budget)
    else Added(vs, l, "", l.budget)
  }

  method BuildLimiters(vs: string, l: Limit, groups: seq<string>) returns (out: seq<Limiter>)
    requires forall g | g in groups :: g in l.groupBudgets
    ensures out == Limiters(vs, l, groups)
  {
    out := [];
    if !l.grouped {
      if l.budget > 0 {
        out := [Limiter(LimiterName(vs, l.name, ""), l.budget % WORD)];
      }
      return;
    }
    for i := 0 to |groups|
      invariant out == AddedAll(vs, l, groups[..i])
    {
      assert groups[..i + 1][..i] == groups[..i];
      if l.groupBudgets[groups[i]] > 0 {
        out := out + [Limiter(LimiterName(vs, l.name, groups[i]), l.groupBudgets[groups[i]] % WORD)];
      }
    }
    assert groups[..|groups|] == groups;
    if l.budget > 0 {
      out := out + [Limiter(LimiterName(vs, l.name, FALLBACK_GROUP), l.budget % WORD)];
    }
  }

  lemma {:induction false} AddedMembers(vs: string, l: Limit, groups: seq<string>, x: Limiter)
    requires forall g | g in groups :: g in l.groupBudgets
    ensures x in AddedAll(vs, l, groups) <==>
              exists g :: g in groups && l.groupBudgets[g] > 0
                && x == Limiter(LimiterName(vs, l.name, g), l.groupBudgets[g] % WORD)
  {
    if groups != [] {
      var init, g := groups[..|groups| - 1], groups[|groups| - 1];
      assert groups == init + [g];
      AddedMembers(vs, l, init, x);
    }
  }

  /** The one limiter of that name is there and has that size. */
  ghost predicate Holds(ls: seq<Limiter>, name: string, size: nat) {
    Limiter(name, size) in ls && forall x | x in ls && x.name == name :: x.size == size
  }

  ghost predicate ListsGroups(l: Limit, groups: seq<string>) { forall g :: g in groups <==> g in l.groupBudgets }

  /** The limiter a caller's requests are charged to was built with the caller's own
      budget, cut to 32 bits: the group's for a group the limit lists, the limit's own
      otherwise; a budget that is not positive has no limiter, and a caller of an
      unlisted group is refused exactly when the limit has none of its own. */
  lemma LimiterHoldsBudget(vs: string, l: Limit, groups: seq<string>, who: Who)
    requires ListsGroups(l, groups) && (l.grouped ==> GroupsApart(vs, l))
    ensures
      var g := if l.groupHeader in who.claims then who.claims[l.groupHeader] else "";
      var listed := l.grouped && g in l.groupBudgets;
      var budget := if listed then l.groupBudgets[g] else l.budget;
      var rl := Resolve(vs, l, GroupOf(l, who));
      && (rl.None? <==> l.grouped && !listed && l.budget <= 0)
      && (rl.Some? && budget > 0 ==> Holds(Limiters(vs, l, groups), rl.value, budget % 0x1_0000_0000))
      && (rl.Some? && budget <= 0 ==> forall x | x in Limiters(vs, l, groups) :: x.name != rl.value)
  {
    var g := GroupOf(l, who);
    var rl := Resolve(vs, l, g);
    if l.grouped && rl.Some? {
      var key := if g in l.groupBudgets then g else FALLBACK_GROUP;
      forall x | x in Limiters(vs, l, groups) && x.name == rl.value
        ensures x in Added(vs, l, key, if g in l.groupBudgets then l.groupBudgets[g] else l.budget)
      {
        OnlyItsGroup(vs, l, groups, key, x);
      }
      if g in l.groupBudgets && l.groupBudgets[g] > 0 {
        AddedMembers(vs, l, groups, Limiter(rl.value, l.groupBudgets[g] % WORD));
      }
    }
  }

  lemma OnlyItsGroup(vs: string, l: Limit, groups: seq<string>, key: string, x: Limiter)
    requires ListsGroups(l, groups) && l.grouped && GroupsApart(vs, l)
    requires key in l.groupBudgets || key == FALLBACK_GROUP
    requires x in Limiters(vs, l, groups) && x.name == LimiterName(vs, l.name, key)
    ensures x in Added(vs, l, key, if key in l.groupBudgets then l.groupBudgets[key] else l.budget)
  {
    AddedMembers(vs, l, groups, x);
    if x in AddedAll(vs, l, groups) {
      var g :| g in groups && l.groupBudgets[g] > 0
        && x == Limiter(LimiterName(vs, l.name, g), l.groupBudgets[g] % WORD);
      assert g == key;
    }
  }

  /** The limiters built are the names the scripts are checked against. */
  lemma BuiltIsNames(vs: string, l: Limit, groups: seq<string>, name: string)
    requires ListsGroups(l, groups)
    ensures name in Built(vs, l) <==> exists x :: x in Limiters(vs, l, groups) && x.name == name
  {
    forall x | x in Limiters(vs, l, groups) ensures x.name in Built(vs, l) {
      AddedMembers(vs, l, groups, x);
    }
    if name in Built(vs, l) {
      if l.grouped && exists g :: g in l.groupBudgets && l.groupBudgets[g] > 0 && LimiterName(vs, l.name, g) == name {
        var g :| g in l.groupBudgets && l.groupBudgets[g] > 0 && LimiterName(vs, l.name, g) == name;
        AddedMembers(vs, l, groups, Limiter(name, l.groupBudgets[g] % WORD));
        assert Limiter(name, l.groupBudgets[g] % WORD) in Limiters(vs, l, groups);
      } else {
        assert Limiter(name, l.budget % WORD) in Limiters(vs, l, groups);
      }
    }
  }

  // ---------- Names ----------

  /** A part of a limiter's name keeps its length; a space, slash, colon, star or comma
      becomes a dash, and nothing else changes. */
  lemma SanitizeExactly(s: string)
    ensures |Sanitize(s)| == |s|
    ensures forall i | 0 <= i < |s| ::
              Sanitize(s)[i] == if s[i] in {' ', '/', ':', '*', ','} then '-' else s[i]
  {
  }
}
