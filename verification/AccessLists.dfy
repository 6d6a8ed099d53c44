/** Allow-lists per caller, as the MCP and A2A policies state them and as their
    scripts decide them over three baked tables. */
module AccessLists {
  import opened Text

  /** What one caller (a role, or a calling agent) may invoke: names, trailing-"*"
      prefixes, or "*" for everything. */
  datatype Rule = Rule(caller: string, allow: seq<string>)

  /** Validation leaves callers non-empty and unique. */
  predicate Valid(rules: seq<Rule>) {
    && (forall i | 0 <= i < |rules| :: rules[i].caller != "" && rules[i].allow != [])
    && (forall i, j | 0 <= i < j < |rules| :: rules[i].caller != rules[j].caller)
  }

  // ---------- The policies' own reading ----------

  function RuleFor(rules: seq<Rule>, caller: string): Option<Rule> {
    if rules == [] then None
    else if rules[0].caller == caller then Some(rules[0])
    else RuleFor(rules[1..], caller)
  }

  predicate Matches(entry: string, name: string) {
    name != "" && if IsGlob(entry) then TrimLast(entry) <= name else entry == name
  }

  predicate ToolMatches(entry: string, tool: string) {
    entry == "*" || if IsGlob(entry) then TrimLast(entry) <= tool else entry == tool
  }

  /** MCP: may the role call the tool. */
  predicate IsToolAllowed(rules: seq<Rule>, role: string, tool: string) {
    if rules == [] then true
    else if tool == "" then false
    else
      match RuleFor(rules, role)
      case None => false
      case Some(r) => exists i :: 0 <= i < |r.allow| && ToolMatches(r.allow[i], tool)
  }

  /** A2A: may the agent invoke the method while presenting the skill. */
  predicate IsCallAllowed(rules: seq<Rule>, agent: string, name: string, skill: string) {
    if rules == [] then true
    else if name == "" then false
    else
      match RuleFor(rules, agent)
      case None => false
      case Some(r) =>
        exists i :: 0 <= i < |r.allow|
          && (r.allow[i] == "*" || Matches(r.allow[i], name) || Matches(r.allow[i], skill))
  }

  // ---------- The reading, said of the entries ----------

  /** The entry is everything, or the name itself, or a star behind a beginning of it. */
  ghost predicate Covers(entry: string, name: string) {
    || entry == "*" || entry == name
    || exists k: nat | k <= |name| :: entry == name[..k] + "*"
  }

  lemma MatchCovers(entry: string, name: string)
    ensures ToolMatches(entry, name) <==> Covers(entry, name)
    ensures name != "" ==> (entry == "*" || Matches(entry, name) <==> Covers(entry, name))
    ensures name == "" ==> !Matches(entry, name)
  {
    if IsGlob(entry) {
      assert entry == TrimLast(entry) + "*";
      if TrimLast(entry) <= name {
        assert entry == name[..|TrimLast(entry)|] + "*";
      }
      if k: nat :| k <= |name| && entry == name[..k] + "*" {
        StarShape(name[..k]);
      }
    } else {
      forall k: nat | k <= |name| ensures entry != name[..k] + "*" {
        StarShape(name[..k]);
      }
    }
  }

  lemma {:induction false} RuleForAt(rules: seq<Rule>, caller: string) returns (i: nat)
    ensures i <= |rules| && forall j | 0 <= j < i :: rules[j].caller != caller
    ensures RuleFor(rules, caller) == if i < |rules| then Some(rules[i]) else None
    ensures i < |rules| ==> rules[i].caller == caller
  {
    if rules == [] || rules[0].caller == caller {
      i := 0;
    } else {
      i := RuleForAt(rules[1..], caller);
      assert forall j | 0 < j < |rules| :: rules[j] == rules[1..][j - 1];
      i := i + 1;
    }
  }

  /** A role may call a tool exactly when there are no rules, or the tool is named and
      an entry listed for the role covers it. */
  lemma ToolAllowedIff(rules: seq<Rule>, role: string, tool: string)
    requires Valid(rules)
    ensures IsToolAllowed(rules, role, tool) <==>
              rules == [] || (tool != "" && exists e :: Listed(rules, role, e) && Covers(e, tool))
  {
    var i := RuleForAt(rules, role);
    forall e ensures ToolMatches(e, tool) <==> Covers(e, tool) {
      MatchCovers(e, tool);
    }
    forall e | Listed(rules, role, e) ensures i < |rules| && e in rules[i].allow {
      var k :| 0 <= k < |rules| && rules[k].caller == role && e in rules[k].allow;
      assert k == i;
    }
    if i < |rules| {
      forall e | e in rules[i].allow ensures Listed(rules, role, e) {
      }
    }
  }

  ghost predicate CoversCall(entry: string, name: string, skill: string) {
    Covers(entry, name) || (skill != "" && Covers(entry, skill))
  }

  /** An agent may invoke a method presenting a skill exactly when there are no rules,
      or the method is named and an entry listed for the agent covers the method or a
      skill that is presented. */
  lemma CallAllowedIff(rules: seq<Rule>, agent: string, name: string, skill: string)
    requires Valid(rules)
    ensures IsCallAllowed(rules, agent, name, skill) <==>
              rules == [] || (name != "" && exists e | Listed(rules, agent, e) :: CoversCall(e, name, skill))
  {
    var i := RuleForAt(rules, agent);
    forall e | name != ""
      ensures (e == "*" || Matches(e, name) || Matches(e, skill)) <==> CoversCall(e, name, skill)
    {
      MatchCovers(e, name);
      MatchCovers(e, skill);
    }
    forall e | Listed(rules, agent, e) ensures i < |rules| && e in rules[i].allow {
      var k :| 0 <= k < |rules| && rules[k].caller == agent && e in rules[k].allow;
      assert k == i;
    }
    if i < |rules| {
      forall e | e in rules[i].allow ensures Listed(rules, agent, e) {
      }
      var allow := rules[i].allow;
      assert (exists e :: e in allow && CoversCall(e, name, skill)) <==>
             exists j :: 0 <= j < |allow| && CoversCall(allow[j], name, skill);
    }
  }

  // ---------- The baked tables ----------

  datatype Tables = Tables(star: set<string>, exact: map<string, set<string>>, prefix: map<string, seq<string>>)

  /** An entry of one caller's list. */
  ghost predicate Listed(rules: seq<Rule>, caller: string, entry: string) {
    exists i :: 0 <= i < |rules| && rules[i].caller == caller && entry in rules[i].allow
  }

  predicate ExactHas(t: Tables, caller: string, name: string) { caller in t.exact && name in t.exact[caller] }

  predicate PrefixHas(t: Tables, caller: string, p: string) { caller in t.prefix && p in t.prefix[caller] }

  /** Every entry sits in exactly the table its shape calls for, and nothing else
      does. */
  ghost predicate Classified(rules: seq<Rule>, t: Tables) {
    && (forall c :: c in t.star <==> Listed(rules, c, "*"))
    && (forall c, n :: ExactHas(t, c, n) <==> Listed(rules, c, n) && !IsGlob(n))
    && (forall c, p :: PrefixHas(t, c, p) <==> p != "" && Listed(rules, c, p + "*"))
  }

  function AddEntry(t: Tables, caller: string, entry: string): Tables {
    if entry == "*" then t.(star := t.star + {caller})
    else if IsGlob(entry) then
      t.(prefix := t.prefix[caller := (if caller in t.prefix then t.prefix[caller] else []) + [TrimLast(entry)]])
    else t.(exact := t.exact[caller := (if caller in t.exact then t.exact[caller] else {}) + {entry}])
  }

  ghost predicate Gains(t: Tables, t': Tables, caller: string, entry: string) {
    && (forall c :: c in t'.star <==> c in t.star || (c == caller && entry == "*"))
    && (forall c, n :: ExactHas(t', c, n) <==> ExactHas(t, c, n) || (c == caller && n == entry && !IsGlob(n)))
    && (forall c, p :: PrefixHas(t', c, p) <==> PrefixHas(t, c, p) || (c == caller && p != "" && p + "*" == entry))
  }

  lemma StarShape(p: string)
    ensures IsGlob(p + "*") && TrimLast(p + "*") == p && (p != "" <==> p + "*" != "*")
  {
    assert p + "*" == "*" ==> p == (p + "*")[..|p + "*"| - 1] == "";
  }

  lemma AddEntryGains(t: Tables, caller: string, entry: string)
    ensures Gains(t, AddEntry(t, caller, entry), caller, entry)
  {
    if entry == "*" {
      AddStarGains(t, caller);
    } else if IsGlob(entry) {
      AddPrefixGains(t, caller, TrimLast(entry));
      assert entry == TrimLast(entry) + "*";
    } else {
      AddNameGains(t, caller, entry);
    }
  }

  lemma AddStarGains(t: Tables, caller: string)
    ensures Gains(t, AddEntry(t, caller, "*"), caller, "*")
  {
    StarShape("");
    forall p ensures !(p != "" && p + "*" == "*") {
      StarShape(p);
    }
  }

  lemma AddNameGains(t: Tables, caller: string, name: string)
    requires !IsGlob(name)
    ensures Gains(t, AddEntry(t, caller, name), caller, name)
  {
    StarShape("");
    forall p ensures p + "*" != name {
      StarShape(p);
    }
  }

  lemma AddPrefixGains(t: Tables, caller: string, q: string)
    requires q != ""
    ensures Gains(t, AddEntry(t, caller, q + "*"), caller, q + "*")
  {
    StarShape(q);
    forall p ensures p + "*" == q + "*" <==> p == q {
      StarShape(p);
    }
    var t' := AddEntry(t, caller, q + "*");
    forall c, p ensures PrefixHas(t', c, p) <==> PrefixHas(t, c, p) || (c == caller && p == q) {
    }
  }

  /** The entries seen so far: whole rules before i, and the first j entries of i. */
  ghost predicate ListedUpTo(rules: seq<Rule>, i: nat, j: nat, caller: string, entry: string) {
    || (exists k :: 0 <= k < i && k < |rules| && rules[k].caller == caller && entry in rules[k].allow)
    || (i < |rules| && j <= |rules[i].allow| && rules[i].caller == caller && entry in rules[i].allow[..j])
  }

  ghost predicate ClassifiedUpTo(rules: seq<Rule>, i: nat, j: nat, t: Tables) {
    && (forall c :: c in t.star <==> ListedUpTo(rules, i, j, c, "*"))
    && (forall c, n :: ExactHas(t, c, n) <==> ListedUpTo(rules, i, j, c, n) && !IsGlob(n))
    && (forall c, p :: PrefixHas(t, c, p) <==> p != "" && ListedUpTo(rules, i, j, c, p + "*"))
  }

  lemma NextEntry(rules: seq<Rule>, i: nat, j: nat, t: Tables, t': Tables)
    requires i < |rules| && j < |rules[i].allow| && ClassifiedUpTo(rules, i, j, t)
    requires Gains(t, t', rules[i].caller, rules[i].allow[j])
    ensures ClassifiedUpTo(rules, i, j + 1, t')
  {
    var r := rules[i];
    assert r.allow[..j + 1] == r.allow[..j] + [r.allow[j]];
    forall c, e ensures ListedUpTo(rules, i, j + 1, c, e) <==>
                          ListedUpTo(rules, i, j, c, e) || (c == r.caller && e == r.allow[j]) {
    }
  }

  lemma NextRule(rules: seq<Rule>, i: nat, t: Tables)
    requires i < |rules| && ClassifiedUpTo(rules, i, |rules[i].allow|, t)
    ensures ClassifiedUpTo(rules, i + 1, 0, t)
  {
    assert rules[i].allow[..|rules[i].allow|] == rules[i].allow;
    forall c, e ensures ListedUpTo(rules, i + 1, 0, c, e) <==> ListedUpTo(rules, i, |rules[i].allow|, c, e) {
    }
  }

  method Classify(rules: seq<Rule>) returns (t: Tables)
    ensures Classified(rules, t)
  {
    t := Tables({}, map[], map[]);
    for i := 0 to |rules|
      invariant ClassifiedUpTo(rules, i, 0, t)
    {
      for j := 0 to |rules[i].allow|
        invariant ClassifiedUpTo(rules, i, j, t)
      {
        AddEntryGains(t, rules[i].caller, rules[i].allow[j]);
        NextEntry(rules, i, j, t, AddEntry(t, rules[i].caller, rules[i].allow[j]));
        t := AddEntry(t, rules[i].caller, rules[i].allow[j]);
      }
      NextRule(rules, i, t);
    }
    forall c, e ensures ListedUpTo(rules, |rules|, 0, c, e) <==> Listed(rules, c, e) {
    }
  }

  // ---------- The emitted decisions ----------

  predicate PrefixMatch(prefixes: seq<string>, name: string) {
    exists i :: 0 <= i < |prefixes| && prefixes[i] <= name
  }

  predicate ToolDecision(t: Tables, role: string, tool: string) {
    && tool != ""
    && (|| role in t.star
        || ExactHas(t, role, tool)
        || (role in t.prefix && PrefixMatch(t.prefix[role], tool)))
  }

  /** The tools/call block as it runs. */
  method DecideTool(t: Tables, role: string, tool: string) returns (ok: bool)
    ensures ok <==> ToolDecision(t, role, tool)
  {
    ok := false;
    if role in t.star {
      ok := true;
    } else {
      if role in t.exact && tool in t.exact[role] {
        ok := true;
      }
      if !ok && role in t.prefix {
        var pf := t.prefix[role];
        for i := 0 to |pf|
          invariant !ok && forall k | 0 <= k < i :: !(pf[k] <= tool)
        {
          if |pf[i]| <= |tool| && tool[..|pf[i]|] == pf[i] {
            ok := true;
            break;
          }
        }
      }
    }
    if tool == "" {
      ok := false;
    }
  }

  predicate CallDecision(t: Tables, agent: string, name: string, skill: string) {
    || agent in t.star
    || (name != "" && ExactHas(t, agent, name))
    || (skill != "" && ExactHas(t, agent, skill))
    || (agent in t.prefix && name != "" && PrefixMatch(t.prefix[agent], name))
    || (agent in t.prefix && skill != "" && PrefixMatch(t.prefix[agent], skill))
  }

  /** The agent allow-list block as it runs, path authorization off. */
  method DecideCall(t: Tables, agent: string, name: string, skill: string) returns (ok: bool)
    ensures ok <==> CallDecision(t, agent, name, skill)
  {
    ok := false;
    if agent in t.star {
      ok := true;
    } else {
      if agent in t.exact && name != "" && name in t.exact[agent] {
        ok := true;
      }
      if !ok && skill != "" && agent in t.exact && skill in t.exact[agent] {
        ok := true;
      }
      if !ok && agent in t.prefix {
        var pf := t.prefix[agent];
        for i := 0 to |pf|
          invariant !ok
          invariant forall k | 0 <= k < i :: !(name != "" && pf[k] <= name) && !(skill != "" && pf[k] <= skill)
        {
          if name != "" && |pf[i]| <= |name| && name[..|pf[i]|] == pf[i] {
            ok := true;
            break;
          }
          if skill != "" && |pf[i]| <= |skill| && skill[..|pf[i]|] == pf[i] {
            ok := true;
            break;
          }
        }
      }
    }
  }

  // ---------- Compilation preserves meaning ----------

  lemma {:induction false} RuleForFacts(rules: seq<Rule>, caller: string)
    requires Valid(rules)
    ensures RuleFor(rules, caller).None? ==> forall e :: !Listed(rules, caller, e)
    ensures RuleFor(rules, caller).Some? ==>
              forall e :: Listed(rules, caller, e) <==> e in RuleFor(rules, caller).value.allow
  {
    if rules != [] {
      var rest := rules[1..];
      assert forall i | 0 <= i < |rest| :: rest[i] == rules[i + 1];
      RuleForFacts(rest, caller);
      forall e ensures Listed(rules, caller, e) <==>
                         (rules[0].caller == caller && e in rules[0].allow) || Listed(rest, caller, e) {
        if Listed(rest, caller, e) {
          var i :| 0 <= i < |rest| && rest[i].caller == caller && e in rest[i].allow;
          assert rules[i + 1].caller == caller;
        }
        if i :| 0 <= i < |rules| && rules[i].caller == caller && e in rules[i].allow {
          if i > 0 {
            assert rest[i - 1] == rules[i];
          }
        }
      }
      if rules[0].caller == caller {
        forall e ensures !Listed(rest, caller, e) {
        }
      }
    }
  }

  /** One table lookup stands for "some entry of the caller's list matches". */
  lemma LookupIsMatch(rules: seq<Rule>, t: Tables, caller: string, name: string)
    requires Classified(rules, t) && name != ""
    ensures (|| ExactHas(t, caller, name)
             || (caller in t.prefix && PrefixMatch(t.prefix[caller], name)))
            <==> exists e :: Listed(rules, caller, e) && e != "*" && Matches(e, name)
  {
    if ExactHas(t, caller, name) {
      assert Listed(rules, caller, name) && name != "*" by {
        assert IsGlob("*");
      }
      assert Matches(name, name);
    }
    if caller in t.prefix && PrefixMatch(t.prefix[caller], name) {
      var i :| 0 <= i < |t.prefix[caller]| && t.prefix[caller][i] <= name;
      var p := t.prefix[caller][i];
      assert PrefixHas(t, caller, p);
      assert TrimLast(p + "*") == p && IsGlob(p + "*") && p + "*" != "*";
      assert Listed(rules, caller, p + "*") && Matches(p + "*", name);
    }
    if e :| Listed(rules, caller, e) && e != "*" && Matches(e, name) {
      if IsGlob(e) {
        assert e == TrimLast(e) + "*";
        assert PrefixHas(t, caller, TrimLast(e));
      } else {
        assert ExactHas(t, caller, name);
      }
    }
  }

  /** For every validated tool policy with a rule, every role and every tool, the
      script decides as the policy does. */
  lemma ToolCompilationPreserves(rules: seq<Rule>, t: Tables, role: string, tool: string)
    requires Valid(rules) && rules != [] && Classified(rules, t)
    ensures ToolDecision(t, role, tool) <==> IsToolAllowed(rules, role, tool)
  {
    RuleForFacts(rules, role);
    if tool != "" {
      LookupIsMatch(rules, t, role, tool);
      if RuleFor(rules, role).Some? {
        var allow := RuleFor(rules, role).value.allow;
        if ToolDecision(t, role, tool) {
          if role in t.star {
            assert "*" in allow;
          } else {
            var e :| Listed(rules, role, e) && e != "*" && Matches(e, tool);
            var i :| 0 <= i < |allow| && allow[i] == e;
            assert ToolMatches(allow[i], tool);
          }
        }
        if i :| 0 <= i < |allow| && ToolMatches(allow[i], tool) {
          assert Listed(rules, role, allow[i]);
          assert allow[i] == "*" || Matches(allow[i], tool);
        }
      }
    }
  }

  /** For every validated agent policy with a rule, every agent, skill and named
      method, the script decides as the policy does. */
  lemma CallCompilationPreserves(rules: seq<Rule>, t: Tables, agent: string, name: string, skill: string)
    requires Valid(rules) && rules != [] && Classified(rules, t) && name != ""
    ensures CallDecision(t, agent, name, skill) <==> IsCallAllowed(rules, agent, name, skill)
  {
    RuleForFacts(rules, agent);
    LookupIsMatch(rules, t, agent, name);
    if skill != "" {
      LookupIsMatch(rules, t, agent, skill);
    }
    if RuleFor(rules, agent).Some? {
      var allow := RuleFor(rules, agent).value.allow;
      if CallDecision(t, agent, name, skill) {
        if agent in t.star {
          assert "*" in allow;
        } else {
          var e :| Listed(rules, agent, e) && e != "*" && (Matches(e, name) || Matches(e, skill));
          var i :| 0 <= i < |allow| && allow[i] == e;
        }
      }
    }
  }

  /** The whole agent check, guard included: a request that names no method skips
      the allow-list, and is refused only where the policy requires a method. */
  predicate CallPasses(t: Tables, agent: string, name: string, skill: string, requireMethod: bool) {
    if name == "" then !requireMethod else CallDecision(t, agent, name, skill)
  }

  method AuthorizeCall(t: Tables, agent: string, name: string, skill: string, requireMethod: bool) returns (ok: bool)
    ensures ok <==> CallPasses(t, agent, name, skill, requireMethod)
  {
    ok := true;
    if name != "" {
      ok := DecideCall(t, agent, name, skill);
    }
    if requireMethod && name == "" {
      ok := false;
    }
  }

  /** The script mirrors the policy on a call exactly when the call names a method or
      the policy requires one: a nameless call is never allowed by the policy's own
      reading, and let through by the script otherwise. */
  lemma CallMirroredExactly(
    rules: seq<Rule>, t: Tables, agent: string, name: string, skill: string, requireMethod: bool)
    requires Valid(rules) && rules != [] && Classified(rules, t)
    ensures (CallPasses(t, agent, name, skill, requireMethod) <==> IsCallAllowed(rules, agent, name, skill))
            <==> (name != "" || requireMethod)
  {
    if name != "" {
      CallCompilationPreserves(rules, t, agent, name, skill);
    }
  }
}
