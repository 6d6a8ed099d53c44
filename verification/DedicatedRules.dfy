/** Request rules of a route on a dedicated gateway: all matches of all rules in one
    list, most specific first, because the load balancer takes the first that fits. */
module DedicatedRules {
  import opened Text

  datatype PathKind = Exact | PathPrefix | RegularExpression | Unspecified

  /** A header criterion: an equal value, or one a regular expression matches. */
  datatype Header = Header(name: string, value: string, byRegex: bool)

  /** A path criterion and the headers it also asks for. */
  datatype Match = Match(kind: PathKind, path: string, headers: seq<Header>)

  /** A match with its place: which rule it came from, which match of that rule. */
  datatype Entry = Entry(pathMatch: Match, rule: nat, pos: nat)

  function Priority(k: PathKind): nat {
    match k
    case Exact => 3
    case PathPrefix => 2
    case RegularExpression => 1
    case Unspecified => 2
  }

  /** a goes before b: stronger path type, then longer path, then earlier rule, then
      earlier match. */
  predicate Before(a: Entry, b: Entry) {
    if Priority(a.pathMatch.kind) != Priority(b.pathMatch.kind) then
      Priority(a.pathMatch.kind) > Priority(b.pathMatch.kind)
    else if |a.pathMatch.path| != |b.pathMatch.path| then |a.pathMatch.path| > |b.pathMatch.path|
    else if a.rule != b.rule then a.rule < b.rule
    else a.pos < b.pos
  }

  /** Entries come from distinct places. */
  ghost predicate DistinctPlaces(es: seq<Entry>) {
    forall i, j | 0 <= i < j < |es| :: es[i].rule != es[j].rule || es[i].pos != es[j].pos
  }

  ghost predicate Ordered(es: seq<Entry>) {
    forall i, j | 0 <= i < j < |es| :: Before(es[i], es[j])
  }

  // ---------- Collecting and sorting ----------

  /** The entry of every match of every rule, and nothing else. */
  ghost predicate Collected(rules: seq<seq<Match>>, es: seq<Entry>) {
    && (forall e | e in es :: e.rule < |rules| && e.pos < |rules[e.rule]| && rules[e.rule][e.pos] == e.pathMatch)
    && (forall r, p | 0 <= r < |rules| && 0 <= p < |rules[r]| :: Entry(rules[r][p], r, p) in es)
    && DistinctPlaces(es)
  }

  method Collect(rules: seq<seq<Match>>) returns (es: seq<Entry>, rootPresent: bool)
    ensures Collected(rules, es)
    ensures rootPresent <==> exists e :: e in es && e.pathMatch.path == "/"
  {
    es, rootPresent := [], false;
    for r := 0 to |rules|
      invariant forall e | e in es :: e.rule < r && e.pos < |rules[e.rule]| && rules[e.rule][e.pos] == e.pathMatch
      invariant forall q, p | 0 <= q < r && 0 <= p < |rules[q]| :: Entry(rules[q][p], q, p) in es
      invariant DistinctPlaces(es)
      invariant rootPresent <==> exists e :: e in es && e.pathMatch.path == "/"
    {
      for p := 0 to |rules[r]|
        invariant forall e | e in es ::
                    && e.rule <= r && e.pos < |rules[e.rule]| && rules[e.rule][e.pos] == e.pathMatch
                    && (e.rule == r ==> e.pos < p)
        invariant forall q, p' | 0 <= q < r && 0 <= p' < |rules[q]| :: Entry(rules[q][p'], q, p') in es
        invariant forall p' | 0 <= p' < p :: Entry(rules[r][p'], r, p') in es
        invariant DistinctPlaces(es)
        invariant rootPresent <==> exists e :: e in es && e.pathMatch.path == "/"
      {
        var e := Entry(rules[r][p], r, p);
        forall i | 0 <= i < |es| ensures es[i].rule != e.rule || es[i].pos != e.pos {
          assert es[i] in es;
        }
        if e.pathMatch.path == "/" {
          rootPresent := true;
          assert e in es + [e];
        }
        es := es + [e];
      }
    }
  }

  lemma BeforeTotal(a: Entry, b: Entry)
    requires a.rule != b.rule || a.pos != b.pos
    ensures Before(a, b) != Before(b, a)
  {
  }

  lemma BeforeTransitive(a: Entry, b: Entry, c: Entry)
    requires Before(a, b) && Before(b, c)
    ensures Before(a, c)
  {
  }

  method Sort(es: seq<Entry>) returns (sorted: seq<Entry>)
    requires DistinctPlaces(es)
    ensures Ordered(sorted) && multiset(sorted) == multiset(es)
  {
    sorted := [];
    for i := 0 to |es|
      invariant Ordered(sorted) && multiset(sorted) == multiset(es[..i])
    {
      assert es[..i + 1] == es[..i] + [es[i]];
      forall x | x in sorted ensures x.rule != es[i].rule || x.pos != es[i].pos {
        assert x in multiset(es[..i]);
        var j :| 0 <= j < i && es[j] == x;
      }
      sorted := InsertEntry(sorted, es[i]);
    }
    assert es[..|es|] == es;
  }

  method InsertEntry(sorted: seq<Entry>, e: Entry) returns (r: seq<Entry>)
    requires Ordered(sorted) && forall x | x in sorted :: x.rule != e.rule || x.pos != e.pos
    ensures Ordered(r) && multiset(r) == multiset(sorted) + multiset{e}
  {
    var i := |sorted|;
    while i > 0 && Before(e, sorted[i - 1])
      invariant 0 <= i <= |sorted|
      invariant forall j | i <= j < |sorted| :: Before(e, sorted[j])
    {
      i := i - 1;
    }
    forall j | 0 <= j < i ensures Before(sorted[j], e) {
      assert sorted[i - 1] in sorted;
      BeforeTotal(sorted[i - 1], e);
      if j < i - 1 {
        BeforeTransitive(sorted[j], sorted[i - 1], e);
      }
    }
    r := sorted[..i] + [e] + sorted[i..];
    Inserted(sorted, i, e);
  }

  lemma Inserted(sorted: seq<Entry>, i: nat, e: Entry)
    requires Ordered(sorted) && i <= |sorted|
    requires forall j | 0 <= j < i :: Before(sorted[j], e)
    requires forall j | i <= j < |sorted| :: Before(e, sorted[j])
    ensures Ordered(sorted[..i] + [e] + sorted[i..])
    ensures multiset(sorted[..i] + [e] + sorted[i..]) == multiset(sorted) + multiset{e}
  {
    var r := sorted[..i] + [e] + sorted[i..];
    forall j, k | 0 <= j < k < |r| ensures Before(r[j], r[k]) {
      var j' := if j < i then j else j - 1;
      var k' := if k < i then k else k - 1;
      assert j != i ==> r[j] == sorted[j'];
      assert k != i ==> r[k] == sorted[k'];
    }
    assert sorted == sorted[..i] + sorted[i..];
  }

  lemma BeforeAsymmetric(a: Entry, b: Entry)
    ensures !(Before(a, b) && Before(b, a))
  {
  }

  lemma HeadFirst(es: seq<Entry>, e: Entry)
    requires Ordered(es) && e in es
    ensures e == es[0] || Before(es[0], e)
  {
  }

  /** The order is unique: nothing about how it is reached can show. */
  lemma {:induction false} OrderUnique(a: seq<Entry>, b: seq<Entry>)
    requires Ordered(a) && Ordered(b) && multiset(a) == multiset(b)
    ensures a == b
  {
    if a == [] {
      assert |multiset(b)| == 0;
    } else {
      SameHead(a, b);
      var x, rest, rest' := a[0], a[1..], b[1..];
      assert a == [x] + rest && b == [x] + rest';
      SameTails(x, rest, rest');
      OrderUnique(rest, rest');
    }
  }

  lemma SameTails(x: Entry, a: seq<Entry>, b: seq<Entry>)
    requires multiset([x] + a) == multiset([x] + b)
    ensures multiset(a) == multiset(b)
  {
    assert multiset(a) == multiset([x] + a) - multiset{x};
    assert multiset(b) == multiset([x] + b) - multiset{x};
  }

  lemma SameHead(a: seq<Entry>, b: seq<Entry>)
    requires Ordered(a) && Ordered(b) && multiset(a) == multiset(b) && a != []
    ensures b != [] && a[0] == b[0]
  {
    assert a[0] in multiset(b) && |multiset(b)| == |multiset(a)| > 0;
    assert b[0] in multiset(a);
    HeadFirst(b, a[0]);
    HeadFirst(a, b[0]);
    BeforeAsymmetric(a[0], b[0]);
  }

  // ---------- The rules and how they are evaluated ----------

  datatype RequestRule = SwitchRule(index: nat, entry: Entry) | DefaultRule(index: nat)

  /** One rule per match in order with its position as index, then the catch-all 404
      unless some match already has the root path. */
  ghost predicate IsRuleList(rules: seq<RequestRule>, sorted: seq<Entry>, rootPresent: bool) {
    && |rules| == |sorted| + (if rootPresent then 0 else 1)
    && (forall i | 0 <= i < |sorted| :: rules[i] == SwitchRule(i, sorted[i]))
    && (!rootPresent ==> rules[|sorted|] == DefaultRule(|sorted|))
  }

  method BuildRules(sorted: seq<Entry>, rootPresent: bool) returns (rules: seq<RequestRule>)
    ensures IsRuleList(rules, sorted, rootPresent)
  {
    rules := [];
    var next := 0;
    for i := 0 to |sorted|
      invariant next == i == |rules|
      invariant forall j | 0 <= j < i :: rules[j] == SwitchRule(j, sorted[j])
    {
      rules := rules + [SwitchRule(next, sorted[i])];
      next := next + 1;
    }
    if !rootPresent {
      rules := rules + [DefaultRule(next)];
    }
  }

  /** The first rule that fits a request; `hits` says which matches fit it. Every
      request path begins with "/", so the default always fits. */
  function FirstFit(rules: seq<RequestRule>, hits: Entry -> bool): Option<RequestRule> {
    if rules == [] then None
    else if rules[0].DefaultRule? || hits(rules[0].entry) then Some(rules[0])
    else FirstFit(rules[1..], hits)
  }

  lemma {:induction false} FirstFitAt(rules: seq<RequestRule>, hits: Entry -> bool)
    ensures FirstFit(rules, hits).Some? ==>
              exists i :: 0 <= i < |rules| && FirstFit(rules, hits) == Some(rules[i])
                && (rules[i].DefaultRule? || hits(rules[i].entry))
                && forall j | 0 <= j < i :: rules[j].SwitchRule? && !hits(rules[j].entry)
    ensures FirstFit(rules, hits).None? ==>
              forall i | 0 <= i < |rules| :: rules[i].SwitchRule? && !hits(rules[i].entry)
  {
    if rules != [] && !(rules[0].DefaultRule? || hits(rules[0].entry)) {
      var rest := rules[1..];
      FirstFitAt(rest, hits);
      assert forall j | 0 < j < |rules| :: rules[j] == rest[j - 1];
      if FirstFit(rest, hits).Some? {
        var i :| 0 <= i < |rest| && FirstFit(rest, hits) == Some(rest[i])
          && (rest[i].DefaultRule? || hits(rest[i].entry))
          && forall j | 0 <= j < i :: rest[j].SwitchRule? && !hits(rest[j].entry);
        assert rules[i + 1] == rest[i];
      }
    }
  }

  /** First-match evaluation picks the most specific match that fits, over all rules
      of the route; the default fires exactly when it exists and nothing else fits. */
  lemma MostSpecificWins(rules: seq<RequestRule>, sorted: seq<Entry>, rootPresent: bool, hits: Entry -> bool)
    requires Ordered(sorted) && IsRuleList(rules, sorted, rootPresent)
    ensures
      match FirstFit(rules, hits)
      case Some(SwitchRule(i, e)) =>
        e in sorted && hits(e) && forall x | x in sorted && hits(x) && x != e :: Before(e, x)
      case Some(DefaultRule(_)) => !rootPresent && forall x | x in sorted :: !hits(x)
      case None => rootPresent && forall x | x in sorted :: !hits(x)
  {
    FirstFitAt(rules, hits);
    if FirstFit(rules, hits).Some? {
      var i :| 0 <= i < |rules| && FirstFit(rules, hits) == Some(rules[i])
        && (rules[i].DefaultRule? || hits(rules[i].entry))
        && forall j | 0 <= j < i :: rules[j].SwitchRule? && !hits(rules[j].entry);
      forall x | x in sorted && hits(x) ensures i < |sorted| && (x == sorted[i] || Before(sorted[i], x)) {
        var j :| 0 <= j < |sorted| && sorted[j] == x;
        assert rules[j] == SwitchRule(j, x);
      }
    } else {
      forall x | x in sorted ensures !hits(x) {
        var j :| 0 <= j < |sorted| && sorted[j] == x;
        assert rules[j] == SwitchRule(j, x);
      }
    }
  }

  /** The same said of the path types themselves: the match that answers is exact if
      any fitting one is; it is no regular expression if a prefix fits; among matches
      of its own class none is longer, and among those as long none comes from an
      earlier rule, or earlier within the rule. */
  ghost predicate Answers(e: Entry, x: Entry) {
    && (x.pathMatch.kind == Exact ==> e.pathMatch.kind == Exact)
    && (x.pathMatch.kind == PathPrefix || x.pathMatch.kind == Unspecified ==> e.pathMatch.kind != RegularExpression)
    && (SameClass(e.pathMatch.kind, x.pathMatch.kind) ==>
          && |e.pathMatch.path| >= |x.pathMatch.path|
          && (|e.pathMatch.path| == |x.pathMatch.path| ==> e.rule < x.rule || (e.rule == x.rule && e.pos <= x.pos)))
  }

  predicate SameClass(a: PathKind, b: PathKind) {
    match a
    case Exact => b == Exact
    case RegularExpression => b == RegularExpression
    case _ => b == PathPrefix || b == Unspecified
  }

  /** Of all matches of all rules of the route, the one that answers a request is the
      strongest that fits it. */
  lemma StrongestAnswers(
    regex: (string, string) -> bool, rules: seq<seq<Match>>, sorted: seq<Entry>,
    out: seq<RequestRule>, rootPresent: bool, req: Request, r: nat, p: nat)
    requires Ordered(sorted) && Collected(rules, sorted) && IsRuleList(out, sorted, rootPresent)
    requires r < |rules| && p < |rules[r]| && Hit(regex, req, rules[r][p])
    ensures
      match FirstFit(out, (e: Entry) => Hit(regex, req, e.pathMatch))
      case Some(SwitchRule(_, e)) =>
        && e.rule < |rules| && e.pos < |rules[e.rule]| && rules[e.rule][e.pos] == e.pathMatch
        && Hit(regex, req, e.pathMatch) && Answers(e, Entry(rules[r][p], r, p))
      case _ => false
  {
    var hits := (e: Entry) => Hit(regex, req, e.pathMatch);
    var x := Entry(rules[r][p], r, p);
    assert x in sorted && hits(x);
    MostSpecificWins(out, sorted, rootPresent, hits);
    match FirstFit(out, hits)
    case Some(SwitchRule(_, e)) =>
      if x != e {
        BeforeMeans(e, x);
      }
    case _ =>
  }

  lemma BeforeMeans(e: Entry, x: Entry)
    requires Before(e, x)
    ensures Answers(e, x)
  {
  }

  // ---------- Which requests meet a rule ----------

  /** A request as the rules see it. */
  datatype Request = Request(path: string, headers: map<string, string>)

  /** Whether a match fits a request; regular expressions are the load balancer's. */
  predicate Hit(regex: (string, string) -> bool, req: Request, m: Match) {
    && (match m.kind
        case Exact => req.path == m.path
        case RegularExpression => regex(m.path, req.path)
        case _ => m.path <= req.path)
    && HeadersFit(regex, req.headers, m.headers)
  }

  predicate HeaderFits(regex: (string, string) -> bool, have: map<string, string>, h: Header) {
    h.name in have && if h.byRegex then regex(h.value, have[h.name]) else have[h.name] == h.value
  }

  predicate HeadersFit(regex: (string, string) -> bool, have: map<string, string>, want: seq<Header>) {
    want == [] || (HeaderFits(regex, have, want[0]) && HeadersFit(regex, have, want[1..]))
  }

  predicate Served(regex: (string, string) -> bool, rules: seq<RequestRule>, req: Request) {
    FirstFit(rules, (e: Entry) => Hit(regex, req, e.pathMatch)).Some?
  }

  /** An exact match on the root path suppresses the default rule and serves nothing
      but the root path. */
  lemma ExactRootGap(regex: (string, string) -> bool)
    ensures
      var e := Entry(Match(Exact, "/", []), 0, 0);
      && Collected([[Match(Exact, "/", [])]], [e])
      && IsRuleList([SwitchRule(0, e)], [e], true)
      && !Served(regex, [SwitchRule(0, e)], Request("/a", map[]))
  {
  }

  ghost predicate RootPath(rules: seq<seq<Match>>) {
    exists r, p :: 0 <= r < |rules| && 0 <= p < |rules[r]| && rules[r][p].path == "/"
  }

  predicate CatchAll(m: Match) {
    (m.kind == PathPrefix || m.kind == Unspecified) && m.path <= "/" && m.headers == []
  }

  ghost predicate HasCatchAll(rules: seq<seq<Match>>) {
    exists r, p :: 0 <= r < |rules| && 0 <= p < |rules[r]| && CatchAll(rules[r][p])
  }

  /** The character after the leading slash. */
  function Branch(m: Match): int { if |m.path| >= 2 then m.path[1] as int else -1 }

  const LETTERS: nat := 0xD800

  function Branches(es: seq<Entry>): (s: set<int>)
    ensures |s| <= |es| && forall e | e in es :: Branch(e.pathMatch) in s
  {
    if es == [] then {}
    else
      assert es == es[..|es| - 1] + [es[|es| - 1]];
      Branches(es[..|es| - 1]) + {Branch(es[|es| - 1].pathMatch)}
  }

  lemma {:induction false} SomeFree(s: set<int>, n: nat) returns (v: nat)
    requires |s| < n
    ensures v < n && v !in s
  {
    if n - 1 in s {
      v := SomeFree(s - {n - 1}, n - 1);
    } else {
      v := n - 1;
    }
  }

  /** A path that no prefix of the route but a root one begins, and no exact match is. */
  lemma UntakenPath(regex: (string, string) -> bool, es: seq<Entry>) returns (path: string)
    requires |es| < LETTERS
    ensures |path| == 2 && path[0] == '/'
    ensures forall e | e in es && e.pathMatch.kind != RegularExpression ::
              Hit(regex, Request(path, map[]), e.pathMatch) ==> CatchAll(e.pathMatch)
  {
    var v := SomeFree(Branches(es), LETTERS);
    path := ['/', v as char];
    forall e | e in es && e.pathMatch.kind != RegularExpression && Hit(regex, Request(path, map[]), e.pathMatch)
      ensures CatchAll(e.pathMatch)
    {
      Untaken(regex, path, v, e.pathMatch);
    }
  }

  lemma Untaken(regex: (string, string) -> bool, path: string, v: nat, m: Match)
    requires v < LETTERS && path == ['/', v as char] && Branch(m) != v && m.kind != RegularExpression
    requires Hit(regex, Request(path, map[]), m)
    ensures CatchAll(m)
  {
    assert m.path <= path;
    assert m.path == path[..|m.path|] && path[..1] == "/" && path[..0] == "";
  }

  lemma ServedIff(
    regex: (string, string) -> bool, out: seq<RequestRule>, sorted: seq<Entry>, rootPresent: bool, req: Request)
    requires IsRuleList(out, sorted, rootPresent)
    ensures Served(regex, out, req) <==> !rootPresent || exists e :: e in sorted && Hit(regex, req, e.pathMatch)
  {
    var hits := (e: Entry) => Hit(regex, req, e.pathMatch);
    FirstFitAt(out, hits);
    if !Served(regex, out, req) {
      forall e | e in sorted ensures !Hit(regex, req, e.pathMatch) {
        var i :| 0 <= i < |sorted| && sorted[i] == e;
        assert out[i] == SwitchRule(i, e) && !hits(out[i].entry);
      }
    } else if rootPresent {
      var i :| 0 <= i < |out| && FirstFit(out, hits) == Some(out[i]) && (out[i].DefaultRule? || hits(out[i].entry));
      assert out[i] == SwitchRule(i, sorted[i]) && sorted[i] in sorted;
    }
  }

  /** Without regular expressions for paths, every request meets a rule if and only if no match
      has the root path, so that the default rule is there, or some prefix match takes
      every path whatever the headers. (A route has far fewer matches than there are
      characters; one prefix per character would serve every path too.) */
  lemma EveryRequestServed(
    regex: (string, string) -> bool, rules: seq<seq<Match>>,
    sorted: seq<Entry>, out: seq<RequestRule>, rootPresent: bool)
    requires Collected(rules, sorted) && IsRuleList(out, sorted, rootPresent) && |sorted| < LETTERS
    requires rootPresent <==> RootPath(rules)
    requires forall e | e in sorted :: e.pathMatch.kind != RegularExpression
    ensures (forall req: Request | "/" <= req.path :: Served(regex, out, req)) <==>
              !RootPath(rules) || HasCatchAll(rules)
  {
    if RootPath(rules) {
      if HasCatchAll(rules) {
        var r, p :| 0 <= r < |rules| && 0 <= p < |rules[r]| && CatchAll(rules[r][p]);
        var e := Entry(rules[r][p], r, p);
        forall req: Request | "/" <= req.path ensures Served(regex, out, req) {
          assert e in sorted && Hit(regex, req, e.pathMatch);
          ServedIff(regex, out, sorted, rootPresent, req);
        }
      } else {
        var path := UntakenPath(regex, sorted);
        var req := Request(path, map[]);
        ServedIff(regex, out, sorted, rootPresent, req);
        assert path[..1] == "/";
        assert forall e | e in sorted :: !CatchAll(e.pathMatch) by {
          forall e | e in sorted ensures !CatchAll(e.pathMatch) {
            assert e.pathMatch == rules[e.rule][e.pos];
          }
        }
        assert !Served(regex, out, req);
      }
    } else {
      forall req: Request | "/" <= req.path ensures Served(regex, out, req) {
        ServedIff(regex, out, sorted, rootPresent, req);
      }
    }
  }

  /** The whole pass over a route's rules. */
  method BuildPolicy(rules: seq<seq<Match>>) returns (out: seq<RequestRule>, sorted: seq<Entry>, rootPresent: bool)
    ensures Ordered(sorted) && Collected(rules, sorted)
    ensures rootPresent <==> RootPath(rules)
    ensures IsRuleList(out, sorted, rootPresent)
  {
    var es, root := Collect(rules);
    assert root ==> RootPath(rules);
    assert RootPath(rules) ==> root by {
      if r, p :| 0 <= r < |rules| && 0 <= p < |rules[r]| && rules[r][p].path == "/" {
        assert Entry(rules[r][p], r, p) in es;
      }
    }
    var ordered := Sort(es);
    assert forall e :: e in ordered <==> e in es by {
      assert forall e :: e in ordered <==> e in multiset(ordered);
      assert forall e :: e in es <==> e in multiset(es);
    }
    forall i, j | 0 <= i < j < |ordered|
      ensures ordered[i].rule != ordered[j].rule || ordered[i].pos != ordered[j].pos
    {
      assert Before(ordered[i], ordered[j]);
      assert ordered[i] in ordered && ordered[j] in ordered;
    }
    out := BuildRules(ordered, root);
    sorted, rootPresent := ordered, root;
  }
}
