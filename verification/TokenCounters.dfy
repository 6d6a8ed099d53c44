/** Fixed-window token counters in the Service Engine table: the key of a counter,
    the block that enforces a limit on a request and the block that charges one on
    a response. */
module TokenCounters {
  import opened Text
  import opened SeTable

  datatype Dim = Prompt | Completion | Total

  datatype KeyKind = Consumer | ClientIP

  /** Budgets are per group when `grouped`; `budget` is then the ceiling of an
      unknown group, and not positive means such a caller is refused. A `native`
      limit is enforced by a rate limiter in scripts of its own; its counter is for
      display. */
  datatype Limit = Limit(
    name: string, window: nat, dim: Dim, key: KeyKind,
    budget: int, grouped: bool, groupHeader: string, groupBudgets: map<string, int>,
    logOnly: bool, native: bool)

  datatype Who = Who(identity: string, ip: string, claims: map<string, string>)

  datatype Tokens = Tokens(prompt: nat, completion: nat, total: nat)

  function Amount(u: Tokens, d: Dim): nat {
    match d
    case Prompt => u.prompt
    case Completion => u.completion
    case Total => u.total
  }

  function KeyId(l: Limit, who: Who): string {
    match l.key
    case Consumer => who.identity
    case ClientIP => who.ip
  }

  // ---------- Counter keys ----------

  function KeyPrefix(epoch: string, name: string): string {
    if epoch != "" then epoch + ":" + name else name
  }

  function CounterKey(epoch: string, name: string, id: string, w: nat): string {
    KeyPrefix(epoch, name) + ":" + id + ":" + Dec(w)
  }

  function WindowStart(now: nat, window: nat): nat
    requires window >= 1
  {
    now / window * window
  }

  lemma PrefixSeparation(epoch: string, m: string, n: string)
    ensures KeyPrefix(epoch, m) + ":" <= KeyPrefix(epoch, n) + ":" <==> m + ":" <= n + ":"
    ensures KeyPrefix(epoch, m) == KeyPrefix(epoch, n) ==> m == n
  {
    if epoch != "" {
      var e := epoch + ":";
      var a, b := KeyPrefix(epoch, m) + ":", KeyPrefix(epoch, n) + ":";
      assert a == e + (m + ":") && b == e + (n + ":");
      assert m + ":" == a[|e|..] && n + ":" == b[|e|..];
      if m + ":" <= n + ":" {
        assert b[..|a|] == e + (n + ":")[..|m| + 1];
      }
      if a <= b {
        assert (n + ":")[..|m| + 1] == b[..|a|][|e|..];
      }
      if KeyPrefix(epoch, m) == KeyPrefix(epoch, n) {
        assert m == KeyPrefix(epoch, m)[|e|..] == n;
      }
    }
  }

  /** The same key means the same limit, identity and window, even for identities
      that contain colons, as long as no limit name can be read inside another. */
  lemma CounterKeyInjective(
    epoch: string, m: string, id: string, v: nat, n: string, id': string, w: nat)
    requires m == n || !(m + ":" <= n + ":" || n + ":" <= m + ":")
    requires CounterKey(epoch, m, id, v) == CounterKey(epoch, n, id', w)
    ensures m == n && id == id' && v == w
  {
    var a, b := KeyPrefix(epoch, m), KeyPrefix(epoch, n);
    ColonsDigits(Dec(v));
    ColonsDigits(Dec(w));
    LastFieldUnique(a + ":" + id, Dec(v), b + ":" + id', Dec(w), ':');
    DecInjective(v, w);
    PrefixSeparation(epoch, m, n);
    PrefixSeparation(epoch, n, m);
    if a != b {
      JoinedDisjoint(a, id, b, id');
    }
    assert id == (a + ":" + id)[|a| + 1..] == id';
  }

  /** The separation is exact: two different names can share a counter key if and
      only if one, closed by a colon, starts the other. */
  lemma CounterKeysCollide(epoch: string, m: string, n: string)
    requires m != n
    ensures (exists id, v, id', w :: CounterKey(epoch, m, id, v) == CounterKey(epoch, n, id', w))
            <==> (m + ":" <= n + ":" || n + ":" <= m + ":")
  {
    if id, v, id', w :| CounterKey(epoch, m, id, v) == CounterKey(epoch, n, id', w) {
      if !(m + ":" <= n + ":" || n + ":" <= m + ":") {
        CounterKeyInjective(epoch, m, id, v, n, id', w);
      }
    }
    if m + ":" <= n + ":" {
      CollisionWitness(epoch, m, n);
    } else if n + ":" <= m + ":" {
      CollisionWitness(epoch, n, m);
    }
  }

  lemma CollisionWitness(epoch: string, m: string, n: string)
    requires m != n && m + ":" <= n + ":"
    ensures |m| < |n| && CounterKey(epoch, m, n[|m| + 1..] + ":", 0) == CounterKey(epoch, n, "", 0)
  {
    assert m == (m + ":")[..|m|] == (n + ":")[..|m|];
    assert (n + ":")[..|n|] == n;
    assert n[|m|] == (n + ":")[..|m| + 1][|m|] == ':';
    assert m == (n + ":")[..|m|] == n[..|m|];
    assert n == m + ":" + n[|m| + 1..];
    assert KeyPrefix(epoch, n) == KeyPrefix(epoch, m) + ":" + n[|m| + 1..];
    calc {
      CounterKey(epoch, n, "", 0);
      KeyPrefix(epoch, n) + ":" + "" + ":" + Dec(0);
      KeyPrefix(epoch, m) + ":" + n[|m| + 1..] + ":" + ":" + Dec(0);
      KeyPrefix(epoch, m) + ":" + (n[|m| + 1..] + ":") + ":" + Dec(0);
      CounterKey(epoch, m, n[|m| + 1..] + ":", 0);
    }
  }

  lemma CounterKeyColons(epoch: string, name: string, id: string, w: nat)
    ensures Colons(CounterKey(epoch, name, id, w)) >= 2
  {
    var p := KeyPrefix(epoch, name);
    ColonsAppend(p, ":");
    ColonsAppend(p + ":", id);
    ColonsAppend(p + ":" + id, ":");
    ColonsAppend(p + ":" + id + ":", Dec(w));
    assert Colons(":") == 1;
  }

  // ---------- Charging a response ----------

  function CurrentKey(epoch: string, now: nat, l: Limit, who: Who): string
    requires l.window >= 1
  {
    CounterKey(epoch, l.name, KeyId(l, who), WindowStart(now, l.window))
  }

  function ChargeOne(t: Table, now: nat, epoch: string, l: Limit, who: Who, u: Tokens): Table
    requires l.window >= 1
  {
    var k := CurrentKey(epoch, now, l, who);
    Put(t, now, k, Dec(NumberAt(t, k) + Amount(u, l.dim)), l.window - now % l.window + 5)
  }

  /** windowSeconds never returns less than one second. */
  predicate Windowed(limits: seq<Limit>) {
    forall i | 0 <= i < |limits| :: limits[i].window >= 1
  }

  ghost predicate WellFormed(limits: seq<Limit>) {
    && Windowed(limits)
    && (forall i, j | 0 <= i < |limits| && 0 <= j < |limits| && i != j ::
          limits[i].name != limits[j].name && !(limits[i].name + ":" <= limits[j].name + ":"))
  }

  function ChargeAll(t: Table, now: nat, epoch: string, limits: seq<Limit>, who: Who, u: Tokens): Table
    requires Windowed(limits)
  {
    if limits == [] then t
    else
      var l, before := limits[|limits| - 1], ChargeAll(t, now, epoch, limits[..|limits| - 1], who, u);
      if l.native then before else ChargeOne(before, now, epoch, l, who, u)
  }

  lemma ChargeAllNext(t: Table, now: nat, epoch: string, limits: seq<Limit>, i: nat, who: Who, u: Tokens)
    requires Windowed(limits) && i < |limits|
    ensures
      var before := ChargeAll(t, now, epoch, limits[..i], who, u);
      ChargeAll(t, now, epoch, limits[..i + 1], who, u)
        == if limits[i].native then before else ChargeOne(before, now, epoch, limits[i], who, u)
  {
    assert limits[..i + 1][..i] == limits[..i];
  }

  method ChargeLimit(se: ServiceEngine, epoch: string, l: Limit, who: Who, u: Tokens)
    requires l.window >= 1
    modifies se`table
    ensures se.table == ChargeOne(old(se.table), se.clock, epoch, l, who, u)
  {
    var k := CurrentKey(epoch, se.clock, l, who);
    var cur := se.ReadNumber(k);
    var ttl := l.window - se.clock % l.window + 5;
    se.TableRemove(k);
    se.TableInsert(k, Dec(cur + Amount(u, l.dim)), if ttl > 1 then ttl else 1);
  }

  method ChargeLimits(se: ServiceEngine, epoch: string, limits: seq<Limit>, who: Who, u: Tokens)
    requires Windowed(limits)
    modifies se`table
    ensures se.table == ChargeAll(old(se.table), se.clock, epoch, limits, who, u)
  {
    for i := 0 to |limits|
      invariant se.table == ChargeAll(old(se.table), se.clock, epoch, limits[..i], who, u)
    {
      ChargeAllNext(old(se.table), se.clock, epoch, limits, i, who, u);
      if !limits[i].native {
        ChargeLimit(se, epoch, limits[i], who, u);
      }
    }
    assert limits[..|limits|] == limits;
  }

  // ---------- Enforcing a limit on a request ----------

  function Ceiling(l: Limit, who: Who): Option<int> {
    if !l.grouped then Some(l.budget)
    else
      var g := if l.groupHeader in who.claims then who.claims[l.groupHeader] else "";
      if g in l.groupBudgets then Some(l.groupBudgets[g])
      else if l.budget > 0 then Some(l.budget)
      else None
  }

  /** A limit lets the request through: the caller has a ceiling and the counter is
      below it, or the limit only logs. */
  predicate Passes(t: Table, now: nat, epoch: string, l: Limit, who: Who)
    requires l.window >= 1
  {
    match Ceiling(l, who)
    case None => false
    case Some(b) => l.logOnly || NumberAt(t, CurrentKey(epoch, now, l, who)) < b
  }

  method Enforce(se: ServiceEngine, epoch: string, limits: seq<Limit>, who: Who) returns (admitted: bool)
    requires Windowed(limits)
    ensures admitted <==>
              forall i | 0 <= i < |limits| && !limits[i].native :: Passes(se.table, se.clock, epoch, limits[i], who)
  {
    for i := 0 to |limits|
      invariant forall j | 0 <= j < i && !limits[j].native :: Passes(se.table, se.clock, epoch, limits[j], who)
    {
      var l := limits[i];
      if l.native {
        continue;
      }
      var cur := se.ReadNumber(CurrentKey(epoch, se.clock, l, who));
      var ceiling := l.budget;
      if l.grouped {
        var g := if l.groupHeader in who.claims then who.claims[l.groupHeader] else "";
        if g in l.groupBudgets {
          ceiling := l.groupBudgets[g];
        } else if l.budget <= 0 {
          return false;
        }
      }
      if cur >= ceiling && !l.logOnly {
        return false;
      }
    }
    admitted := true;
  }

  // ---------- A counter is the sum of its charges ----------

  datatype Charge = Charge(limit: string, id: string, at: nat, amount: nat)

  predicate InWindow(c: Charge, l: Limit, id: string, w: nat)
    requires l.window >= 1
  {
    c.limit == l.name && c.id == id && WindowStart(c.at, l.window) == w
  }

  function WindowSum(log: seq<Charge>, l: Limit, id: string, w: nat): nat
    requires l.window >= 1
  {
    if log == [] then 0
    else
      var c := log[|log| - 1];
      WindowSum(log[..|log| - 1], l, id, w) + if InWindow(c, l, id, w) then c.amount else 0
  }

  predicate Touched(log: seq<Charge>, l: Limit, id: string, w: nat)
    requires l.window >= 1
  {
    exists i :: 0 <= i < |log| && InWindow(log[i], l, id, w)
  }

  lemma {:induction false} UntouchedSum(log: seq<Charge>, l: Limit, id: string, w: nat)
    requires l.window >= 1 && !Touched(log, l, id, w)
    ensures WindowSum(log, l, id, w) == 0
  {
    if log != [] {
      var init := log[..|log| - 1];
      assert !InWindow(log[|log| - 1], l, id, w);
      assert forall i | 0 <= i < |init| :: init[i] == log[i];
      UntouchedSum(init, l, id, w);
    }
  }

  /** What the table holds for one limit: every live counter is the sum of its
      window, and the current window's counter is live until past the window's end
      from the first charge on. */
  ghost predicate CounterOk(log: seq<Charge>, t: Table, now: nat, epoch: string, l: Limit)
    requires l.window >= 1
  {
    forall id, w: nat {:trigger CounterKey(epoch, l.name, id, w)} ::
      var k := CounterKey(epoch, l.name, id, w);
      && (k in t ==> t[k].value == Dec(WindowSum(log, l, id, w)))
      && (w == WindowStart(now, l.window) && Touched(log, l, id, w) ==>
            k in t && t[k].expires == w + l.window + 5)
  }

  ghost predicate Past(log: seq<Charge>, now: nat) {
    forall i | 0 <= i < |log| :: log[i].at <= now
  }

  ghost predicate CountersInv(log: seq<Charge>, t: Table, now: nat, epoch: string, limits: seq<Limit>)
    requires WellFormed(limits)
  {
    Past(log, now) && forall i | 0 <= i < |limits| :: CounterOk(log, t, now, epoch, limits[i])
  }

  /** The counter a request meets is the sum of that identity's charges in the
      current window. */
  lemma CounterIsSum(log: seq<Charge>, t: Table, now: nat, epoch: string, l: Limit, id: string)
    requires l.window >= 1 && CounterOk(log, t, now, epoch, l)
    ensures NumberAt(t, CounterKey(epoch, l.name, id, WindowStart(now, l.window)))
              == WindowSum(log, l, id, WindowStart(now, l.window))
  {
    var w := WindowStart(now, l.window);
    var k := CounterKey(epoch, l.name, id, w);
    if k in t {
      DecRoundTrip(WindowSum(log, l, id, w));
    } else {
      UntouchedSum(log, l, id, w);
    }
  }

  /** Windows partition time. */
  lemma WindowOf(at: nat, now: nat, window: nat)
    requires window >= 1
    ensures WindowStart(now, window) <= now < WindowStart(now, window) + window
    ensures WindowStart(now, window) + now % window == now
    ensures WindowStart(at, window) <= now < WindowStart(at, window) + window ==>
              WindowStart(now, window) == WindowStart(at, window)
  {
    var p, q := at / window, now / window;
    assert now == q * window + now % window;
    if p < q { MulMono(p + 1, q, window); }
    if q < p { MulMono(q + 1, p, window); }
  }

  lemma MulMono(a: nat, b: nat, c: nat)
    requires a <= b
    ensures a * c <= b * c
  {
  }

  lemma ExpireKeepsCounter(log: seq<Charge>, t: Table, now: nat, to: nat, epoch: string, l: Limit)
    requires l.window >= 1 && now <= to && Past(log, now) && CounterOk(log, t, now, epoch, l)
    ensures CounterOk(log, Expire(t, to), to, epoch, l)
  {
    var t' := Expire(t, to);
    forall id, w: nat
      ensures
        var k := CounterKey(epoch, l.name, id, w);
        && (k in t' ==> t'[k].value == Dec(WindowSum(log, l, id, w)))
        && (w == WindowStart(to, l.window) && Touched(log, l, id, w) ==>
              k in t' && t'[k].expires == w + l.window + 5)
    {
      var k := CounterKey(epoch, l.name, id, w);
      if w == WindowStart(to, l.window) && Touched(log, l, id, w) {
        var i :| 0 <= i < |log| && InWindow(log[i], l, id, w);
        WindowOf(0, log[i].at, l.window);
        WindowOf(0, to, l.window);
        WindowOf(log[i].at, now, l.window);
        assert WindowStart(now, l.window) == w;
      }
    }
  }

  function ChargeOf(now: nat, l: Limit, who: Who, u: Tokens): Charge {
    Charge(l.name, KeyId(l, who), now, Amount(u, l.dim))
  }

  /** Charging one limit keeps every limit's counters right: its own gains exactly
      the amount, the others are not touched. */
  lemma ChargeKeepsCounter(
    log: seq<Charge>, t: Table, now: nat, epoch: string, l: Limit, who: Who, u: Tokens, l': Limit)
    requires l.window >= 1 && l'.window >= 1
    requires l == l' || (l.name != l'.name && !(l.name + ":" <= l'.name + ":" || l'.name + ":" <= l.name + ":"))
    requires CounterOk(log, t, now, epoch, l) && CounterOk(log, t, now, epoch, l')
    ensures CounterOk(log + [ChargeOf(now, l, who, u)], ChargeOne(t, now, epoch, l, who, u), now, epoch, l')
  {
    var c := ChargeOf(now, l, who, u);
    var log' := log + [c];
    var t' := ChargeOne(t, now, epoch, l, who, u);
    var w0 := WindowStart(now, l.window);
    var k0 := CounterKey(epoch, l.name, c.id, w0);
    assert log'[..|log|] == log;
    CounterIsSum(log, t, now, epoch, l, c.id);
    WindowOf(0, now, l.window);
    forall id, w: nat
      ensures
        var k := CounterKey(epoch, l'.name, id, w);
        && (k in t' ==> t'[k].value == Dec(WindowSum(log', l', id, w)))
        && (w == WindowStart(now, l'.window) && Touched(log', l', id, w) ==>
              k in t' && t'[k].expires == w + l'.window + 5)
    {
      var k := CounterKey(epoch, l'.name, id, w);
      if InWindow(c, l', id, w) {
        assert l == l' && k == k0;
      } else {
        if k == k0 {
          CounterKeyInjective(epoch, l.name, c.id, w0, l'.name, id, w);
        }
        if Touched(log', l', id, w) {
          var i :| 0 <= i < |log'| && InWindow(log'[i], l', id, w);
          assert log[i] == log'[i];
        }
      }
    }
  }

  /** What a response charges: the counters of one kind of limit. */
  function ChargesOf(now: nat, limits: seq<Limit>, native: bool, who: Who, u: Tokens): seq<Charge> {
    if limits == [] then []
    else
      var l := limits[|limits| - 1];
      ChargesOf(now, limits[..|limits| - 1], native, who, u)
      + if l.native == native then [ChargeOf(now, l, who, u)] else []
  }

  lemma {:induction false} ChargeAllKeeps(
    log: seq<Charge>, t: Table, now: nat, epoch: string, limits: seq<Limit>, n: nat, who: Who, u: Tokens)
    requires WellFormed(limits) && n <= |limits|
    requires CountersInv(log, t, now, epoch, limits)
    ensures CountersInv(log + ChargesOf(now, limits[..n], false, who, u),
                        ChargeAll(t, now, epoch, limits[..n], who, u), now, epoch, limits)
  {
    if n == 0 {
      assert log + [] == log;
    } else {
      ChargeAllKeeps(log, t, now, epoch, limits, n - 1, who, u);
      var log1 := log + ChargesOf(now, limits[..n - 1], false, who, u);
      var t1 := ChargeAll(t, now, epoch, limits[..n - 1], who, u);
      ChargeStepKeeps(log1, t1, now, epoch, limits, n - 1, who, u);
      ChargeAllNext(t, now, epoch, limits, n - 1, who, u);
      ChargesNext(log, now, limits, n - 1, false, who, u);
    }
  }

  lemma ChargesNext(log: seq<Charge>, now: nat, limits: seq<Limit>, i: nat, native: bool, who: Who, u: Tokens)
    requires i < |limits|
    ensures
      var before := log + ChargesOf(now, limits[..i], native, who, u);
      log + ChargesOf(now, limits[..i + 1], native, who, u)
        == if limits[i].native == native then before + [ChargeOf(now, limits[i], who, u)] else before
  {
    assert limits[..i + 1][..i] == limits[..i];
  }

  lemma ChargeStepKeeps(
    log: seq<Charge>, t: Table, now: nat, epoch: string, limits: seq<Limit>, j: nat, who: Who, u: Tokens)
    requires WellFormed(limits) && j < |limits|
    requires CountersInv(log, t, now, epoch, limits)
    ensures CountersInv(log + [ChargeOf(now, limits[j], who, u)],
                        ChargeOne(t, now, epoch, limits[j], who, u), now, epoch, limits)
  {
    forall i | 0 <= i < |limits|
      ensures CounterOk(log + [ChargeOf(now, limits[j], who, u)],
                        ChargeOne(t, now, epoch, limits[j], who, u), now, epoch, limits[i])
    {
      ChargeKeepsCounter(log, t, now, epoch, limits[j], who, u, limits[i]);
    }
  }
}
