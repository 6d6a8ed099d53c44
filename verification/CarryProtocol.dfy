/** The deferred-carry protocol of native token budgets. A response stages the
    tokens it used in the table of the engine that served it; the consumer's next
    request on that engine charges them to the limiter all engines share. */
module CarryProtocol {
  import opened Text
  import opened SeTable
  import opened TokenCounters

  // ---------- Limiter names ----------

  function SanitizeChar(c: char): char {
    if c == ' ' || c == '/' || c == ':' || c == '*' || c == ',' then '-' else c
  }

  function Sanitize(s: string): string { seq(|s|, i requires 0 <= i < |s| => SanitizeChar(s[i])) }

  const FALLBACK_GROUP := "__default__"

  function LimiterName(vs: string, limit: string, group: string): string {
    vs + "-" + Sanitize(limit) + "-tk" + if group != "" then "-" + Sanitize(group) else ""
  }

  function GroupOf(l: Limit, who: Who): string {
    if l.groupHeader in who.claims then who.claims[l.groupHeader] else ""
  }

  /** The limiter a request is charged to; None refuses an unknown group. */
  function Resolve(vs: string, l: Limit, group: string): Option<string> {
    if !l.grouped then Some(LimiterName(vs, l.name, ""))
    else if group in l.groupBudgets then Some(LimiterName(vs, l.name, group))
    else if l.budget > 0 then Some(LimiterName(vs, l.name, FALLBACK_GROUP))
    else None
  }

  /** The limiters built for a limit: none for a budget that is not positive. */
  function Built(vs: string, l: Limit): set<string> {
    if !l.grouped then (if l.budget > 0 then {LimiterName(vs, l.name, "")} else {})
    else
      (set g | g in l.groupBudgets && l.groupBudgets[g] > 0 :: LimiterName(vs, l.name, g))
      + (if l.budget > 0 then {LimiterName(vs, l.name, FALLBACK_GROUP)} else {})
  }

  /** Every budget the scripts can resolve to is positive. */
  ghost predicate BudgetsPositive(l: Limit) {
    if l.grouped then forall g | g in l.groupBudgets :: l.groupBudgets[g] > 0 else l.budget > 0
  }

  /** No two groups of the limit share a limiter once their names are sanitized. */
  ghost predicate GroupsApart(vs: string, l: Limit) {
    && FALLBACK_GROUP !in l.groupBudgets
    && forall g, h | g in l.groupBudgets && (h in l.groupBudgets || h == FALLBACK_GROUP) && g != h ::
         LimiterName(vs, l.name, g) != LimiterName(vs, l.name, h)
  }

  ghost predicate AllBuilt(vs: string, l: Limit) {
    forall group :: Resolve(vs, l, group).Some? ==> Resolve(vs, l, group).value in Built(vs, l)
  }

  /** Every limiter the scripts can name exists when all budgets are positive; and
      only then, if the groups keep separate limiters. */
  lemma ResolvedIsBuilt(vs: string, l: Limit)
    ensures BudgetsPositive(l) ==> AllBuilt(vs, l)
    ensures GroupsApart(vs, l) ==> (AllBuilt(vs, l) <==> BudgetsPositive(l))
  {
    if !l.grouped {
      assert Resolve(vs, l, "").value == LimiterName(vs, l.name, "");
    } else if GroupsApart(vs, l) {
      forall g | g in l.groupBudgets
        ensures Resolve(vs, l, g).value in Built(vs, l) <==> l.groupBudgets[g] > 0
      {
        assert Resolve(vs, l, g).value == LimiterName(vs, l.name, g);
      }
    }
  }

  // ---------- Keys ----------

  function CarryKey(name: string, id: string): string { "tkcarry:" + name + ":" + id }

  /** The key lies in the namespace of the carries. */
  predicate IsCarry(k: string) { "tkcarry:" <= k }

  lemma CarryKeyIsCarry(name: string, id: string)
    ensures IsCarry(CarryKey(name, id))
  {
    assert CarryKey(name, id)[..8] == "tkcarry:";
  }

  lemma CarryKeyInjective(m: string, id: string, n: string, id': string)
    requires m == n || !(m + ":" <= n + ":" || n + ":" <= m + ":")
    requires CarryKey(m, id) == CarryKey(n, id')
    ensures m == n && id == id'
  {
    assert CarryKey(m, id)[8..] == m + ":" + id;
    assert CarryKey(n, id')[8..] == n + ":" + id';
    if m != n {
      JoinedDisjoint(m, id, n, id');
    }
    assert id == (m + ":" + id)[|m| + 1..] == id';
  }

  /** The counter of a limit can sit on someone's carry exactly when its key prefix
      opens with the carry namespace. */
  lemma CounterMeetsCarry(epoch: string, name: string)
    ensures (exists id, w, n, id' :: CounterKey(epoch, name, id, w) == CarryKey(n, id'))
            <==> IsCarry(KeyPrefix(epoch, name) + ":")
  {
    var p := KeyPrefix(epoch, name);
    if id, w, n, id' :| CounterKey(epoch, name, id, w) == CarryKey(n, id') {
      CarryKeyIsCarry(n, id');
      CounterOffCarry(epoch, name, id, w);
    }
    if IsCarry(p + ":") {
      var rest := (p + ":")[8..];
      assert p + ":" == "tkcarry:" + rest;
      if rest == "" {
        assert CounterKey(epoch, name, "n", 0) == CarryKey("n", Dec(0));
      } else {
        assert rest[|rest| - 1] == (p + ":")[|p|] == ':';
        var n := rest[..|rest| - 1];
        MeetingKeys(p, n, Dec(0));
        assert CounterKey(epoch, name, "", 0) == CarryKey(n, ":" + Dec(0));
      }
    }
  }

  lemma MeetingKeys(p: string, n: string, w: string)
    requires p + ":" == "tkcarry:" + (n + ":")
    ensures p + ":" + "" + ":" + w == "tkcarry:" + n + ":" + (":" + w)
  {
    assert p + ":" + "" + ":" + w == (p + ":") + (":" + w);
    assert "tkcarry:" + n + ":" + (":" + w) == ("tkcarry:" + (n + ":")) + (":" + w);
  }

  lemma CounterOffCarry(epoch: string, name: string, id: string, w: nat)
    requires IsCarry(CounterKey(epoch, name, id, w))
    ensures IsCarry(KeyPrefix(epoch, name) + ":")
  {
    var p := KeyPrefix(epoch, name);
    var k := CounterKey(epoch, name, id, w);
    assert k[..8] == "tkcarry:";
    assert k[|p|] == ':' && k[..|p| + 1] == p + ":";
    assert |p| + 1 >= 8 by {
      assert forall i | 0 <= i < 7 :: k[i] == "tkcarry:"[i] && "tkcarry:"[i] != ':';
    }
    assert (p + ":")[..8] == k[..|p| + 1][..8] == k[..8];
  }

  /** No counter of any limit sits on a carry. */
  ghost predicate OffCarry(epoch: string, limits: seq<Limit>) {
    forall i | 0 <= i < |limits| :: !IsCarry(KeyPrefix(epoch, limits[i].name) + ":")
  }

  // ---------- The shared limiter ----------

  type Bucket = (string, string)

  function Level(sizes: map<string, nat>, levels: map<Bucket, nat>, b: Bucket): nat {
    if b in levels then levels[b] else if b.0 in sizes then sizes[b.0] else 0
  }

  /** A limiter consumes all of a request or none of it. Buckets start full. */
  class RateLimiter {
    const sizes: map<string, nat>
    var levels: map<Bucket, nat>

    constructor (sizes: map<string, nat>)
      ensures this.sizes == sizes && levels == map[]
    {
      this.sizes, levels := sizes, map[];
    }

    method Exceed(b: Bucket, n: nat) returns (over: bool)
      modifies this
      ensures over <==> n > Level(sizes, old(levels), b)
      ensures levels == if over then old(levels) else old(levels)[b := Level(sizes, old(levels), b) - n]
    {
      var level := if b in levels then levels[b] else if b.0 in sizes then sizes[b.0] else 0;
      over := n > level;
      if !over {
        levels := levels[b := level - n];
      }
    }
  }

  // ---------- Gate and consume ----------

  datatype Verdict = UnknownGroup | Rejected | Settled(carry: nat) | Probed

  function Gate(vs: string, sizes: map<string, nat>, levels: map<Bucket, nat>, t: Table, l: Limit, who: Who): Verdict {
    match Resolve(vs, l, GroupOf(l, who))
    case None => UnknownGroup
    case Some(rl) =>
      var level := Level(sizes, levels, (rl, KeyId(l, who)));
      var carry := NumberAt(t, CarryKey(l.name, KeyId(l, who)));
      if carry > 0 then (if carry > level then Rejected else Settled(carry))
      else if 1 > level then Rejected else Probed
  }

  /** What an admitted request takes from the bucket. */
  function Drawn(v: Verdict): nat {
    match v
    case UnknownGroup => 0
    case Rejected => 0
    case Settled(carry) => carry
    case Probed => 1
  }

  function GateLevels(
    vs: string, sizes: map<string, nat>, levels: map<Bucket, nat>, l: Limit, who: Who, v: Verdict): map<Bucket, nat>
  {
    if v.Settled? || v.Probed? then
      match Resolve(vs, l, GroupOf(l, who))
      case None => levels
      case Some(rl) =>
        var b := (rl, KeyId(l, who));
        var level := Level(sizes, levels, b);
        levels[b := if level >= Drawn(v) then level - Drawn(v) else 0]
    else levels
  }

  function GateTable(t: Table, l: Limit, who: Who, v: Verdict): Table {
    if v.Settled? then Remove(t, CarryKey(l.name, KeyId(l, who))) else t
  }

  method NativeGate(vs: string, se: ServiceEngine, limiter: RateLimiter, l: Limit, who: Who) returns (v: Verdict)
    modifies se`table, limiter
    ensures v == Gate(vs, limiter.sizes, old(limiter.levels), old(se.table), l, who)
    ensures se.table == GateTable(old(se.table), l, who, v)
    ensures limiter.levels == GateLevels(vs, limiter.sizes, old(limiter.levels), l, who, v)
  {
    var rk := KeyId(l, who);
    var rl := Resolve(vs, l, GroupOf(l, who));
    if rl.None? {
      return UnknownGroup;
    }
    var ck := CarryKey(l.name, rk);
    var carry := se.ReadNumber(ck);
    if carry > 0 {
      var over := limiter.Exceed((rl.value, rk), carry);
      if over {
        return Rejected;
      }
      se.TableRemove(ck);
      v := Settled(carry);
    } else {
      var over := limiter.Exceed((rl.value, rk), 1);
      if over {
        return Rejected;
      }
      v := Probed;
    }
  }

  function Consume(epoch: string, t: Table, now: nat, l: Limit, who: Who, u: Tokens): Table
    requires l.window >= 1
  {
    var ck := CarryKey(l.name, KeyId(l, who));
    var staged := Put(t, now, ck, Dec(NumberAt(t, ck) + Amount(u, l.dim)), l.window);
    ChargeOne(staged, now, epoch, l, who, u)
  }

  method NativeConsume(epoch: string, se: ServiceEngine, l: Limit, who: Who, u: Tokens)
    requires l.window >= 1
    modifies se`table
    ensures se.table == Consume(epoch, old(se.table), se.clock, l, who, u)
  {
    var ck := CarryKey(l.name, KeyId(l, who));
    var carry := se.ReadNumber(ck);
    se.TableRemove(ck);
    se.TableInsert(ck, Dec(carry + Amount(u, l.dim)), l.window);
    ChargeLimit(se, epoch, l, who, u);
  }

  // ---------- The request script: one gate per native limit, in order ----------

  /** One engine's table and the levels all engines share. */
  datatype Side = Side(table: Table, levels: map<Bucket, nat>)

  /** The gate lets the request go on to the next one. */
  predicate Lets(v: Verdict) { v.Settled? || v.Probed? }

  function GateOn(vs: string, sizes: map<string, nat>, s: Side, l: Limit, who: Who): Verdict {
    Gate(vs, sizes, s.levels, s.table, l, who)
  }

  function GateStep(vs: string, sizes: map<string, nat>, s: Side, l: Limit, who: Who): Side {
    var v := GateOn(vs, sizes, s, l, who);
    Side(GateTable(s.table, l, who, v), GateLevels(vs, sizes, s.levels, l, who, v))
  }

  /** After the gates of all native limits in the list. */
  function Gated(vs: string, sizes: map<string, nat>, s: Side, limits: seq<Limit>, who: Who): Side {
    if limits == [] then s
    else
      var l, before := limits[|limits| - 1], Gated(vs, sizes, s, limits[..|limits| - 1], who);
      if l.native then GateStep(vs, sizes, before, l, who) else before
  }

  predicate GateRefuses(vs: string, sizes: map<string, nat>, s: Side, limits: seq<Limit>, who: Who, j: nat)
    requires j < |limits|
  {
    limits[j].native && !Lets(GateOn(vs, sizes, Gated(vs, sizes, s, limits[..j], who), limits[j], who))
  }

  /** The first limit from j on whose gate refuses, |limits| if none does. */
  function StopAt(vs: string, sizes: map<string, nat>, s: Side, limits: seq<Limit>, who: Who, j: nat): (at: nat)
    requires j <= |limits|
    ensures j <= at <= |limits|
    ensures forall i | j <= i < at :: !GateRefuses(vs, sizes, s, limits, who, i)
    ensures at < |limits| ==> GateRefuses(vs, sizes, s, limits, who, at)
    decreases |limits| - j
  {
    if j == |limits| || GateRefuses(vs, sizes, s, limits, who, j) then j
    else StopAt(vs, sizes, s, limits, who, j + 1)
  }

  function Stop(vs: string, sizes: map<string, nat>, s: Side, limits: seq<Limit>, who: Who): nat {
    StopAt(vs, sizes, s, limits, who, 0)
  }

  /** What a request leaves: the gates before the one that refused it have acted. */
  function AfterRequest(vs: string, sizes: map<string, nat>, s: Side, limits: seq<Limit>, who: Who): Side {
    Gated(vs, sizes, s, limits[..Stop(vs, sizes, s, limits, who)], who)
  }

  lemma GatedNext(vs: string, sizes: map<string, nat>, s: Side, limits: seq<Limit>, who: Who, i: nat)
    requires i < |limits|
    ensures
      var before := Gated(vs, sizes, s, limits[..i], who);
      Gated(vs, sizes, s, limits[..i + 1], who)
        == if limits[i].native then GateStep(vs, sizes, before, limits[i], who) else before
  {
    assert limits[..i + 1][..i] == limits[..i];
  }

  /** The script as it runs: each gate acts on what the gates before it left, and the
      first refusal answers the request. */
  method NativeRequest(vs: string, se: ServiceEngine, limiter: RateLimiter, limits: seq<Limit>, who: Who)
    returns (at: nat)
    modifies se`table, limiter
    ensures at == Stop(vs, limiter.sizes, old(Side(se.table, limiter.levels)), limits, who)
    ensures Side(se.table, limiter.levels)
              == AfterRequest(vs, limiter.sizes, old(Side(se.table, limiter.levels)), limits, who)
  {
    ghost var s := Side(se.table, limiter.levels);
    for i := 0 to |limits|
      invariant Side(se.table, limiter.levels) == Gated(vs, limiter.sizes, s, limits[..i], who)
      invariant Stop(vs, limiter.sizes, s, limits, who) == StopAt(vs, limiter.sizes, s, limits, who, i)
    {
      if limits[i].native {
        GatedNext(vs, limiter.sizes, s, limits, who, i);
        var v := NativeGate(vs, se, limiter, limits[i], who);
        if v.Rejected? || v.UnknownGroup? {
          return i;
        }
      } else {
        GatedNext(vs, limiter.sizes, s, limits, who, i);
      }
    }
    at := |limits|;
  }

  // ---------- What a request does, said of the state before it ----------

  function KeyOf(l: Limit, who: Who): string { CarryKey(l.name, KeyId(l, who)) }

  function BucketOf(vs: string, l: Limit, who: Who): Option<Bucket> {
    match Resolve(vs, l, GroupOf(l, who))
    case None => None
    case Some(rl) => Some((rl, KeyId(l, who)))
  }

  /** What a gate asks of the bucket: the whole carry, or 1 when there is none. */
  function Due(t: Table, l: Limit, who: Who): (d: nat)
    ensures d >= 1
  {
    if NumberAt(t, KeyOf(l, who)) > 0 then NumberAt(t, KeyOf(l, who)) else 1
  }

  /** What the native limits of the list together ask of one bucket. */
  function DueTo(vs: string, t: Table, limits: seq<Limit>, who: Who, b: Bucket): nat {
    if limits == [] then 0
    else
      var l := limits[|limits| - 1];
      DueTo(vs, t, limits[..|limits| - 1], who, b)
      + if l.native && BucketOf(vs, l, who) == Some(b) then Due(t, l, who) else 0
  }

  /** The keys of the carries there are. */
  function CarriesOf(t: Table, limits: seq<Limit>, who: Who): set<string> {
    set l | l in limits && l.native && NumberAt(t, KeyOf(l, who)) > 0 :: KeyOf(l, who)
  }

  /** The limit's bucket exists and can pay what is due now. */
  predicate CanPay(vs: string, sizes: map<string, nat>, s: Side, l: Limit, who: Who) {
    match BucketOf(vs, l, who)
    case None => false
    case Some(b) => Due(s.table, l, who) <= Level(sizes, s.levels, b)
  }

  /** The limit's bucket can pay for its own due after those of the limits before it. */
  predicate Affordable(vs: string, sizes: map<string, nat>, s: Side, limits: seq<Limit>, who: Who, j: nat)
    requires j < |limits|
  {
    match BucketOf(vs, limits[j], who)
    case None => false
    case Some(b) => DueTo(vs, s.table, limits[..j], who, b) + Due(s.table, limits[j], who) <= Level(sizes, s.levels, b)
  }

  /** After n gates that all let the request on. */
  ghost predicate Acted(vs: string, sizes: map<string, nat>, s: Side, s': Side, limits: seq<Limit>, who: Who) {
    && s'.table == s.table - CarriesOf(s.table, limits, who)
    && forall b :: Level(sizes, s'.levels, b) + DueTo(vs, s.table, limits, who, b) == Level(sizes, s.levels, b)
  }

  /** Carries of limits further down are not among those settled. */
  lemma CarryNotTaken(t: Table, limits: seq<Limit>, n: nat, who: Who, j: nat)
    requires WellFormed(limits) && n <= j < |limits|
    ensures KeyOf(limits[j], who) !in CarriesOf(t, limits[..n], who)
  {
    if KeyOf(limits[j], who) in CarriesOf(t, limits[..n], who) {
      var l :| l in limits[..n] && l.native && KeyOf(l, who) == KeyOf(limits[j], who);
      var i :| 0 <= i < n && limits[i] == l;
      CarryKeyInjective(l.name, KeyId(l, who), limits[j].name, KeyId(limits[j], who));
    }
  }

  lemma GateActs(vs: string, sizes: map<string, nat>, s: Side, l: Limit, who: Who)
    ensures
      var v := GateOn(vs, sizes, s, l, who);
      var s' := GateStep(vs, sizes, s, l, who);
      && (Lets(v) <==> CanPay(vs, sizes, s, l, who))
      && (Lets(v) ==>
            && s'.table == s.table - (if NumberAt(s.table, KeyOf(l, who)) > 0 then {KeyOf(l, who)} else {})
            && forall b :: Level(sizes, s'.levels, b)
                 + (if BucketOf(vs, l, who) == Some(b) then Due(s.table, l, who) else 0) == Level(sizes, s.levels, b))
      && (!Lets(v) ==> s' == s)
  {
  }

  lemma {:induction false} GatesAct(vs: string, sizes: map<string, nat>, s: Side, limits: seq<Limit>, who: Who, n: nat)
    requires WellFormed(limits) && n <= |limits|
    requires forall i | 0 <= i < n :: !GateRefuses(vs, sizes, s, limits, who, i)
    ensures Acted(vs, sizes, s, Gated(vs, sizes, s, limits[..n], who), limits[..n], who)
  {
    if n == 0 {
      assert CarriesOf(s.table, limits[..0], who) == {};
    } else {
      GatesAct(vs, sizes, s, limits, who, n - 1);
      GatedNext(vs, sizes, s, limits, who, n - 1);
      var before := Gated(vs, sizes, s, limits[..n - 1], who);
      if limits[n - 1].native {
        assert !GateRefuses(vs, sizes, s, limits, who, n - 1);
        NextActs(vs, sizes, s, before, limits, who, n - 1);
      } else {
        CarriesNext(s.table, limits, who, n - 1);
        DueNext(vs, s.table, limits, who, n - 1);
      }
    }
  }

  lemma DueNext(vs: string, t: Table, limits: seq<Limit>, who: Who, i: nat)
    requires i < |limits|
    ensures forall b :: DueTo(vs, t, limits[..i + 1], who, b) == DueTo(vs, t, limits[..i], who, b)
              + if limits[i].native && BucketOf(vs, limits[i], who) == Some(b) then Due(t, limits[i], who) else 0
  {
    assert limits[..i + 1][..i] == limits[..i];
  }

  lemma NextActs(vs: string, sizes: map<string, nat>, s: Side, before: Side, limits: seq<Limit>, who: Who, i: nat)
    requires WellFormed(limits) && i < |limits| && limits[i].native
    requires Acted(vs, sizes, s, before, limits[..i], who) && Lets(GateOn(vs, sizes, before, limits[i], who))
    ensures Acted(vs, sizes, s, GateStep(vs, sizes, before, limits[i], who), limits[..i + 1], who)
  {
    var l, after := limits[i], GateStep(vs, sizes, before, limits[i], who);
    SameDue(s.table, before.table, limits, who, i);
    GateActs(vs, sizes, before, l, who);
    CarriesNext(s.table, limits, who, i);
    DueNext(vs, s.table, limits, who, i);
    assert after.table == s.table - CarriesOf(s.table, limits[..i + 1], who);
  }

  lemma SameDue(t: Table, t': Table, limits: seq<Limit>, who: Who, i: nat)
    requires WellFormed(limits) && i < |limits| && t' == t - CarriesOf(t, limits[..i], who)
    ensures NumberAt(t', KeyOf(limits[i], who)) == NumberAt(t, KeyOf(limits[i], who))
    ensures Due(t', limits[i], who) == Due(t, limits[i], who)
  {
    CarryNotTaken(t, limits, i, who, i);
  }

  lemma CarriesNext(t: Table, limits: seq<Limit>, who: Who, i: nat)
    requires i < |limits|
    ensures CarriesOf(t, limits[..i + 1], who) == CarriesOf(t, limits[..i], who)
              + if limits[i].native && NumberAt(t, KeyOf(limits[i], who)) > 0 then {KeyOf(limits[i], who)} else {}
  {
    assert limits[..i + 1] == limits[..i] + [limits[i]];
  }

  /** Whether a gate refuses can be told before the request: it does exactly when its
      limit is not affordable, given that the gates before it let the request on. */
  lemma RefusesIff(vs: string, sizes: map<string, nat>, s: Side, limits: seq<Limit>, who: Who, j: nat)
    requires WellFormed(limits) && j < |limits|
    requires forall i | 0 <= i < j :: !GateRefuses(vs, sizes, s, limits, who, i)
    ensures GateRefuses(vs, sizes, s, limits, who, j) <==> limits[j].native && !Affordable(vs, sizes, s, limits, who, j)
  {
    GatesAct(vs, sizes, s, limits, who, j);
    var before := Gated(vs, sizes, s, limits[..j], who);
    SameDue(s.table, before.table, limits, who, j);
    GateActs(vs, sizes, before, limits[j], who);
  }

  /** The first native limit that is not affordable stops the request, and nothing
      else does. */
  lemma StopsWhere(vs: string, sizes: map<string, nat>, s: Side, limits: seq<Limit>, who: Who)
    requires WellFormed(limits)
    ensures
      var at := Stop(vs, sizes, s, limits, who);
      && (forall j | 0 <= j < at && limits[j].native :: Affordable(vs, sizes, s, limits, who, j))
      && (at < |limits| ==> limits[at].native && !Affordable(vs, sizes, s, limits, who, at))
  {
    var at := Stop(vs, sizes, s, limits, who);
    forall j | 0 <= j < at && limits[j].native ensures Affordable(vs, sizes, s, limits, who, j) {
      RefusesIff(vs, sizes, s, limits, who, j);
    }
    if at < |limits| {
      RefusesIff(vs, sizes, s, limits, who, at);
    }
  }

  lemma {:induction false} NothingDue(vs: string, t: Table, limits: seq<Limit>, who: Who, b: Bucket)
    requires forall i | 0 <= i < |limits| && limits[i].native :: BucketOf(vs, limits[i], who) != Some(b)
    ensures DueTo(vs, t, limits, who, b) == 0
  {
    if limits != [] {
      NothingDue(vs, t, limits[..|limits| - 1], who, b);
    }
  }

  /** A request stopped at a limit has paid for exactly the native limits before it:
      their carries on this engine are gone and their buckets are down by what was
      due. The carry of the limit that refused and of every later one is untouched,
      so is every bucket no earlier limit draws on. Admitted, the consumer has no
      native carry left on this engine. */
  lemma RequestExact(vs: string, sizes: map<string, nat>, s: Side, limits: seq<Limit>, who: Who)
    requires WellFormed(limits)
    ensures
      var at := Stop(vs, sizes, s, limits, who);
      var s' := AfterRequest(vs, sizes, s, limits, who);
      && Acted(vs, sizes, s, s', limits[..at], who)
      && (forall j | 0 <= j < at && limits[j].native :: NumberAt(s'.table, KeyOf(limits[j], who)) == 0)
      && (forall j | at <= j < |limits| :: Same(s.table, s'.table, KeyOf(limits[j], who)))
      && (forall b | (forall j | 0 <= j < at && limits[j].native :: BucketOf(vs, limits[j], who) != Some(b)) ::
            Level(sizes, s'.levels, b) == Level(sizes, s.levels, b))
  {
    var at := Stop(vs, sizes, s, limits, who);
    var s' := AfterRequest(vs, sizes, s, limits, who);
    GatesAct(vs, sizes, s, limits, who, at);
    forall j | 0 <= j < at && limits[j].native ensures NumberAt(s'.table, KeyOf(limits[j], who)) == 0 {
      assert limits[..at][j] == limits[j];
    }
    forall j | at <= j < |limits| ensures Same(s.table, s'.table, KeyOf(limits[j], who)) {
      CarryNotTaken(s.table, limits, at, who, j);
    }
    forall b | (forall j | 0 <= j < at && limits[j].native :: BucketOf(vs, limits[j], who) != Some(b))
      ensures Level(sizes, s'.levels, b) == Level(sizes, s.levels, b)
    {
      assert forall i | 0 <= i < at :: limits[..at][i] == limits[i];
      NothingDue(vs, s.table, limits[..at], who, b);
    }
  }

  /** The position of the first native limit, |limits| if there is none. */
  predicate IsFirstNative(limits: seq<Limit>, j: nat) {
    && j <= |limits| && (j < |limits| ==> limits[j].native)
    && forall i | 0 <= i < j :: !limits[i].native
  }

  ghost predicate SameSide(sizes: map<string, nat>, s: Side, s': Side) {
    s'.table == s.table && forall b :: Level(sizes, s'.levels, b) == Level(sizes, s.levels, b)
  }

  lemma FirstAffordable(vs: string, sizes: map<string, nat>, s: Side, limits: seq<Limit>, who: Who, j: nat)
    requires j < |limits| && forall i | 0 <= i < j :: !limits[i].native
    ensures Affordable(vs, sizes, s, limits, who, j) <==> CanPay(vs, sizes, s, limits[j], who)
  {
    var b := BucketOf(vs, limits[j], who);
    if b.Some? {
      NothingDue(vs, s.table, limits[..j], who, b.value);
    }
  }

  lemma StopsAtFirst(vs: string, sizes: map<string, nat>, s: Side, limits: seq<Limit>, who: Who, j: nat)
    requires WellFormed(limits) && IsFirstNative(limits, j) && j < |limits|
    ensures j < Stop(vs, sizes, s, limits, who) <==> CanPay(vs, sizes, s, limits[j], who)
  {
    StopsWhere(vs, sizes, s, limits, who);
    FirstAffordable(vs, sizes, s, limits, who, j);
  }

  lemma UnchangedBefore(vs: string, sizes: map<string, nat>, s: Side, limits: seq<Limit>, who: Who, j: nat)
    requires WellFormed(limits) && IsFirstNative(limits, j)
    ensures SameSide(sizes, s, AfterRequest(vs, sizes, s, limits, who)) <==> Stop(vs, sizes, s, limits, who) <= j
  {
    var at := Stop(vs, sizes, s, limits, who);
    var s' := AfterRequest(vs, sizes, s, limits, who);
    RequestExact(vs, sizes, s, limits, who);
    if j < at {
      StopsWhere(vs, sizes, s, limits, who);
      assert Affordable(vs, sizes, s, limits, who, j);
      SomethingDue(vs, s.table, limits[..at], who, j);
      var b := BucketOf(vs, limits[j], who).value;
      assert Level(sizes, s'.levels, b) < Level(sizes, s.levels, b);
    } else {
      assert CarriesOf(s.table, limits[..at], who) == {};
    }
  }

  /** A request leaves everything as it was if and only if there is no native limit or
      the first one cannot be paid: a refusal by a later one comes after charges. */
  lemma UnchangedExactly(vs: string, sizes: map<string, nat>, s: Side, limits: seq<Limit>, who: Who, j: nat)
    requires WellFormed(limits) && IsFirstNative(limits, j)
    ensures SameSide(sizes, s, AfterRequest(vs, sizes, s, limits, who)) <==>
              j == |limits| || !CanPay(vs, sizes, s, limits[j], who)
  {
    UnchangedBefore(vs, sizes, s, limits, who, j);
    if j < |limits| {
      StopsAtFirst(vs, sizes, s, limits, who, j);
    }
  }

  /** Two native limits, the first able to pay and the second not: the request is
      refused, and the first limit's bucket is down by what was due all the same. */
  lemma RefusedYetCharged(vs: string, sizes: map<string, nat>, s: Side, l1: Limit, l2: Limit, who: Who)
    requires WellFormed([l1, l2]) && l1.native && l2.native
    requires CanPay(vs, sizes, s, l1, who) && !CanPay(vs, sizes, s, l2, who)
    ensures
      var b := BucketOf(vs, l1, who).value;
      && Stop(vs, sizes, s, [l1, l2], who) == 1
      && Level(sizes, AfterRequest(vs, sizes, s, [l1, l2], who).levels, b) + Due(s.table, l1, who)
           == Level(sizes, s.levels, b)
  {
    var limits := [l1, l2];
    StopsWhere(vs, sizes, s, limits, who);
    RequestExact(vs, sizes, s, limits, who);
    FirstAffordable(vs, sizes, s, limits, who, 0);
    assert !Affordable(vs, sizes, s, limits, who, 1);
    assert limits[..1] == [l1] && limits[..1][..0] == [];
  }

  /** Such limits exist, on any virtual service and for any caller: budgets of 5 and 0,
      nothing used so far. */
  lemma RefusedYetChargedAt(vs: string, who: Who, l1: Limit, l2: Limit, size: nat)
    requires l1 == Limit("a", 60, Total, Consumer, 5, false, "", map[], false, true)
    requires l2 == Limit("b", 60, Total, Consumer, 0, false, "", map[], false, true) && size == 5
    ensures
      var sizes := map[LimiterName(vs, "a", "") := size];
      && Stop(vs, sizes, Side(map[], map[]), [l1, l2], who) == 1
      && Level(sizes, AfterRequest(vs, sizes, Side(map[], map[]), [l1, l2], who).levels,
               (LimiterName(vs, "a", ""), who.identity)) == 4
  {
    var sizes, s := map[LimiterName(vs, "a", "") := size], Side(map[], map[]);
    NamesDiffer(vs);
    assert ("a" + ":")[0] != ("b" + ":")[0];
    assert WellFormed([l1, l2]);
    RefusedYetCharged(vs, sizes, s, l1, l2, who);
  }

  lemma NamesDiffer(vs: string)
    ensures LimiterName(vs, "a", "") != LimiterName(vs, "b", "")
  {
    assert LimiterName(vs, "a", "")[|vs| + 1] == 'a' && LimiterName(vs, "b", "")[|vs| + 1] == 'b';
  }

  lemma {:induction false} SomethingDue(vs: string, t: Table, limits: seq<Limit>, who: Who, j: nat)
    requires j < |limits| && limits[j].native && BucketOf(vs, limits[j], who).Some?
    ensures DueTo(vs, t, limits, who, BucketOf(vs, limits[j], who).value) >= Due(t, limits[j], who)
  {
    if j < |limits| - 1 {
      SomethingDue(vs, t, limits[..|limits| - 1], who, j);
    }
  }

  // ---------- The response script: one consume per native limit ----------

  /** After the consumes of the native limits among the first n. */
  function Consumed(epoch: string, t: Table, now: nat, limits: seq<Limit>, n: nat, who: Who, u: Tokens): Table
    requires Windowed(limits) && n <= |limits|
  {
    if n == 0 then t
    else
      var before := Consumed(epoch, t, now, limits, n - 1, who, u);
      if limits[n - 1].native then Consume(epoch, before, now, limits[n - 1], who, u) else before
  }

  method NativeResponse(epoch: string, se: ServiceEngine, limits: seq<Limit>, who: Who, u: Tokens)
    requires Windowed(limits)
    modifies se`table
    ensures se.table == Consumed(epoch, old(se.table), se.clock, limits, |limits|, who, u)
  {
    for i := 0 to |limits|
      invariant se.table == Consumed(epoch, old(se.table), se.clock, limits, i, who, u)
    {
      if limits[i].native {
        NativeConsume(epoch, se, limits[i], who, u);
      }
    }
  }

  lemma ConsumeEffect(epoch: string, t: Table, now: nat, l: Limit, who: Who, u: Tokens, k: string)
    requires l.window >= 1 && IsCarry(k) && !IsCarry(KeyPrefix(epoch, l.name) + ":")
    ensures
      var t' := Consume(epoch, t, now, l, who, u);
      && (k == KeyOf(l, who) ==>
            && k in t' && t'[k] == Entry(Dec(NumberAt(t, k) + Amount(u, l.dim)), now + l.window)
            && NumberAt(t', k) == NumberAt(t, k) + Amount(u, l.dim))
      && (k != KeyOf(l, who) ==> Same(t, t', k))
  {
    if CurrentKey(epoch, now, l, who) == k {
      CounterOffCarry(epoch, l.name, KeyId(l, who), WindowStart(now, l.window));
    }
    DecRoundTrip(NumberAt(t, KeyOf(l, who)) + Amount(u, l.dim));
  }

  /** Tokens staged for one consumer under one limit. */
  function Staged(t: Table, l: Limit, id: string): nat { NumberAt(t, CarryKey(l.name, id)) }

  /** A response adds its tokens to the carry of each native limit once, and touches no
      other consumer's carry. */
  lemma ConsumedCarry(
    epoch: string, t: Table, now: nat, limits: seq<Limit>, n: nat, who: Who, u: Tokens, m: nat, id: string)
    requires WellFormed(limits) && OffCarry(epoch, limits) && n <= |limits| && m < |limits|
    ensures StagedAfter(epoch, t, now, limits, n, who, u, limits[m], id) == Staged(t, limits[m], id)
              + if m < n then Gain(limits[m], who, u, id) else 0
  {
    forall j | 0 <= j < n ensures StepGains(epoch, t, now, limits, j, who, u, m, id) {
      if limits[j].native {
        OneConsumed(epoch, Consumed(epoch, t, now, limits, j, who, u), now, limits, j, who, u, m, id);
      }
    }
    GainsAddUp(epoch, t, now, limits, n, who, u, m, id);
  }

  /** What a response adds to the carry of a limit, if it is native. */
  function Gain(l: Limit, who: Who, u: Tokens, id: string): nat {
    if l.native && KeyId(l, who) == id then Amount(u, l.dim) else 0
  }

  function StagedAfter(
    epoch: string, t: Table, now: nat, limits: seq<Limit>, n: nat, who: Who, u: Tokens, l: Limit, id: string): nat
    requires Windowed(limits) && n <= |limits|
  {
    Staged(Consumed(epoch, t, now, limits, n, who, u), l, id)
  }

  ghost predicate StepGains(
    epoch: string, t: Table, now: nat, limits: seq<Limit>, j: nat, who: Who, u: Tokens, m: nat, id: string)
    requires Windowed(limits) && j < |limits| && m < |limits|
  {
    StagedAfter(epoch, t, now, limits, j + 1, who, u, limits[m], id)
      == StagedAfter(epoch, t, now, limits, j, who, u, limits[m], id)
         + if m == j then Gain(limits[m], who, u, id) else 0
  }

  lemma {:induction false} GainsAddUp(
    epoch: string, t: Table, now: nat, limits: seq<Limit>, n: nat, who: Who, u: Tokens, m: nat, id: string)
    requires Windowed(limits) && n <= |limits| && m < |limits|
    requires forall j | 0 <= j < n :: StepGains(epoch, t, now, limits, j, who, u, m, id)
    ensures StagedAfter(epoch, t, now, limits, n, who, u, limits[m], id) == Staged(t, limits[m], id)
              + if m < n then Gain(limits[m], who, u, id) else 0
  {
    if n > 0 {
      GainsAddUp(epoch, t, now, limits, n - 1, who, u, m, id);
      assert StepGains(epoch, t, now, limits, n - 1, who, u, m, id);
    }
  }

  lemma OneConsumed(
    epoch: string, t: Table, now: nat, limits: seq<Limit>, j: nat, who: Who, u: Tokens, m: nat, id: string)
    requires WellFormed(limits) && OffCarry(epoch, limits) && j < |limits| && m < |limits|
    ensures Staged(Consume(epoch, t, now, limits[j], who, u), limits[m], id) == Staged(t, limits[m], id)
              + if m == j && KeyId(limits[m], who) == id then Amount(u, limits[m].dim) else 0
  {
    var l, k := limits[j], CarryKey(limits[m].name, id);
    CarryKeyIsCarry(limits[m].name, id);
    ConsumeEffect(epoch, t, now, l, who, u, k);
    if k == KeyOf(l, who) {
      CarryKeyInjective(limits[m].name, id, l.name, KeyId(l, who));
    }
  }
}
