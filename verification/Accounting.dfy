/** What one Service Engine keeps for an AI route in its one table: the counters of all
    limits, the usage ring, and the carries of native limits; and the scripts that
    change it, each one atomic step. */
module Accounting {
  import opened Text
  import opened SeTable
  import opened TokenCounters
  import opened UsageParse
  import opened UsageLedger
  import opened CarryProtocol
  import opened DrainText

  datatype Config = Config(vs: string, epoch: string, limits: seq<Limit>, sizes: map<string, nat>, route: string)

  /** Limit names keep their counters apart, and no counter sits on a carry. */
  ghost predicate Sound(cfg: Config) {
    WellFormed(cfg.limits) && OffCarry(cfg.epoch, cfg.limits)
  }

  /** An engine: its table, and what has happened on it so far. */
  datatype Engine = Engine(table: Table, charges: seq<Charge>, ring: seq<Life>, inflight: seq<Who>)

  /** What the response phase finds for one request in flight: whether metering is
      skipped, and what the parser made of the body. */
  datatype Reply = Reply(skipped: bool, usage: Usage, tier: string)

  ghost predicate Parsed(u: Usage) {
    exists metered, encoded, body :: u == Parse(metered, encoded, body)
  }

  // ---------- The response scripts ----------

  function RecordOf(cfg: Config, now: nat, who: Who, r: Reply): string {
    RecordText(now, who.identity, r.usage, r.tier, cfg.route)
  }

  predicate Recorded(r: Reply) { !r.skipped && r.usage.quality != Unmetered }

  function ResponseTable(cfg: Config, t: Table, now: nat, who: Who, r: Reply): Table
    requires Windowed(cfg.limits)
  {
    if r.skipped then t
    else
      var charged := ChargeAll(t, now, cfg.epoch, cfg.limits, who, r.usage.tokens);
      if Recorded(r) then Append(charged, now, who.ip, RecordOf(cfg, now, who, r)) else charged
  }

  method RespondData(
    cfg: Config, se: ServiceEngine, who: Who,
    skipped: bool, metered: bool, encoded: bool, body: Option<string>, tier: string)
    requires Windowed(cfg.limits)
    modifies se`table
    ensures se.table == ResponseTable(cfg, old(se.table), se.clock, who,
                                      Reply(skipped, Parse(metered, encoded, body), tier))
  {
    if skipped {
      return;
    }
    var u := ParseUsage(metered, encoded, body);
    ChargeLimits(se, cfg.epoch, cfg.limits, who, u.tokens);
    if u.quality != Unmetered {
      AppendRecord(se, who.ip, RecordText(se.clock, who.identity, u, tier, cfg.route));
    }
  }

  function Without<T>(s: seq<T>, i: nat): seq<T>
    requires i < |s|
  {
    s[..i] + s[i + 1..]
  }

  function Responded(cfg: Config, now: nat, e: Engine, i: nat, r: Reply): Engine
    requires Windowed(cfg.limits) && i < |e.inflight|
  {
    var who := e.inflight[i];
    Engine(
      ResponseTable(cfg, e.table, now, who, r),
      if r.skipped then e.charges else e.charges + ChargesOf(now, cfg.limits, false, who, r.usage.tokens),
      if Recorded(r) then RingAppend(e.ring, e.table, now, who.ip, RecordOf(cfg, now, who, r)) else e.ring,
      Without(e.inflight, i))
  }

  /** The native response script, with the display counters it charges. */
  function Staging(cfg: Config, now: nat, e: Engine, who: Who, u: Tokens): Engine
    requires Windowed(cfg.limits)
  {
    e.(table := Consumed(cfg.epoch, e.table, now, cfg.limits, |cfg.limits|, who, u),
       charges := e.charges + ChargesOf(now, cfg.limits, true, who, u))
  }

  // ---------- Three kinds of keys that never meet ----------

  ghost predicate RingSame(t: Table, t': Table) {
    Same(t, t', SEQ_KEY) && forall q: nat :: Same(t, t', RecKey(q))
  }

  lemma RingFrame(r: seq<Life>, t: Table, t': Table, now: nat)
    requires RingSame(t, t')
    ensures RingInv(r, t, now) ==> RingInv(r, t', now)
    ensures ReadHead(t) == ReadHead(t')
  {
  }

  ghost predicate CountersSame(t: Table, t': Table, epoch: string, name: string) {
    forall id, w: nat {:trigger CounterKey(epoch, name, id, w)} :: Same(t, t', CounterKey(epoch, name, id, w))
  }

  lemma CounterFrame(log: seq<Charge>, t: Table, t': Table, now: nat, epoch: string, l: Limit)
    requires l.window >= 1 && CountersSame(t, t', epoch, l.name) && CounterOk(log, t, now, epoch, l)
    ensures CounterOk(log, t', now, epoch, l)
  {
  }

  /** Only carries differ. */
  ghost predicate CarryOnly(t: Table, t': Table) {
    forall k | !IsCarry(k) :: Same(t, t', k)
  }

  lemma CarryOnlyLeaves(t: Table, t': Table, cfg: Config)
    requires OffCarry(cfg.epoch, cfg.limits) && CarryOnly(t, t')
    ensures RingSame(t, t')
    ensures forall i | 0 <= i < |cfg.limits| :: CountersSame(t, t', cfg.epoch, cfg.limits[i].name)
  {
    forall q: nat ensures Same(t, t', RecKey(q)) {
      assert RecKey(q)[0] == 'a' && "tkcarry:"[0] == 't';
    }
    assert SEQ_KEY[0] == 'a' && "tkcarry:"[0] == 't';
    forall i, id, w: nat | 0 <= i < |cfg.limits|
      ensures Same(t, t', CounterKey(cfg.epoch, cfg.limits[i].name, id, w))
    {
      if IsCarry(CounterKey(cfg.epoch, cfg.limits[i].name, id, w)) {
        CounterOffCarry(cfg.epoch, cfg.limits[i].name, id, w);
      }
    }
  }

  lemma RingKeyColons(q: nat)
    ensures Colons(SEQ_KEY) == 0 && Colons(RecKey(q)) == 1
  {
    ColonsAppend("ai_urec:", Dec(q));
    ColonsDigits(Dec(q));
    assert Colons("ai_urec:") == 1;
    assert Colons(SEQ_KEY) == 0;
  }

  lemma ChargeOneLeavesRing(t: Table, now: nat, epoch: string, l: Limit, who: Who, u: Tokens)
    requires l.window >= 1
    ensures RingSame(t, ChargeOne(t, now, epoch, l, who, u))
  {
    CounterKeyColons(epoch, l.name, KeyId(l, who), WindowStart(now, l.window));
    RingKeyColons(0);
    forall q: nat ensures Same(t, ChargeOne(t, now, epoch, l, who, u), RecKey(q)) {
      RingKeyColons(q);
    }
  }

  /** Charging any limits changes neither the head nor any record. */
  lemma {:induction false} ChargeLeavesRing(t: Table, now: nat, epoch: string, limits: seq<Limit>, who: Who, u: Tokens)
    requires Windowed(limits)
    ensures RingSame(t, ChargeAll(t, now, epoch, limits, who, u))
  {
    if limits != [] {
      var init, l := limits[..|limits| - 1], limits[|limits| - 1];
      ChargeLeavesRing(t, now, epoch, init, who, u);
      ChargeOneLeavesRing(ChargeAll(t, now, epoch, init, who, u), now, epoch, l, who, u);
    }
  }

  lemma {:induction false} ChargeLeavesCarry(
    t: Table, now: nat, epoch: string, limits: seq<Limit>, who: Who, u: Tokens, k: string)
    requires Windowed(limits) && OffCarry(epoch, limits) && IsCarry(k)
    ensures Same(t, ChargeAll(t, now, epoch, limits, who, u), k)
  {
    if limits != [] {
      var init, l := limits[..|limits| - 1], limits[|limits| - 1];
      ChargeLeavesCarry(t, now, epoch, init, who, u, k);
      if CurrentKey(epoch, now, l, who) == k {
        CounterOffCarry(epoch, l.name, KeyId(l, who), WindowStart(now, l.window));
      }
    }
  }

  /** Appending a record changes no counter of any limit and no carry. */
  lemma AppendLeavesRest(t: Table, now: nat, ip: string, rec: string, epoch: string, name: string)
    ensures CountersSame(t, Append(t, now, ip, rec), epoch, name)
    ensures forall k | IsCarry(k) :: Same(t, Append(t, now, ip, rec), k)
  {
    AppendEntries(t, now, ip, rec);
    RingKeyColons(ReadHead(t).number + 1);
    forall id, w: nat
      ensures Same(t, Append(t, now, ip, rec), CounterKey(epoch, name, id, w))
    {
      CounterKeyColons(epoch, name, id, w);
    }
    assert forall k | IsCarry(k) :: k[0] == 't';
    assert RecKey(ReadHead(t).number + 1)[0] == 'a' && SEQ_KEY[0] == 'a';
  }

  lemma ResponseLeavesCarry(cfg: Config, t: Table, now: nat, who: Who, r: Reply, k: string)
    requires Sound(cfg) && IsCarry(k)
    ensures Same(t, ResponseTable(cfg, t, now, who, r), k)
  {
    if !r.skipped {
      ChargeLeavesCarry(t, now, cfg.epoch, cfg.limits, who, r.usage.tokens, k);
      AppendLeavesRest(ChargeAll(t, now, cfg.epoch, cfg.limits, who, r.usage.tokens), now, who.ip,
                       RecordOf(cfg, now, who, r), cfg.epoch, "");
    }
  }

  lemma RequestIsCarryOnly(cfg: Config, s: Side, who: Who)
    requires WellFormed(cfg.limits)
    ensures CarryOnly(s.table, AfterRequest(cfg.vs, cfg.sizes, s, cfg.limits, who).table)
  {
    RequestExact(cfg.vs, cfg.sizes, s, cfg.limits, who);
    var taken := CarriesOf(s.table, cfg.limits[..Stop(cfg.vs, cfg.sizes, s, cfg.limits, who)], who);
    forall k | k in taken ensures IsCarry(k) {
      var l :| k == KeyOf(l, who);
      CarryKeyIsCarry(l.name, KeyId(l, who));
    }
  }

  // ---------- What every step keeps on an engine ----------

  /** Records printed as they are into the drain's JSON. */
  ghost predicate PlainLogs(r: seq<Life>) {
    forall i, j | 0 <= i < |r| && 0 <= j < |r[i].log| :: Plain(r[i].log[j].rec)
  }

  ghost predicate EngineOk(cfg: Config, now: nat, e: Engine)
    requires WellFormed(cfg.limits)
  {
    && CountersInv(e.charges, e.table, now, cfg.epoch, cfg.limits)
    && RingInv(e.ring, e.table, now)
    && PlainLogs(e.ring)
  }

  lemma FrameKeeps(cfg: Config, now: nat, e: Engine, t: Table)
    requires Sound(cfg) && EngineOk(cfg, now, e) && CarryOnly(e.table, t)
    ensures EngineOk(cfg, now, e.(table := t))
  {
    CarryOnlyLeaves(e.table, t, cfg);
    RingFrame(e.ring, e.table, t, now);
    forall i | 0 <= i < |cfg.limits| ensures CounterOk(e.charges, t, now, cfg.epoch, cfg.limits[i]) {
      CounterFrame(e.charges, e.table, t, now, cfg.epoch, cfg.limits[i]);
    }
  }

  lemma TickKeeps(cfg: Config, now: nat, e: Engine, to: nat)
    requires WellFormed(cfg.limits) && EngineOk(cfg, now, e) && now <= to
    ensures EngineOk(cfg, to, e.(table := Expire(e.table, to)))
  {
    ExpireKeepsRing(e.ring, e.table, now, to);
    forall i | 0 <= i < |cfg.limits|
      ensures CounterOk(e.charges, Expire(e.table, to), to, cfg.epoch, cfg.limits[i])
    {
      ExpireKeepsCounter(e.charges, e.table, now, to, cfg.epoch, cfg.limits[i]);
    }
  }

  lemma {:induction false} PlainJoin(fields: seq<string>)
    requires fields != [] && forall i | 0 <= i < |fields| :: Plain(fields[i])
    ensures Plain(Join(fields, '|'))
  {
    if |fields| > 1 {
      PlainJoin(fields[1..]);
    }
  }

  lemma PlainFields(s: string, max: nat)
    ensures Plain(Safe(s, max)) && (AllDigits(s) ==> Plain(s))
  {
  }

  lemma PlainRecord(cfg: Config, now: nat, who: Who, r: Reply)
    ensures Plain(RecordOf(cfg, now, who, r))
  {
    var u := r.usage;
    PlainFields(who.identity, 96);
    PlainFields(u.model, 64);
    PlainFields(r.tier, 32);
    PlainFields(cfg.route, 64);
    var fields := RecordFields(now, who.identity, u, r.tier, cfg.route);
    assert forall i | 0 <= i < 10 :: Plain(fields[i]);
    PlainJoin(fields);
  }

  lemma AppendKeepsPlain(r: seq<Life>, t: Table, now: nat, ip: string, rec: string)
    requires PlainLogs(r) && Plain(rec)
    ensures PlainLogs(RingAppend(r, t, now, ip, rec))
  {
  }

  /** Appending to the table a charge has already changed starts from the same ring. */
  lemma SameAppend(r: seq<Life>, t: Table, t': Table, now: nat, ip: string, rec: string)
    requires RingSame(t, t')
    ensures RingAppend(r, t, now, ip, rec) == RingAppend(r, t', now, ip, rec)
  {
    RingFrame(r, t, t', now);
  }

  lemma RecordKeeps(cfg: Config, now: nat, e: Engine, ip: string, rec: string)
    requires WellFormed(cfg.limits) && now < Pow10(ID_MAX - 1) && EngineOk(cfg, now, e) && Plain(rec)
    ensures EngineOk(cfg, now, e.(table := Append(e.table, now, ip, rec),
                                  ring := RingAppend(e.ring, e.table, now, ip, rec)))
  {
    AppendKeepsRing(e.ring, e.table, now, ip, rec);
    AppendKeepsPlain(e.ring, e.table, now, ip, rec);
    forall i | 0 <= i < |cfg.limits|
      ensures CounterOk(e.charges, Append(e.table, now, ip, rec), now, cfg.epoch, cfg.limits[i])
    {
      AppendLeavesRest(e.table, now, ip, rec, cfg.epoch, cfg.limits[i].name);
      CounterFrame(e.charges, e.table, Append(e.table, now, ip, rec), now, cfg.epoch, cfg.limits[i]);
    }
  }

  lemma ChargesKeep(cfg: Config, now: nat, e: Engine, who: Who, u: Tokens)
    requires WellFormed(cfg.limits) && EngineOk(cfg, now, e)
    ensures EngineOk(cfg, now, e.(table := ChargeAll(e.table, now, cfg.epoch, cfg.limits, who, u),
                                  charges := e.charges + ChargesOf(now, cfg.limits, false, who, u)))
  {
    assert cfg.limits[..|cfg.limits|] == cfg.limits;
    ChargeAllKeeps(e.charges, e.table, now, cfg.epoch, cfg.limits, |cfg.limits|, who, u);
    ChargeLeavesRing(e.table, now, cfg.epoch, cfg.limits, who, u);
    RingFrame(e.ring, e.table, ChargeAll(e.table, now, cfg.epoch, cfg.limits, who, u), now);
  }

  lemma RespondKeeps(cfg: Config, now: nat, e: Engine, i: nat, r: Reply)
    requires WellFormed(cfg.limits) && now < Pow10(ID_MAX - 1) && EngineOk(cfg, now, e) && i < |e.inflight|
    ensures EngineOk(cfg, now, Responded(cfg, now, e, i, r))
  {
    if !r.skipped {
      var who, u := e.inflight[i], r.usage.tokens;
      var charged := e.(table := ChargeAll(e.table, now, cfg.epoch, cfg.limits, who, u),
                        charges := e.charges + ChargesOf(now, cfg.limits, false, who, u));
      ChargesKeep(cfg, now, e, who, u);
      if Recorded(r) {
        var rec := RecordOf(cfg, now, who, r);
        PlainRecord(cfg, now, who, r);
        RecordKeeps(cfg, now, charged, who.ip, rec);
        ChargeLeavesRing(e.table, now, cfg.epoch, cfg.limits, who, u);
        SameAppend(e.ring, e.table, charged.table, now, who.ip, rec);
      }
    }
  }

  /** One consume stages the tokens and charges the display counter. */
  lemma ConsumeKeeps(cfg: Config, now: nat, e: Engine, j: nat, who: Who, u: Tokens)
    requires Sound(cfg) && EngineOk(cfg, now, e) && j < |cfg.limits|
    ensures EngineOk(cfg, now, e.(table := Consume(cfg.epoch, e.table, now, cfg.limits[j], who, u),
                                  charges := e.charges + [ChargeOf(now, cfg.limits[j], who, u)]))
  {
    var l := cfg.limits[j];
    var ck := KeyOf(l, who);
    var text := Dec(NumberAt(e.table, ck) + Amount(u, l.dim));
    CarryKeyIsCarry(l.name, KeyId(l, who));
    PutCarryKeeps(cfg, now, e, ck, text, l.window);
    ChargeOneKeeps(cfg, now, e.(table := Put(e.table, now, ck, text, l.window)), j, who, u);
  }

  lemma PutCarryKeeps(cfg: Config, now: nat, e: Engine, k: string, v: string, ttl: nat)
    requires Sound(cfg) && EngineOk(cfg, now, e) && IsCarry(k)
    ensures EngineOk(cfg, now, e.(table := Put(e.table, now, k, v, ttl)))
  {
    FrameKeeps(cfg, now, e, Put(e.table, now, k, v, ttl));
  }

  lemma ChargeOneKeeps(cfg: Config, now: nat, e: Engine, j: nat, who: Who, u: Tokens)
    requires WellFormed(cfg.limits) && EngineOk(cfg, now, e) && j < |cfg.limits|
    ensures EngineOk(cfg, now, e.(table := ChargeOne(e.table, now, cfg.epoch, cfg.limits[j], who, u),
                                  charges := e.charges + [ChargeOf(now, cfg.limits[j], who, u)]))
  {
    ChargeStepKeeps(e.charges, e.table, now, cfg.epoch, cfg.limits, j, who, u);
    ChargeOneLeavesRing(e.table, now, cfg.epoch, cfg.limits[j], who, u);
    RingFrame(e.ring, e.table, ChargeOne(e.table, now, cfg.epoch, cfg.limits[j], who, u), now);
  }

  function StagingUpTo(cfg: Config, now: nat, e: Engine, n: nat, who: Who, u: Tokens): Engine
    requires Windowed(cfg.limits) && n <= |cfg.limits|
  {
    e.(table := Consumed(cfg.epoch, e.table, now, cfg.limits, n, who, u),
       charges := e.charges + ChargesOf(now, cfg.limits[..n], true, who, u))
  }

  lemma {:induction false} StagingKeepsUpTo(cfg: Config, now: nat, e: Engine, n: nat, who: Who, u: Tokens)
    requires Sound(cfg) && EngineOk(cfg, now, e) && n <= |cfg.limits|
    ensures EngineOk(cfg, now, StagingUpTo(cfg, now, e, n, who, u))
  {
    if n == 0 {
      assert e.charges + [] == e.charges;
    } else {
      StagingKeepsUpTo(cfg, now, e, n - 1, who, u);
      StagingNextKeeps(cfg, now, e, n - 1, who, u);
    }
  }

  lemma StagingNextKeeps(cfg: Config, now: nat, e: Engine, j: nat, who: Who, u: Tokens)
    requires Sound(cfg) && j < |cfg.limits| && EngineOk(cfg, now, StagingUpTo(cfg, now, e, j, who, u))
    ensures EngineOk(cfg, now, StagingUpTo(cfg, now, e, j + 1, who, u))
  {
    var before := StagingUpTo(cfg, now, e, j, who, u);
    StagingNext(cfg, now, e, j, who, u);
    if cfg.limits[j].native {
      ConsumeKeeps(cfg, now, before, j, who, u);
    }
  }

  lemma StagingNext(cfg: Config, now: nat, e: Engine, j: nat, who: Who, u: Tokens)
    requires Windowed(cfg.limits) && j < |cfg.limits|
    ensures
      var before, l := StagingUpTo(cfg, now, e, j, who, u), cfg.limits[j];
      StagingUpTo(cfg, now, e, j + 1, who, u)
        == if l.native
           then before.(table := Consume(cfg.epoch, before.table, now, l, who, u),
                        charges := before.charges + [ChargeOf(now, l, who, u)])
           else before
  {
    ChargesNext(e.charges, now, cfg.limits, j, true, who, u);
  }

  lemma StagingKeeps(cfg: Config, now: nat, e: Engine, who: Who, u: Tokens)
    requires Sound(cfg) && EngineOk(cfg, now, e)
    ensures EngineOk(cfg, now, Staging(cfg, now, e, who, u))
  {
    assert cfg.limits[..|cfg.limits|] == cfg.limits;
    StagingKeepsUpTo(cfg, now, e, |cfg.limits|, who, u);
  }

  // ---------- Every charge leaves a record ----------

  /** One more record, the newest of the ring, holding the figures charged and a
      quality that says how they were obtained. */
  ghost predicate LeavesRecord(cfg: Config, now: nat, e: Engine, e': Engine, who: Who, r: Reply) {
    var rec := RecordOf(cfg, now, who, r);
    var fields := Split(rec, '|');
    && e'.ring != []
    && Last(e'.ring).log
         == (if SEQ_KEY in e.table && e.ring != [] then Last(e.ring).log else []) + [Stamped(now, rec)]
    && Lookup(e'.table, RecKey(|Slots(Last(e'.ring))|)) == Some(rec)
    && |fields| == 10
    && fields[4] == Dec(r.usage.tokens.prompt) && fields[5] == Dec(r.usage.tokens.completion)
    && (fields[8] == "exact" || fields[8] == "penalty")
  }

  lemma RecordSays(cfg: Config, now: nat, who: Who, r: Reply)
    requires Recorded(r)
    ensures
      var fields := Split(RecordOf(cfg, now, who, r), '|');
      && |fields| == 10
      && fields[4] == Dec(r.usage.tokens.prompt) && fields[5] == Dec(r.usage.tokens.completion)
      && (fields[8] == "exact" || fields[8] == "penalty")
  {
    RecordRoundTrip(now, who.identity, r.usage, r.tier, cfg.route);
  }

  lemma ParsedCharges(u: Usage)
    requires Parsed(u)
    ensures u.quality == Unmetered ==> u.tokens == Tokens(0, 0, 0)
  {
    var metered, encoded, body :| u == Parse(metered, encoded, body);
    QualityDecidesCharge(metered, encoded, body);
  }

  /** A response that raises any counter leaves exactly one more record; a response
      that leaves none does not touch the ring and adds nothing to any counter. */
  lemma ChargeImpliesRecord(cfg: Config, now: nat, e: Engine, i: nat, r: Reply)
    requires Windowed(cfg.limits) && now < Pow10(ID_MAX - 1) && RingInv(e.ring, e.table, now)
    requires i < |e.inflight| && Parsed(r.usage)
    ensures
      var e' := Responded(cfg, now, e, i, r);
      var amounts := if r.skipped then Tokens(0, 0, 0) else r.usage.tokens;
      && (Recorded(r) ==> LeavesRecord(cfg, now, e, e', e.inflight[i], r))
      && (!Recorded(r) ==> e'.ring == e.ring && RingSame(e.table, e'.table))
      && ((exists d: Dim :: Amount(amounts, d) > 0) ==> Recorded(r))
  {
    ParsedCharges(r.usage);
    var who, u := e.inflight[i], r.usage.tokens;
    if !r.skipped {
      ChargeLeavesRing(e.table, now, cfg.epoch, cfg.limits, who, u);
    }
    if Recorded(r) {
      RecordedResponse(cfg, now, e, i, r);
    }
  }

  lemma RecordedResponse(cfg: Config, now: nat, e: Engine, i: nat, r: Reply)
    requires Windowed(cfg.limits) && now < Pow10(ID_MAX - 1) && RingInv(e.ring, e.table, now) && i < |e.inflight|
    requires Recorded(r)
    ensures LeavesRecord(cfg, now, e, Responded(cfg, now, e, i, r), e.inflight[i], r)
  {
    var who, rec := e.inflight[i], RecordOf(cfg, now, e.inflight[i], r);
    var t := ChargeAll(e.table, now, cfg.epoch, cfg.limits, who, r.usage.tokens);
    ChargeLeavesRing(e.table, now, cfg.epoch, cfg.limits, who, r.usage.tokens);
    RingFrame(e.ring, e.table, t, now);
    SameAppend(e.ring, e.table, t, now, who.ip, rec);
    AppendAdds(e.ring, t, now, who.ip, rec);
    RecordSays(cfg, now, who, r);
  }
}
