/** Any number of Service Engines behind one address through any run of their scripts:
    requests are enforced and gated, responses are charged, recorded and staged, time
    passes, buckets refill, and a collector drains the rings. Counters, ring and
    carries of an engine share its one table; the engines share the limiter. */
module FleetRun {
  import opened Text
  import opened SeTable
  import opened TokenCounters
  import opened UsageParse
  import opened UsageLedger
  import opened CarryProtocol
  import opened DrainText
  import opened Accounting

  /** What the collector knows of one instance: its cursor and the polls behind it. */
  datatype Follow = Follow(cursor: nat, polls: seq<Poll>)

  datatype Receipt = Receipt(inst: string, number: nat, rec: string)

  /** One cursor per instance, and everything received so far. */
  datatype Collector = Collector(follows: map<string, Follow>, history: seq<Receipt>)

  datatype Fleet = Fleet(now: nat, engines: seq<Engine>, levels: map<Bucket, nat>, collector: Collector)

  datatype Event =
    | Request(se: nat, who: Who)
    | Gates(se: nat, who: Who)
    | Response(se: nat, i: nat, reply: Reply)
    | Staging(se: nat, who: Who, usage: Usage)
    | Abandon(se: nat, i: nat)
    | Refill(b: Bucket, amount: nat)
    | Tick(to: nat)
    | Drained(se: nat, after: int, want: int, page: Page)

  // ---------- Steps ----------

  function CursorOf(c: Collector, inst: string): nat {
    if inst in c.follows then c.follows[inst].cursor else 0
  }

  function PollsOf(c: Collector, inst: string): seq<Poll> {
    if inst in c.follows then c.follows[inst].polls else []
  }

  function Receipts(inst: string, rs: seq<(nat, string)>): (r: seq<Receipt>)
    ensures |r| == |rs| && forall i | 0 <= i < |r| :: r[i] == Receipt(inst, rs[i].0, rs[i].1)
  {
    seq(|rs|, i requires 0 <= i < |rs| => Receipt(inst, rs[i].0, rs[i].1))
  }

  /** Which engine answers is not the collector's choice, so a page is used only if it
      starts from the cursor of the instance that answered. */
  function Collect(c: Collector, t: Table, after: int, want: int, p: Page): Collector {
    if !Usable(c, after, p) then c
    else
      Collector(c.follows[p.inst := Follow(p.next, PollsOf(c, p.inst) + [Poll(t, CursorOf(c, p.inst), want, p)])],
                c.history + Receipts(p.inst, p.records))
  }

  predicate Usable(c: Collector, after: int, p: Page) {
    p.inst != "" && Cursor(after, p.head) == CursorOf(c, p.inst)
  }

  predicate Admits(cfg: Config, now: nat, e: Engine, who: Who)
    requires Windowed(cfg.limits)
  {
    forall i | 0 <= i < |cfg.limits| && !cfg.limits[i].native :: Passes(e.table, now, cfg.epoch, cfg.limits[i], who)
  }

  function Refilled(cfg: Config, levels: map<Bucket, nat>, b: Bucket, amount: nat): nat {
    var full := Level(cfg.sizes, levels, b) + amount;
    if full > SizeOf(cfg, b.0) then SizeOf(cfg, b.0) else full
  }

  function SizeOf(cfg: Config, rl: string): nat { if rl in cfg.sizes then cfg.sizes[rl] else 0 }

  /** The event names an engine there is, a request in flight, a time to come. */
  predicate Fits(f: Fleet, e: Event) {
    match e
    case Refill(_, _) => true
    case Tick(to) => f.now <= to
    case Request(se, _) => se < |f.engines|
    case Gates(se, _) => se < |f.engines|
    case Staging(se, _, _) => se < |f.engines|
    case Drained(se, _, _, _) => se < |f.engines|
    case Response(se, i, _) => se < |f.engines| && i < |f.engines[se].inflight|
    case Abandon(se, i) => se < |f.engines| && i < |f.engines[se].inflight|
  }

  ghost predicate Enabled(f: Fleet, e: Event) {
    && Fits(f, e)
    && match e
       case Tick(to) => to < Pow10(ID_MAX - 1)
       case Response(_, _, r) => Parsed(r.usage)
       case Staging(_, _, u) => Parsed(u)
       case Drained(se, after, want, page) => IsPage(f.engines[se].table, after, want, page)
       case _ => true
  }

  function SideOf(f: Fleet, se: nat): Side
    requires se < |f.engines|
  {
    Side(f.engines[se].table, f.levels)
  }

  function GatedSide(cfg: Config, f: Fleet, se: nat, who: Who): Side
    requires se < |f.engines|
  {
    AfterRequest(cfg.vs, cfg.sizes, SideOf(f, se), cfg.limits, who)
  }

  function OnEngine(f: Fleet, se: nat, e: Engine): Fleet
    requires se < |f.engines|
  {
    f.(engines := f.engines[se := e])
  }

  function ExpireAll(es: seq<Engine>, to: nat): (r: seq<Engine>)
    ensures |r| == |es| && forall i | 0 <= i < |r| :: r[i] == es[i].(table := Expire(es[i].table, to))
  {
    seq(|es|, i requires 0 <= i < |es| => es[i].(table := Expire(es[i].table, to)))
  }

  function Step(cfg: Config, f: Fleet, e: Event): Fleet
    requires Windowed(cfg.limits) && Fits(f, e)
  {
    match e
    case Request(se, who) =>
      var g := f.engines[se];
      if Admits(cfg, f.now, g, who) then OnEngine(f, se, g.(inflight := g.inflight + [who])) else f
    case Gates(se, who) =>
      var s := GatedSide(cfg, f, se, who);
      OnEngine(f, se, f.engines[se].(table := s.table)).(levels := s.levels)
    case Response(se, i, r) => OnEngine(f, se, Responded(cfg, f.now, f.engines[se], i, r))
    case Staging(se, who, u) => OnEngine(f, se, Accounting.Staging(cfg, f.now, f.engines[se], who, u.tokens))
    case Abandon(se, i) =>
      OnEngine(f, se, f.engines[se].(inflight := Without(f.engines[se].inflight, i)))
    case Refill(b, amount) => f.(levels := f.levels[b := Refilled(cfg, f.levels, b, amount)])
    case Tick(to) => f.(now := to, engines := ExpireAll(f.engines, to))
    case Drained(se, after, want, page) =>
      f.(collector := Collect(f.collector, f.engines[se].table, after, want, page))
  }

  predicate IsStart(f: Fleet) {
    && f.now == 0 && f.levels == map[] && f.collector == Collector(map[], [])
    && forall i | 0 <= i < |f.engines| :: f.engines[i] == Engine(map[], [], [], [])
  }

  /** A run: the states passed through, one event between each two. */
  ghost predicate IsRun(cfg: Config, states: seq<Fleet>, events: seq<Event>)
    requires Windowed(cfg.limits)
  {
    && |states| == |events| + 1
    && IsStart(states[0])
    && forall i | 0 <= i < |events| ::
         Enabled(states[i], events[i]) && states[i + 1] == Step(cfg, states[i], events[i])
  }

  // ---------- Every reachable state ----------

  ghost predicate FleetOk(cfg: Config, f: Fleet)
    requires WellFormed(cfg.limits)
  {
    f.now < Pow10(ID_MAX - 1) && forall i | 0 <= i < |f.engines| :: EngineOk(cfg, f.now, f.engines[i])
  }

  lemma GatesKeep(cfg: Config, f: Fleet, se: nat, who: Who)
    requires Sound(cfg) && se < |f.engines| && EngineOk(cfg, f.now, f.engines[se])
    ensures EngineOk(cfg, f.now, f.engines[se].(table := GatedSide(cfg, f, se, who).table))
  {
    RequestIsCarryOnly(cfg, SideOf(f, se), who);
    FrameKeeps(cfg, f.now, f.engines[se], GatedSide(cfg, f, se, who).table);
  }

  lemma StepKeeps(cfg: Config, f: Fleet, e: Event)
    requires Sound(cfg) && FleetOk(cfg, f) && Enabled(f, e)
    ensures FleetOk(cfg, Step(cfg, f, e))
  {
    match e
    case Gates(se, who) => GatesKeep(cfg, f, se, who);
    case Response(se, i, r) => RespondKeeps(cfg, f.now, f.engines[se], i, r);
    case Staging(se, who, u) => StagingKeeps(cfg, f.now, f.engines[se], who, u.tokens);
    case Tick(to) =>
      forall i | 0 <= i < |f.engines| ensures EngineOk(cfg, to, ExpireAll(f.engines, to)[i]) {
        TickKeeps(cfg, f.now, f.engines[i], to);
      }
    case _ =>
  }

  lemma StartOk(cfg: Config, f: Fleet)
    requires WellFormed(cfg.limits) && IsStart(f)
    ensures FleetOk(cfg, f)
  {
  }

  /** On every engine of every reachable state at once, every counter is exact, the
      ring is as it should be and its records are plain. */
  lemma {:induction false} AlwaysOk(cfg: Config, states: seq<Fleet>, events: seq<Event>, n: nat)
    requires Sound(cfg) && IsRun(cfg, states, events) && n < |states|
    ensures FleetOk(cfg, states[n])
  {
    if n == 0 {
      StartOk(cfg, states[0]);
    } else {
      AlwaysOk(cfg, states, events, n - 1);
      StepKeeps(cfg, states[n - 1], events[n - 1]);
      assert states[n - 1 + 1] == Step(cfg, states[n - 1], events[n - 1]);
    }
  }

  /** In every run, every counter a script would look up, enforced or for display, is
      the sum of that identity's charges on that engine in the current window. */
  lemma CountersRefineSums(cfg: Config, states: seq<Fleet>, events: seq<Event>, n: nat, se: nat, i: nat, id: string)
    requires Sound(cfg) && IsRun(cfg, states, events) && n < |states| && se < |states[n].engines| && i < |cfg.limits|
    ensures
      var f, l := states[n], cfg.limits[i];
      var w := WindowStart(f.now, l.window);
      NumberAt(f.engines[se].table, CounterKey(cfg.epoch, l.name, id, w)) == WindowSum(f.engines[se].charges, l, id, w)
  {
    AlwaysOk(cfg, states, events, n);
    var f := states[n];
    assert EngineOk(cfg, f.now, f.engines[se]);
    CounterIsSum(f.engines[se].charges, f.engines[se].table, f.now, cfg.epoch, cfg.limits[i], id);
  }

  /** In every run and whoever the clients are: a ring without a head has no record
      left to expose; otherwise every live record is one the head's own life kept (or
      its first, not yet counted), the head counts the records kept, and no two lives
      of a ring are ever read under the same id. */
  lemma RingLifetime(cfg: Config, states: seq<Fleet>, events: seq<Event>, n: nat, se: nat)
    requires Sound(cfg) && IsRun(cfg, states, events) && n < |states| && se < |states[n].engines|
    ensures
      var e := states[n].engines[se];
      && (SEQ_KEY !in e.table ==> forall q: nat :: RecKey(q) !in e.table)
      && (SEQ_KEY in e.table ==>
            && e.ring != [] && RecordsBelong(Last(e.ring), e.table, states[n].now)
            && ReadHead(e.table) == Head(LiveId(Last(e.ring)), |Kept(Last(e.ring))|))
      && forall i, j | 0 <= i < j < |e.ring| :: LiveId(e.ring[i]) != LiveId(e.ring[j])
  {
    AlwaysOk(cfg, states, events, n);
    var f := states[n];
    var e := f.engines[se];
    assert EngineOk(cfg, f.now, e);
    HeadOfRing(e.ring, e.table, f.now);
    forall i, j | 0 <= i < j < |e.ring| ensures LiveId(e.ring[i]) != LiveId(e.ring[j]) {
      IdsNeverRepeat(e.ring, e.table, f.now, i, j);
    }
  }

  /** The head is the id minted with the number of records appended under it exactly
      when that id has no colon; with a colon it is short by one, the first record. */
  lemma HeadTrueExactly(cfg: Config, states: seq<Fleet>, events: seq<Event>, n: nat, se: nat)
    requires Sound(cfg) && IsRun(cfg, states, events) && n < |states| && se < |states[n].engines|
    requires SEQ_KEY in states[n].engines[se].table
    ensures
      var e := states[n].engines[se];
      && e.ring != []
      && (ReadHead(e.table) == Head(IdOf(Last(e.ring)), |Last(e.ring).log|) <==> ':' !in IdOf(Last(e.ring)))
      && (':' in IdOf(Last(e.ring)) ==> ReadHead(e.table).number == |Last(e.ring).log| - 1)
  {
    AlwaysOk(cfg, states, events, n);
    var f := states[n];
    assert EngineOk(cfg, f.now, f.engines[se]);
    HeadOfRing(f.engines[se].ring, f.engines[se].table, f.now);
  }

  /** In every run, what a drain prints reads back as the page it answered. */
  lemma DrainsReadable(
    cfg: Config, states: seq<Fleet>, events: seq<Event>, n: nat, se: nat, after: int, want: int, p: Page)
    requires Sound(cfg) && IsRun(cfg, states, events) && n < |states| && se < |states[n].engines|
    requires IsPage(states[n].engines[se].table, after, want, p)
    ensures ReadPage(PageText(p)) == Some(p)
  {
    AlwaysOk(cfg, states, events, n);
    var f := states[n];
    assert EngineOk(cfg, f.now, f.engines[se]);
    PagesPlain(cfg, f.now, f.engines[se], after, want, p);
    PageRoundTrip(p);
  }

  lemma PagesPlain(cfg: Config, now: nat, e: Engine, after: int, want: int, p: Page)
    requires WellFormed(cfg.limits) && EngineOk(cfg, now, e) && IsPage(e.table, after, want, p)
    ensures PlainPage(p)
  {
    HeadOfRing(e.ring, e.table, now);
    if SEQ_KEY in e.table {
      PlainId(Last(e.ring));
    }
    forall i | 0 <= i < |p.records| ensures Plain(p.records[i].1) {
      var lo := ScanStart(Cursor(after, p.head), p.head);
      var q, rec := p.records[i].0, p.records[i].1;
      assert (q, rec) in p.records;
      LiveInMembers(e.table, lo, p.next, q, rec);
      assert rec == Slots(Last(e.ring))[q - 1].rec;
      SlotsPlain(e.ring, q - 1);
    }
  }

  lemma PlainId(l: Life)
    ensures Plain(LiveId(l))
  {
    PlainFields(Dec(l.at) + "-" + l.ip, ID_MAX);
  }

  lemma SlotsPlain(r: seq<Life>, i: nat)
    requires r != [] && PlainLogs(r) && i < |Slots(Last(r))|
    ensures Plain(Slots(Last(r))[i].rec)
  {
    var l := Last(r);
    assert Slots(l)[i] == if Slots(l) == l.log then l.log[i] else l.log[i + 1];
  }
}
