/** The usage ledger of the whole fleet: what a collector with one cursor per instance
    has received, bounced between engines as the load balancer pleases. */
module FleetLedger {
  import opened Text
  import opened SeTable
  import opened TokenCounters
  import opened UsageLedger
  import opened CarryProtocol
  import opened Accounting
  import opened FleetRun

  // ---------- Lives only grow ----------

  /** More records were appended, none before the given second. */
  ghost predicate LifeGrows(l: Life, l': Life, since: nat) {
    && l.at == l'.at && l.ip == l'.ip && l.log != [] && l.log <= l'.log
    && forall i | |l.log| <= i < |l'.log| :: since <= l'.log[i].at
  }

  ghost predicate RingGrows(r: seq<Life>, r': seq<Life>, since: nat) {
    && |r| <= |r'|
    && (forall i | 0 <= i < |r| :: LifeGrows(r[i], r'[i], since))
    && (forall i, j | |r| <= i < |r'| && 0 <= j < |r'[i].log| :: since <= r'[i].log[j].at)
  }

  lemma KeptMonotone(l: Life, l': Life, since: nat)
    requires LifeGrows(l, l', since)
    ensures LiveId(l) == LiveId(l') && Kept(l) <= Kept(l')
    ensures forall i | |Kept(l)| <= i < |Kept(l')| :: since <= Kept(l')[i].at
  {
    assert l'.log[..|l.log|] == l.log;
  }

  lemma AppendGrows(r: seq<Life>, t: Table, now: nat, ip: string, rec: string)
    requires forall i | 0 <= i < |r| :: r[i].log != []
    ensures RingGrows(r, RingAppend(r, t, now, ip, rec), now) && RingGrows(r, r, now)
  {
  }

  lemma StepGrows(cfg: Config, f: Fleet, e: Event, se: nat)
    requires WellFormed(cfg.limits) && FleetOk(cfg, f) && Fits(f, e) && se < |f.engines|
    ensures |Step(cfg, f, e).engines| == |f.engines| && f.now <= Step(cfg, f, e).now
    ensures RingGrows(f.engines[se].ring, Step(cfg, f, e).engines[se].ring, f.now)
  {
    var g := f.engines[se];
    assert EngineOk(cfg, f.now, g);
    AppendGrows(g.ring, g.table, f.now, "", "");
    if e.Response? && e.se == se {
      AppendGrows(g.ring, g.table, f.now, g.inflight[e.i].ip, RecordOf(cfg, f.now, g.inflight[e.i], e.reply));
    }
  }

  ghost predicate FleetGrows(f: Fleet, f': Fleet) {
    && |f.engines| == |f'.engines| && f.now <= f'.now
    && forall i | 0 <= i < |f.engines| :: RingGrows(f.engines[i].ring, f'.engines[i].ring, f.now)
  }

  lemma NextGrows(cfg: Config, states: seq<Fleet>, events: seq<Event>, i: nat)
    requires WellFormed(cfg.limits) && IsRun(cfg, states, events) && i < |events| && FleetOk(cfg, states[i])
    ensures FleetGrows(states[i], states[i + 1])
  {
    assert Fits(states[i], events[i]) && states[i + 1] == Step(cfg, states[i], events[i]);
    EngineCount(cfg, states[i], events[i]);
    forall se | 0 <= se < |states[i].engines|
      ensures RingGrows(states[i].engines[se].ring, states[i + 1].engines[se].ring, states[i].now)
    {
      StepGrows(cfg, states[i], events[i], se);
    }
  }

  lemma EngineCount(cfg: Config, f: Fleet, e: Event)
    requires WellFormed(cfg.limits) && Fits(f, e)
    ensures |Step(cfg, f, e).engines| == |f.engines| && f.now <= Step(cfg, f, e).now
  {
  }

  lemma LifeGrowsOn(l: Life, m: Life, n: Life, since: nat, later: nat)
    requires LifeGrows(l, m, since) && LifeGrows(m, n, later) && since <= later
    ensures LifeGrows(l, n, since)
  {
    assert n.log[..|m.log|] == m.log;
    forall i | |l.log| <= i < |n.log| ensures since <= n.log[i].at {
      if i < |m.log| {
        assert n.log[i] == m.log[i];
      }
    }
  }

  lemma RingGrowsOn(r: seq<Life>, s: seq<Life>, t: seq<Life>, since: nat, later: nat)
    requires RingGrows(r, s, since) && RingGrows(s, t, later) && since <= later
    ensures RingGrows(r, t, since)
  {
    forall i | 0 <= i < |r| ensures LifeGrows(r[i], t[i], since) {
      LifeGrowsOn(r[i], s[i], t[i], since, later);
    }
    forall i, j | |r| <= i < |t| && 0 <= j < |t[i].log| ensures since <= t[i].log[j].at {
      if i < |s| {
        assert LifeGrows(s[i], t[i], later);
        if j < |s[i].log| {
          assert t[i].log[j] == s[i].log[j];
        }
      }
    }
  }

  lemma GrowsNot(cfg: Config, f: Fleet)
    requires WellFormed(cfg.limits) && FleetOk(cfg, f)
    ensures FleetGrows(f, f)
  {
    forall i | 0 <= i < |f.engines| ensures RingGrows(f.engines[i].ring, f.engines[i].ring, f.now) {
      assert EngineOk(cfg, f.now, f.engines[i]);
      AppendGrows(f.engines[i].ring, map[], f.now, "", "");
    }
  }

  lemma GrowsNext(cfg: Config, states: seq<Fleet>, events: seq<Event>, i: nat, j: nat)
    requires WellFormed(cfg.limits) && IsRun(cfg, states, events) && i <= j < |events|
    requires FleetOk(cfg, states[j]) && FleetGrows(states[i], states[j])
    ensures FleetGrows(states[i], states[j + 1])
  {
    NextGrows(cfg, states, events, j);
    GrowsOn(states[i], states[j], states[j + 1]);
  }

  /** Between any two states of a run every ring has grown, by records no older than
      the first of them. */
  lemma RunGrows(cfg: Config, states: seq<Fleet>, events: seq<Event>, i: nat, j: nat)
    requires Sound(cfg) && IsRun(cfg, states, events) && i <= j < |states|
    ensures FleetGrows(states[i], states[j])
  {
    AlwaysOk(cfg, states, events, i);
    GrowsNot(cfg, states[i]);
    forall k | i <= k < j ensures FleetGrows(states[i], states[k]) ==> FleetGrows(states[i], states[k + 1]) {
      if FleetGrows(states[i], states[k]) {
        AlwaysOk(cfg, states, events, k);
        GrowsNext(cfg, states, events, i, k);
      }
    }
    GrowsAlong(states, i, j);
  }

  lemma {:induction false} GrowsAlong(states: seq<Fleet>, i: nat, j: nat)
    requires i <= j < |states| && FleetGrows(states[i], states[i])
    requires forall k | i <= k < j :: FleetGrows(states[i], states[k]) ==> FleetGrows(states[i], states[k + 1])
    ensures FleetGrows(states[i], states[j])
  {
    if i < j {
      GrowsAlong(states, i, j - 1);
    }
  }

  lemma GrowsOn(f: Fleet, g: Fleet, h: Fleet)
    requires FleetGrows(f, g) && FleetGrows(g, h)
    ensures FleetGrows(f, h)
  {
    forall i | 0 <= i < |f.engines| ensures RingGrows(f.engines[i].ring, h.engines[i].ring, f.now) {
      RingGrowsOn(f.engines[i].ring, g.engines[i].ring, h.engines[i].ring, f.now, g.now);
    }
  }

  // ---------- What the collector knows ----------

  predicate IsLife(es: seq<Engine>, se: nat, i: nat) { se < |es| && i < |es[se].ring| }

  function LifeAt(es: seq<Engine>, se: nat, i: nat): Life
    requires IsLife(es, se, i)
  {
    es[se].ring[i]
  }

  /** No two engines are read under the same id. */
  ghost predicate Apart(es: seq<Engine>) {
    forall se, i, se', i' | IsLife(es, se, i) && IsLife(es, se', i') && se != se' ::
      LiveId(LifeAt(es, se, i)) != LiveId(LifeAt(es, se', i'))
  }

  /** Everything received from a life is a record it kept, under its own number. */
  ghost predicate FollowOk(fo: Follow, l: Life) {
    && Chained(fo.polls, 0, fo.cursor)
    && fo.cursor <= |Kept(l)|
    && forall q, rec | (q, rec) in Delivered(fo.polls) :: 1 <= q <= fo.cursor && rec == Kept(l)[q - 1].rec
  }

  ghost predicate FollowedAt(es: seq<Engine>, c: Collector, inst: string, se: nat, i: nat) {
    && inst in c.follows && IsLife(es, se, i)
    && LiveId(LifeAt(es, se, i)) == inst && FollowOk(c.follows[inst], LifeAt(es, se, i))
  }

  ghost predicate Known(es: seq<Engine>, c: Collector) {
    forall inst | inst in c.follows :: exists se, i :: FollowedAt(es, c, inst, se, i)
  }

  ghost predicate NoRepeats(h: seq<Receipt>) {
    forall i, j | 0 <= i < j < |h| :: h[i].inst != h[j].inst || h[i].number != h[j].number
  }

  /** The history is what the polls of each instance delivered. */
  ghost predicate Delivers(c: Collector, r: Receipt) {
    r.inst in c.follows && (r.number, r.rec) in Delivered(c.follows[r.inst].polls)
  }

  ghost predicate HistoryOk(c: Collector) {
    && NoRepeats(c.history)
    && (forall r :: r in c.history <==> Delivers(c, r))
  }

  ghost predicate LedgerOk(es: seq<Engine>, c: Collector) {
    Known(es, c) && HistoryOk(c)
  }

  // ---------- Steps of the engines ----------

  lemma GrowthKeepsFollowed(f: Fleet, f': Fleet, c: Collector, inst: string, se: nat, i: nat)
    requires FleetGrows(f, f') && FollowedAt(f.engines, c, inst, se, i)
    ensures FollowedAt(f'.engines, c, inst, se, i)
  {
    assert RingGrows(f.engines[se].ring, f'.engines[se].ring, f.now);
    KeptMonotone(LifeAt(f.engines, se, i), LifeAt(f'.engines, se, i), f.now);
  }

  lemma GrowthKeepsKnown(f: Fleet, f': Fleet, c: Collector)
    requires FleetGrows(f, f') && Known(f.engines, c)
    ensures Known(f'.engines, c)
  {
    forall inst | inst in c.follows ensures exists se, i :: FollowedAt(f'.engines, c, inst, se, i) {
      var se, i :| FollowedAt(f.engines, c, inst, se, i);
      GrowthKeepsFollowed(f, f', c, inst, se, i);
    }
  }

  lemma ApartBefore(f: Fleet, f': Fleet)
    requires FleetGrows(f, f') && Apart(f'.engines)
    ensures Apart(f.engines)
  {
    var es, es' := f.engines, f'.engines;
    forall se: nat, i: nat, se': nat, i': nat | IsLife(es, se, i) && IsLife(es, se', i') && se != se'
      ensures LiveId(LifeAt(es, se, i)) != LiveId(LifeAt(es, se', i'))
    {
      assert RingGrows(es[se].ring, es'[se].ring, f.now) && RingGrows(es[se'].ring, es'[se'].ring, f.now);
      KeptMonotone(LifeAt(es, se, i), LifeAt(es', se, i), f.now);
      KeptMonotone(LifeAt(es, se', i'), LifeAt(es', se', i'), f.now);
      assert IsLife(es', se, i) && IsLife(es', se', i');
    }
  }

  // ---------- A drain ----------

  lemma SlotIsKept(l: Life, q: nat)
    requires 1 <= q <= |Kept(l)|
    ensures q <= |Slots(l)| && Slots(l)[q - 1] == Kept(l)[q - 1]
  {
  }

  /** A page of an engine holds records its life kept. */
  lemma PageIsKept(r: seq<Life>, t: Table, now: nat, after: nat, want: int, p: Page)
    requires RingInv(r, t, now) && IsPage(t, after, want, p) && p.inst != "" && after <= p.head
    ensures SEQ_KEY in t && r != [] && p.inst == LiveId(Last(r)) && p.head == |Kept(Last(r))|
    ensures forall q, rec | (q, rec) in p.records :: after < q <= p.next && rec == Kept(Last(r))[q - 1].rec
  {
    HeadOfRing(r, t, now);
    forall q, rec | (q, rec) in p.records ensures after < q <= p.next && rec == Kept(Last(r))[q - 1].rec {
      LiveInMembers(t, ScanStart(after, p.head), p.next, q, rec);
      SlotIsKept(Last(r), q);
    }
  }

  /** The id is that of one life, the one now on. */
  ghost predicate OnlyLife(es: seq<Engine>, se: nat, inst: string) {
    && se < |es| && es[se].ring != [] && inst == LiveId(Last(es[se].ring))
    && forall se', i' | IsLife(es, se', i') && LiveId(LifeAt(es, se', i')) == inst ::
         se' == se && i' == |es[se].ring| - 1
  }

  lemma LiveIdIsOnly(es: seq<Engine>, now: nat, se: nat)
    requires se < |es| && es[se].ring != [] && RingInv(es[se].ring, es[se].table, now) && Apart(es)
    ensures OnlyLife(es, se, LiveId(Last(es[se].ring)))
  {
    forall se', i' | IsLife(es, se', i') && LiveId(LifeAt(es, se', i')) == LiveId(Last(es[se].ring))
      ensures se' == se && i' == |es[se].ring| - 1
    {
      SameLife(es, now, se, se', i');
    }
  }

  /** The cursor the collector holds for an instance is one its engine handed out. */
  lemma CursorWithin(es: seq<Engine>, c: Collector, se: nat, inst: string)
    requires OnlyLife(es, se, inst) && Known(es, c)
    ensures FollowOk(Follow(CursorOf(c, inst), PollsOf(c, inst)), Last(es[se].ring))
  {
    if inst in c.follows {
      var se', i' :| FollowedAt(es, c, inst, se', i');
      FollowedLast(es, c, se, inst, se', i');
    } else {
      NothingYet(Last(es[se].ring));
    }
  }

  lemma NothingYet(l: Life)
    ensures FollowOk(Follow(0, []), l)
  {
  }

  lemma FollowedLast(es: seq<Engine>, c: Collector, se: nat, inst: string, se': nat, i': nat)
    requires OnlyLife(es, se, inst) && FollowedAt(es, c, inst, se', i')
    ensures FollowOk(Follow(CursorOf(c, inst), PollsOf(c, inst)), Last(es[se].ring))
  {
    assert LifeAt(es, se', i') == Last(es[se].ring);
    assert c.follows[inst] == Follow(CursorOf(c, inst), PollsOf(c, inst));
  }

  /** A live id names one life. */
  lemma SameLife(es: seq<Engine>, now: nat, se: nat, se': nat, i': nat)
    requires se < |es| && es[se].ring != [] && RingInv(es[se].ring, es[se].table, now)
    requires IsLife(es, se', i') && LiveId(LifeAt(es, se', i')) == LiveId(Last(es[se].ring)) && Apart(es)
    ensures se' == se && i' == |es[se].ring| - 1
  {
    var last := |es[se].ring| - 1;
    assert IsLife(es, se, last) && LifeAt(es, se, last) == Last(es[se].ring);
    assert se' == se;
    if i' < last {
      IdsNeverRepeat(es[se].ring, es[se].table, now, i', last);
    }
  }

  lemma ChainGrows(fo: Follow, t: Table, want: int, p: Page)
    requires Chained(fo.polls, 0, fo.cursor) && IsPage(t, fo.cursor, want, p) && fo.cursor <= p.head
    ensures
      var polls' := fo.polls + [Poll(t, fo.cursor, want, p)];
      && Chained(polls', 0, p.next)
      && Delivered(polls') == Delivered(fo.polls) + p.records
  {
    var polls' := fo.polls + [Poll(t, fo.cursor, want, p)];
    assert polls'[..|polls'| - 1] == fo.polls;
  }

  /** Adding a page to what is known of a life. */
  lemma FollowNext(l: Life, fo: Follow, t: Table, want: int, p: Page)
    requires FollowOk(fo, l) && IsPage(t, fo.cursor, want, p) && p.head == |Kept(l)|
    requires forall q, rec | (q, rec) in p.records :: fo.cursor < q <= p.next && rec == Kept(l)[q - 1].rec
    ensures FollowOk(Follow(p.next, fo.polls + [Poll(t, fo.cursor, want, p)]), l)
  {
    ChainGrows(fo, t, want, p);
    PageAccounts(t, fo.cursor, want, p);
  }

  /** Receipts of one page after those of the pages before it. */
  lemma RepeatFree(h: seq<Receipt>, inst: string, rs: seq<(nat, string)>, cursor: nat, next: nat)
    requires NoRepeats(h) && (forall r | r in h && r.inst == inst :: r.number <= cursor) && Ascending(rs, cursor, next)
    ensures NoRepeats(h + Receipts(inst, rs))
  {
    var more := Receipts(inst, rs);
    var all := h + more;
    forall i, j | 0 <= i < j < |all| ensures all[i].inst != all[j].inst || all[i].number != all[j].number {
      if i < |h| <= j {
        assert h[i] in h && all[j] == more[j - |h|];
      } else if |h| <= i {
        assert all[i] == more[i - |h|] && all[j] == more[j - |h|];
      }
    }
  }

  lemma HistoryNext(c: Collector, t: Table, want: int, p: Page)
    requires HistoryOk(c) && p.inst != ""
    requires
      var fo := Follow(CursorOf(c, p.inst), PollsOf(c, p.inst));
      && Chained(fo.polls, 0, fo.cursor) && IsPage(t, fo.cursor, want, p) && fo.cursor <= p.head
      && forall q, rec | (q, rec) in Delivered(fo.polls) :: q <= fo.cursor
    ensures HistoryOk(Collect(c, t, CursorOf(c, p.inst), want, p))
  {
    var fo := Follow(CursorOf(c, p.inst), PollsOf(c, p.inst));
    var c' := Collect(c, t, CursorOf(c, p.inst), want, p);
    PageAccounts(t, fo.cursor, want, p);
    forall r | r in c.history && r.inst == p.inst ensures r.number <= fo.cursor {
      assert Delivers(c, r);
    }
    RepeatFree(c.history, p.inst, p.records, fo.cursor, p.next);
    ChainGrows(fo, t, want, p);
    forall r ensures r in c'.history <==> Delivers(c', r) {
      ReceiptIn(p.inst, p.records, r);
      NextDelivers(c, c', p, r);
    }
  }

  lemma NextDelivers(c: Collector, c': Collector, p: Page, r: Receipt)
    requires p.inst in c'.follows && c'.follows == c.follows[p.inst := c'.follows[p.inst]]
    requires Delivered(c'.follows[p.inst].polls) == Delivered(PollsOf(c, p.inst)) + p.records
    ensures Delivers(c', r) <==> Delivers(c, r) || (r.inst == p.inst && (r.number, r.rec) in p.records)
  {
    if r.inst == p.inst && p.inst !in c.follows {
      assert Delivered(PollsOf(c, p.inst)) == [];
    }
  }

  lemma ReceiptIn(inst: string, rs: seq<(nat, string)>, r: Receipt)
    ensures r in Receipts(inst, rs) <==> r.inst == inst && (r.number, r.rec) in rs
  {
    var receipts := Receipts(inst, rs);
    if r.inst == inst && (r.number, r.rec) in rs {
      var i :| 0 <= i < |rs| && rs[i] == (r.number, r.rec);
      assert receipts[i] == r;
    }
  }

  /** A page is the same for every cursor that starts it at the same number. */
  lemma SamePage(t: Table, after: int, want: int, p: Page)
    requires IsPage(t, after, want, p)
    ensures IsPage(t, Cursor(after, p.head), want, p) && Cursor(after, p.head) <= p.head
  {
  }

  lemma UseKeeps(es: seq<Engine>, now: nat, c: Collector, se: nat, want: int, p: Page)
    requires se < |es| && RingInv(es[se].ring, es[se].table, now) && Apart(es) && LedgerOk(es, c)
    requires p.inst != "" && IsPage(es[se].table, CursorOf(c, p.inst), want, p) && CursorOf(c, p.inst) <= p.head
    ensures LedgerOk(es, Collect(c, es[se].table, CursorOf(c, p.inst), want, p))
  {
    var e, cursor := es[se], CursorOf(c, p.inst);
    PageIsKept(e.ring, e.table, now, cursor, want, p);
    LiveIdIsOnly(es, now, se);
    CursorWithin(es, c, se, p.inst);
    UsePage(es, c, se, want, p);
  }

  lemma UsePage(es: seq<Engine>, c: Collector, se: nat, want: int, p: Page)
    requires se < |es| && es[se].ring != [] && LedgerOk(es, c) && p.inst != ""
    requires p.inst == LiveId(Last(es[se].ring)) && p.head == |Kept(Last(es[se].ring))|
    requires
      var fo := Follow(CursorOf(c, p.inst), PollsOf(c, p.inst));
      && FollowOk(fo, Last(es[se].ring)) && IsPage(es[se].table, fo.cursor, want, p)
      && forall q, rec | (q, rec) in p.records ::
           fo.cursor < q <= p.next && rec == Kept(Last(es[se].ring))[q - 1].rec
    ensures LedgerOk(es, Collect(c, es[se].table, CursorOf(c, p.inst), want, p))
  {
    FollowNext(Last(es[se].ring), Follow(CursorOf(c, p.inst), PollsOf(c, p.inst)), es[se].table, want, p);
    HistoryNext(c, es[se].table, want, p);
    KnownNext(es, c, se, es[se].table, want, p);
  }

  /** What is collected from a usable page does not depend on the cursor it was asked
      with. */
  lemma CollectAt(c: Collector, t: Table, after: int, want: int, p: Page)
    requires Usable(c, after, p)
    ensures Collect(c, t, after, want, p) == Collect(c, t, CursorOf(c, p.inst), want, p)
  {
  }

  lemma DrainKeeps(cfg: Config, f: Fleet, se: nat, after: int, want: int, p: Page)
    requires WellFormed(cfg.limits) && FleetOk(cfg, f) && se < |f.engines| && Apart(f.engines)
    requires LedgerOk(f.engines, f.collector) && IsPage(f.engines[se].table, after, want, p)
    ensures LedgerOk(f.engines, Collect(f.collector, f.engines[se].table, after, want, p))
  {
    if Usable(f.collector, after, p) {
      assert EngineOk(cfg, f.now, f.engines[se]);
      SamePage(f.engines[se].table, after, want, p);
      CollectAt(f.collector, f.engines[se].table, after, want, p);
      UseKeeps(f.engines, f.now, f.collector, se, want, p);
    }
  }

  lemma KnownNext(es: seq<Engine>, c: Collector, se: nat, t: Table, want: int, p: Page)
    requires Known(es, c) && p.inst != "" && se < |es| && es[se].ring != [] && LiveId(Last(es[se].ring)) == p.inst
    requires
      var fo := Follow(CursorOf(c, p.inst), PollsOf(c, p.inst));
      FollowOk(Follow(p.next, fo.polls + [Poll(t, fo.cursor, want, p)]), Last(es[se].ring))
    ensures Known(es, Collect(c, t, CursorOf(c, p.inst), want, p))
  {
    var fo := Follow(p.next, PollsOf(c, p.inst) + [Poll(t, CursorOf(c, p.inst), want, p)]);
    NowFollowed(es, c, Collect(c, t, CursorOf(c, p.inst), want, p), se, p.inst, fo);
  }

  lemma NowFollowed(es: seq<Engine>, c: Collector, c': Collector, se: nat, inst: string, fo: Follow)
    requires Known(es, c) && se < |es| && es[se].ring != [] && LiveId(Last(es[se].ring)) == inst
    requires FollowOk(fo, Last(es[se].ring)) && c'.follows == c.follows[inst := fo]
    ensures Known(es, c')
  {
    forall other | other in c'.follows ensures exists se', i' :: FollowedAt(es, c', other, se', i') {
      if other == inst {
        assert LifeAt(es, se, |es[se].ring| - 1) == Last(es[se].ring);
        assert FollowedAt(es, c', inst, se, |es[se].ring| - 1);
      } else {
        var se', i' :| FollowedAt(es, c, other, se', i');
        StillFollowed(es, c, c', other, se', i');
      }
    }
  }

  lemma StillFollowed(es: seq<Engine>, c: Collector, c': Collector, inst: string, se: nat, i: nat)
    requires FollowedAt(es, c, inst, se, i) && inst in c'.follows && c'.follows[inst] == c.follows[inst]
    ensures FollowedAt(es, c', inst, se, i)
  {
  }

  // ---------- Every run ----------

  lemma LedgerStep(cfg: Config, states: seq<Fleet>, events: seq<Event>, i: nat)
    requires Sound(cfg) && IsRun(cfg, states, events) && i < |events| && FleetOk(cfg, states[i])
    requires LedgerOk(states[i].engines, states[i].collector) && Apart(states[i].engines)
    ensures LedgerOk(states[i + 1].engines, states[i + 1].collector)
  {
    var f, e := states[i], events[i];
    if e.Drained? {
      DrainKeeps(cfg, f, e.se, e.after, e.want, e.page);
    } else {
      NextGrows(cfg, states, events, i);
      GrowthKeepsKnown(f, states[i + 1], f.collector);
    }
  }

  lemma ApartEarlier(cfg: Config, states: seq<Fleet>, events: seq<Event>, i: nat)
    requires WellFormed(cfg.limits) && IsRun(cfg, states, events) && i < |events| && FleetOk(cfg, states[i])
    requires Apart(states[i + 1].engines)
    ensures Apart(states[i].engines)
  {
    NextGrows(cfg, states, events, i);
    ApartBefore(states[i], states[i + 1]);
  }

  ghost predicate Ledgered(f: Fleet) { Apart(f.engines) ==> LedgerOk(f.engines, f.collector) }

  lemma LedgerNext(cfg: Config, states: seq<Fleet>, events: seq<Event>, i: nat)
    requires Sound(cfg) && IsRun(cfg, states, events) && i < |events| && Ledgered(states[i])
    ensures Ledgered(states[i + 1])
  {
    if Apart(states[i + 1].engines) {
      AlwaysOk(cfg, states, events, i);
      ApartEarlier(cfg, states, events, i);
      LedgerStep(cfg, states, events, i);
    }
  }

  lemma AlwaysLedger(cfg: Config, states: seq<Fleet>, events: seq<Event>, n: nat)
    requires Sound(cfg) && IsRun(cfg, states, events) && n < |states| && Apart(states[n].engines)
    ensures LedgerOk(states[n].engines, states[n].collector)
  {
    assert Ledgered(states[0]);
    forall i | 0 <= i < n ensures Ledgered(states[i]) ==> Ledgered(states[i + 1]) {
      if Ledgered(states[i]) {
        LedgerNext(cfg, states, events, i);
      }
    }
    LedgeredOn(states, n);
  }

  lemma {:induction false} LedgeredOn(states: seq<Fleet>, n: nat)
    requires n < |states| && Ledgered(states[0])
    requires forall i | 0 <= i < n :: Ledgered(states[i]) ==> Ledgered(states[i + 1])
    ensures Ledgered(states[n])
  {
    if n > 0 {
      LedgeredOn(states, n - 1);
    }
  }

  /** In every run in which engines are read under different ids, no (instance, number)
      is received twice; what is received under a number is the record a life of that
      instance kept under it; and every number up to a cursor was delivered, counted
      as lost or had expired when scanned. */
  lemma ReceivedExactlyOnce(cfg: Config, states: seq<Fleet>, events: seq<Event>, n: nat)
    requires Sound(cfg) && IsRun(cfg, states, events) && n < |states| && Apart(states[n].engines)
    ensures
      var c, es := states[n].collector, states[n].engines;
      && NoRepeats(c.history)
      && (forall r | r in c.history :: exists se, i :: IsLife(es, se, i) && WasKept(LifeAt(es, se, i), r))
      && (forall inst | inst in c.follows ::
            var fo := c.follows[inst];
            && Chained(fo.polls, 0, fo.cursor)
            && fo.cursor == LostTotal(fo.polls) + |Delivered(fo.polls)| + ExpiredTotal(fo.polls))
  {
    AlwaysLedger(cfg, states, events, n);
    var c, es := states[n].collector, states[n].engines;
    forall r | r in c.history ensures exists se, i :: IsLife(es, se, i) && WasKept(LifeAt(es, se, i), r) {
      assert Delivers(c, r);
      var se, i :| FollowedAt(es, c, r.inst, se, i);
      assert WasKept(LifeAt(es, se, i), r);
    }
    forall inst | inst in c.follows
      ensures
        var fo := c.follows[inst];
        && Chained(fo.polls, 0, fo.cursor)
        && fo.cursor == LostTotal(fo.polls) + |Delivered(fo.polls)| + ExpiredTotal(fo.polls)
    {
      var se, i :| FollowedAt(es, c, inst, se, i);
      ExactlyOnce(c.follows[inst].polls, 0, c.follows[inst].cursor);
    }
  }

  ghost predicate WasKept(l: Life, r: Receipt) {
    LiveId(l) == r.inst && 1 <= r.number <= |Kept(l)| && r.rec == Kept(l)[r.number - 1].rec
  }

  // ---------- Nothing is missed by a collector that keeps up ----------

  /** The number has been received. */
  ghost predicate Got(c: Collector, inst: string, q: nat) {
    exists i :: 0 <= i < |c.history| && c.history[i].inst == inst && c.history[i].number == q
  }

  ghost predicate Complete(c: Collector, inst: string) {
    forall q: nat | 1 <= q <= CursorOf(c, inst) :: Got(c, inst, q)
  }

  /** All that is beyond the cursor can still be read in one scan. */
  ghost predicate Fresh(l: Life, cursor: nat, now: nat) {
    |Kept(l)| <= cursor + SCAN_MAX && forall q: nat | cursor < q <= |Kept(l)| :: Young(l, q, now)
  }

  /** If the event is a poll the collector can use, everything it has not yet received
      of the instance is fresh. */
  ghost predicate Timely(f: Fleet, e: Event, inst: string) {
    e.Drained? && e.se < |f.engines| && e.page.inst == inst && Usable(f.collector, e.after, e.page) ==>
      f.engines[e.se].ring != [] && Fresh(Last(f.engines[e.se].ring), CursorOf(f.collector, inst), f.now)
  }

  /** A page asked in time skips nothing. */
  lemma FreshPage(r: seq<Life>, t: Table, now: nat, cursor: nat, want: int, p: Page, q: nat)
    requires RingInv(r, t, now) && IsPage(t, cursor, want, p) && p.inst != "" && cursor <= p.head
    requires r != [] && Fresh(Last(r), cursor, now) && cursor < q <= p.next
    ensures exists i :: 0 <= i < |p.records| && p.records[i].0 == q
  {
    PageIsKept(r, t, now, cursor, want, p);
    assert Young(Last(r), q, now) && RecKey(q) in t;
    var rec := t[RecKey(q)].value;
    LiveInMembers(t, ScanStart(cursor, p.head), p.next, q, rec);
    var i :| 0 <= i < |p.records| && p.records[i] == (q, rec);
  }

  lemma GotMore(c: Collector, t: Table, after: int, want: int, p: Page, inst: string, q: nat)
    requires Got(c, inst, q)
    ensures Got(Collect(c, t, after, want, p), inst, q)
  {
    var i :| 0 <= i < |c.history| && c.history[i].inst == inst && c.history[i].number == q;
    assert Collect(c, t, after, want, p).history[i] == c.history[i];
  }

  lemma GotNow(c: Collector, t: Table, after: int, want: int, p: Page, q: nat, i: nat)
    requires Usable(c, after, p) && i < |p.records| && p.records[i].0 == q
    ensures Got(Collect(c, t, after, want, p), p.inst, q)
  {
    var c' := Collect(c, t, after, want, p);
    assert c'.history[|c.history| + i] == Receipt(p.inst, p.records[i].0, p.records[i].1);
  }

  lemma DrainCompletes(r: seq<Life>, t: Table, now: nat, c: Collector, after: int, want: int, p: Page)
    requires RingInv(r, t, now) && IsPage(t, after, want, p) && Usable(c, after, p)
    requires r != [] && Fresh(Last(r), CursorOf(c, p.inst), now) && Complete(c, p.inst)
    ensures Complete(Collect(c, t, after, want, p), p.inst)
  {
    SamePage(t, after, want, p);
    forall q: nat | 1 <= q <= p.next ensures Got(Collect(c, t, after, want, p), p.inst, q) {
      if q <= CursorOf(c, p.inst) {
        GotMore(c, t, after, want, p, p.inst, q);
      } else {
        FreshPage(r, t, now, CursorOf(c, p.inst), want, p, q);
        var i :| 0 <= i < |p.records| && p.records[i].0 == q;
        GotNow(c, t, after, want, p, q, i);
      }
    }
  }

  lemma OthersComplete(c: Collector, t: Table, after: int, want: int, p: Page, inst: string)
    requires Complete(c, inst) && !(Usable(c, after, p) && p.inst == inst)
    ensures Complete(Collect(c, t, after, want, p), inst)
  {
    forall q: nat | 1 <= q <= CursorOf(c, inst) ensures Got(Collect(c, t, after, want, p), inst, q) {
      GotMore(c, t, after, want, p, inst, q);
    }
  }

  lemma CompleteStep(cfg: Config, states: seq<Fleet>, events: seq<Event>, i: nat, inst: string)
    requires Sound(cfg) && IsRun(cfg, states, events) && i < |events| && FleetOk(cfg, states[i])
    requires Timely(states[i], events[i], inst) && Complete(states[i].collector, inst)
    ensures Complete(states[i + 1].collector, inst)
  {
    var f, e := states[i], events[i];
    if e.Drained? {
      var g := f.engines[e.se];
      assert EngineOk(cfg, f.now, g);
      if Usable(f.collector, e.after, e.page) && e.page.inst == inst {
        DrainCompletes(g.ring, g.table, f.now, f.collector, e.after, e.want, e.page);
      } else {
        OthersComplete(f.collector, g.table, e.after, e.want, e.page, inst);
      }
    }
  }

  /** In every run in which an instance is always polled in time, every number up to
      its cursor has been received: none was lost, none had expired. */
  lemma {:induction false} NothingMissed(cfg: Config, states: seq<Fleet>, events: seq<Event>, n: nat, inst: string)
    requires Sound(cfg) && IsRun(cfg, states, events) && n < |states|
    requires forall i | 0 <= i < n :: Timely(states[i], events[i], inst)
    ensures Complete(states[n].collector, inst)
  {
    if n > 0 {
      NothingMissed(cfg, states, events, n - 1, inst);
      AlwaysOk(cfg, states, events, n - 1);
      CompleteStep(cfg, states, events, n - 1, inst);
    }
  }

  /** And once the cursor has reached the head, every record the life kept has been
      received, as it was kept. */
  lemma AllReceived(cfg: Config, states: seq<Fleet>, events: seq<Event>, n: nat, se: nat, i: nat)
    requires Sound(cfg) && IsRun(cfg, states, events) && n < |states| && Apart(states[n].engines)
    requires IsLife(states[n].engines, se, i)
    requires
      var l := LifeAt(states[n].engines, se, i);
      && (forall k | 0 <= k < n :: Timely(states[k], events[k], LiveId(l)))
      && CursorOf(states[n].collector, LiveId(l)) == |Kept(l)|
    ensures
      var l := LifeAt(states[n].engines, se, i);
      forall q | 0 <= q < |Kept(l)| :: Receipt(LiveId(l), q + 1, Kept(l)[q].rec) in states[n].collector.history
  {
    var es, c, l := states[n].engines, states[n].collector, LifeAt(states[n].engines, se, i);
    NothingMissed(cfg, states, events, n, LiveId(l));
    ReceivedExactlyOnce(cfg, states, events, n);
    AlwaysOk(cfg, states, events, n);
    assert EngineOk(cfg, states[n].now, es[se]);
    forall q | 0 <= q < |Kept(l)| ensures Receipt(LiveId(l), q + 1, Kept(l)[q].rec) in c.history {
      assert Got(c, LiveId(l), q + 1);
      ReceiptOf(es, c.history, states[n].now, se, i, q);
    }
  }

  lemma ReceiptOf(es: seq<Engine>, h: seq<Receipt>, now: nat, se: nat, i: nat, q: nat)
    requires IsLife(es, se, i) && Apart(es) && RingInv(es[se].ring, es[se].table, now) && q < |Kept(LifeAt(es, se, i))|
    requires exists k :: 0 <= k < |h| && h[k].inst == LiveId(LifeAt(es, se, i)) && h[k].number == q + 1
    requires forall r | r in h :: exists se', i' :: IsLife(es, se', i') && WasKept(LifeAt(es, se', i'), r)
    ensures Receipt(LiveId(LifeAt(es, se, i)), q + 1, Kept(LifeAt(es, se, i))[q].rec) in h
  {
    var l := LifeAt(es, se, i);
    var k :| 0 <= k < |h| && h[k].inst == LiveId(l) && h[k].number == q + 1;
    assert h[k] in h;
    var se', i' :| IsLife(es, se', i') && WasKept(LifeAt(es, se', i'), h[k]);
    OneLife(es, now, se, i, se', i');
    assert h[k] == Receipt(LiveId(l), q + 1, Kept(l)[q].rec);
  }

  /** Lives read under the same id are the same life. */
  lemma OneLife(es: seq<Engine>, now: nat, se: nat, i: nat, se': nat, i': nat)
    requires IsLife(es, se, i) && IsLife(es, se', i') && Apart(es) && RingInv(es[se].ring, es[se].table, now)
    requires LiveId(LifeAt(es, se, i)) == LiveId(LifeAt(es, se', i'))
    ensures se == se' && i == i'
  {
    assert se == se';
    if i < i' {
      IdsNeverRepeat(es[se].ring, es[se].table, now, i, i');
    } else if i' < i {
      IdsNeverRepeat(es[se].ring, es[se].table, now, i', i);
    }
  }

  /** Often enough: if all that a life had kept at one moment has been received, then
      less than a record's lifetime later everything beyond the cursor is young. */
  lemma PunctualIsYoung(
    cfg: Config, states: seq<Fleet>, events: seq<Event>, j: nat, k: nat, se: nat, cursor: nat, q: nat)
    requires Sound(cfg) && IsRun(cfg, states, events) && j <= k < |states| && se < |states[k].engines|
    requires states[k].now < states[j].now + RING_TTL && states[k].engines[se].ring != []
    requires
      var last := |states[k].engines[se].ring| - 1;
      IsLife(states[j].engines, se, last) ==> |Kept(LifeAt(states[j].engines, se, last))| <= cursor
    requires cursor < q <= |Kept(Last(states[k].engines[se].ring))|
    ensures Young(Last(states[k].engines[se].ring), q, states[k].now)
  {
    RunGrows(cfg, states, events, j, k);
    var r, r' := states[j].engines[se].ring, states[k].engines[se].ring;
    assert RingGrows(r, r', states[j].now);
    if |r'| <= |r| {
      assert IsLife(states[j].engines, se, |r'| - 1);
    }
    YoungSince(r, r', states[j].now, states[k].now, cursor, q);
  }

  lemma YoungSince(r: seq<Life>, r': seq<Life>, since: nat, now: nat, cursor: nat, q: nat)
    requires RingGrows(r, r', since) && r' != [] && now < since + RING_TTL
    requires |r'| == |r| ==> |Kept(Last(r))| <= cursor
    requires cursor < q <= |Kept(Last(r'))|
    ensures Young(Last(r'), q, now)
  {
    var l := Last(r');
    SlotIsKept(l, q);
    if |r'| == |r| {
      KeptMonotone(Last(r), l, since);
    } else {
      assert Kept(l)[q - 1] == l.log[if Colon(l) then q else q - 1];
    }
  }

  // ---------- When ids meet ----------

  /** A ring small enough for one page, nothing expired. */
  ghost predicate Whole(t: Table, head: nat, want: int) {
    1 <= head <= Cap(want) && forall q: nat | 1 <= q <= head :: RecKey(q) in t
  }

  lemma {:induction false} NoneDead(t: Table, lo: nat, hi: nat)
    requires 1 <= lo && forall q: nat | lo <= q <= hi :: RecKey(q) in t
    ensures DeadIn(t, lo, hi) == 0
  {
    if lo <= hi {
      NoneDead(t, lo, hi - 1);
    }
  }

  /** From the beginning, one poll takes the whole ring. */
  lemma WholePage(t: Table, want: int, p: Page, after: int)
    requires IsPage(t, after, want, p) && Whole(t, p.head, want) && Cursor(after, p.head) == 0
    ensures p.next == p.head && |p.records| == p.head && Ascending(p.records, 0, p.head)
    ensures exists i :: 0 <= i < |p.records| && p.records[i].0 == 1
  {
    LiveInCount(t, 1, p.next);
    NoneDead(t, 1, p.next);
    LiveInAscending(t, 1, p.next);
    assert p.next == p.head;
    var rec := t[RecKey(1)].value;
    LiveInMembers(t, 1, p.next, 1, rec);
    var i :| 0 <= i < |p.records| && p.records[i] == (1, rec);
  }

  /** The one guard under which a page neither repeats nor skips: it delivers exactly
      the numbers after the cursor held if and only if it starts there. */
  lemma GuardExactly(t: Table, after: int, want: int, p: Page, held: nat)
    requires IsPage(t, after, want, p) && Whole(t, p.head, want) && held <= p.head
    ensures (forall q: nat :: (1 <= q <= p.next && held < q) <==> PageHas(p, q)) <==> Cursor(after, p.head) == held
  {
    var a := Cursor(after, p.head);
    forall q: nat ensures PageHas(p, q) <==> a < q <= p.next {
      PageDelivers(t, after, want, p, q);
    }
    PageReaches(t, after, want, p);
    if a < held {
      assert PageHas(p, a + 1);
    } else if held < a {
      assert !PageHas(p, held + 1);
    }
  }

  ghost predicate PageHas(p: Page, q: nat) {
    exists i :: 0 <= i < |p.records| && p.records[i].0 == q
  }

  lemma PageReaches(t: Table, after: int, want: int, p: Page)
    requires IsPage(t, after, want, p) && Whole(t, p.head, want)
    ensures p.next == p.head
  {
    LiveInCount(t, ScanStart(Cursor(after, p.head), p.head), p.next);
  }

  lemma PageDelivers(t: Table, after: int, want: int, p: Page, q: nat)
    requires IsPage(t, after, want, p) && Whole(t, p.head, want)
    ensures PageHas(p, q) <==> Cursor(after, p.head) < q <= p.next
  {
    var lo := ScanStart(Cursor(after, p.head), p.head);
    if i :| 0 <= i < |p.records| && p.records[i].0 == q {
      LiveInMembers(t, lo, p.next, q, p.records[i].1);
    }
    if Cursor(after, p.head) < q <= p.next {
      var rec := t[RecKey(q)].value;
      LiveInMembers(t, lo, p.next, q, rec);
      var i :| 0 <= i < |p.records| && p.records[i] == (q, rec);
    }
  }

  /** What two polls, the first on a collector that knows nothing, leave. */
  lemma TwoPolls(tA: Table, tB: Table, want: int, a: Page, b: Page)
    requires a.inst != "" && b.inst != "" && IsPage(tA, 0, want, a)
    requires
      var c1 := Collect(NOTHING, tA, 0, want, a);
      IsPage(tB, CursorOf(c1, b.inst), want, b)
    ensures
      var c1 := Collect(NOTHING, tA, 0, want, a);
      var c2 := Collect(c1, tB, CursorOf(c1, b.inst), want, b);
      && CursorOf(c1, b.inst) == (if a.inst == b.inst then a.next else 0)
      && c1.history == Receipts(a.inst, a.records)
      && (CursorOf(c1, b.inst) <= b.head ==>
            c2.history == Receipts(a.inst, a.records) + Receipts(b.inst, b.records))
      && (CursorOf(c1, b.inst) > b.head ==> c2.history == c1.history)
  {
    assert [] + Receipts(a.inst, a.records) == Receipts(a.inst, a.records);
  }

  const NOTHING := Collector(map[], [])

  lemma SweepApart(tA: Table, tB: Table, want: int, a: Page, b: Page)
    requires a.inst != b.inst && IsPage(tA, 0, want, a) && Whole(tA, a.head, want)
    requires IsPage(tB, 0, want, b) && Whole(tB, b.head, want)
    ensures
      var h := Receipts(a.inst, a.records) + Receipts(b.inst, b.records);
      |h| == a.head + b.head && NoRepeats(h)
  {
    WholePage(tA, want, a, 0);
    WholePage(tB, want, b, 0);
    ApartHistories(a, b);
  }

  lemma SweepSame(tA: Table, tB: Table, want: int, a: Page, b: Page)
    requires a.inst == b.inst && IsPage(tA, 0, want, a) && Whole(tA, a.head, want)
    requires IsPage(tB, a.head, want, b) && Whole(tB, b.head, want) && a.head <= b.head
    ensures |a.records| + |b.records| < a.head + b.head
  {
    WholePage(tA, want, a, 0);
    LiveInCount(tB, ScanStart(a.head, b.head), b.next);
  }

  /** The promise of neither double counting nor missing, for two rings swept one after
      the other, is kept if and only if they are read under different ids. With equal
      ids the second ring is skipped as far as the first one's cursor reaches. */
  lemma SweepExactly(tA: Table, tB: Table, want: int, a: Page, b: Page)
    requires IsPage(tA, 0, want, a) && Whole(tA, a.head, want) && a.inst != ""
    requires
      var c1 := Collect(NOTHING, tA, 0, want, a);
      IsPage(tB, CursorOf(c1, b.inst), want, b) && Whole(tB, b.head, want) && b.inst != ""
    ensures
      var c1 := Collect(NOTHING, tA, 0, want, a);
      var c2 := Collect(c1, tB, CursorOf(c1, b.inst), want, b);
      (|c2.history| == a.head + b.head && NoRepeats(c2.history)) <==> a.inst != b.inst
  {
    TwoPolls(tA, tB, want, a, b);
    WholePage(tA, want, a, 0);
    if a.inst != b.inst {
      SweepApart(tA, tB, want, a, b);
    } else if a.head <= b.head {
      SweepSame(tA, tB, want, a, b);
    }
  }

  /** Such rings are reachable: one client first metered on both engines in the same
      second. The record of the second engine is never received. */
  lemma SameClientMissed(now: nat, ip: string, r1: string, r2: string, want: int, a: Page, b: Page)
    requires now < Pow10(ID_MAX - 1) && ':' !in MintId(now, ip)
    requires IsPage(Append(map[], now, ip, r1), 0, want, a)
    requires
      var c1 := Collect(NOTHING, Append(map[], now, ip, r1), 0, want, a);
      IsPage(Append(map[], now, ip, r2), CursorOf(c1, b.inst), want, b)
    ensures
      var c1 := Collect(NOTHING, Append(map[], now, ip, r1), 0, want, a);
      var c2 := Collect(c1, Append(map[], now, ip, r2), CursorOf(c1, b.inst), want, b);
      c2.history == [Receipt(MintId(now, ip), 1, r1)] && CursorOf(c2, b.inst) == b.head == 1
  {
    var tA, tB := Append(map[], now, ip, r1), Append(map[], now, ip, r2);
    FirstRecord(now, ip, r1);
    FirstRecord(now, ip, r2);
    FirstPage(tA, now, ip, r1, want, a);
    TwoPolls(tA, tB, want, a, b);
    assert b.records == [];
  }

  lemma FirstRecord(now: nat, ip: string, rec: string)
    requires now < Pow10(ID_MAX - 1) && ':' !in MintId(now, ip)
    ensures
      var t := Append(map[], now, ip, rec);
      && ReadHead(t) == Head(MintId(now, ip), 1) && MintId(now, ip) != ""
      && RecKey(1) in t && t[RecKey(1)].value == rec
  {
    var t := Append(map[], now, ip, rec);
    AppendKeepsRing([], map[], now, ip, rec);
    AppendEntries(map[], now, ip, rec);
    HeadOfRing([Life(now, ip, [Stamped(now, rec)])], t, now);
  }

  lemma FirstPage(t: Table, now: nat, ip: string, rec: string, want: int, p: Page)
    requires ReadHead(t) == Head(MintId(now, ip), 1) && RecKey(1) in t && t[RecKey(1)].value == rec
    requires IsPage(t, 0, want, p)
    ensures p.inst == MintId(now, ip) && p.head == 1 && p.next == 1 && p.records == [(1, rec)]
  {
    assert LiveIn(t, 1, 0) == [];
    assert LiveIn(t, 1, 1) == [(1, rec)];
  }

  lemma ApartHistories(a: Page, b: Page)
    requires a.inst != b.inst && Ascending(a.records, 0, a.head) && Ascending(b.records, 0, b.head)
    ensures NoRepeats(Receipts(a.inst, a.records) + Receipts(b.inst, b.records))
  {
  }

  // ---------- Catching up ----------

  /** A page that starts from the cursor held moves the cursor to where it ends, further
      on unless the head was reached, and adds its records to what was received, in
      order; cursors of other instances stay. */
  lemma PollAdvances(c: Collector, t: Table, want: int, p: Page)
    requires IsPage(t, CursorOf(c, p.inst), want, p) && p.inst != "" && CursorOf(c, p.inst) <= p.head
    ensures
      var c' := Collect(c, t, CursorOf(c, p.inst), want, p);
      && CursorOf(c', p.inst) == p.next <= p.head
      && (CursorOf(c, p.inst) < p.head ==> CursorOf(c, p.inst) < CursorOf(c', p.inst))
      && Gained(c, c', p)
  {
    PageAccounts(t, CursorOf(c, p.inst), want, p);
    Collected(c, t, want, p);
  }

  /** So in a run, a drain asked with the cursor held is used. */
  lemma DrainAdvances(cfg: Config, states: seq<Fleet>, events: seq<Event>, n: nat)
    requires Sound(cfg) && IsRun(cfg, states, events) && n < |events| && events[n].Drained?
    requires
      var c, p := states[n].collector, events[n].page;
      p.inst != "" && events[n].after == CursorOf(c, p.inst) <= p.head
    ensures
      var c, c', p := states[n].collector, states[n + 1].collector, events[n].page;
      && CursorOf(c', p.inst) == p.next <= p.head
      && (CursorOf(c, p.inst) < p.head ==> CursorOf(c, p.inst) < CursorOf(c', p.inst))
      && Gained(c, c', p)
  {
    var f, e := states[n], events[n];
    assert Enabled(f, e) && states[n + 1] == Step(cfg, f, e);
    PollAdvances(f.collector, f.engines[e.se].table, e.want, e.page);
  }

  ghost predicate Received(h: seq<Receipt>, h': seq<Receipt>, inst: string, rs: seq<(nat, string)>) {
    && |h'| == |h| + |rs| && h <= h'
    && forall i | 0 <= i < |rs| :: h'[|h| + i] == Receipt(inst, rs[i].0, rs[i].1)
  }

  lemma ReceiptsReceived(h: seq<Receipt>, inst: string, rs: seq<(nat, string)>)
    ensures Received(h, h + Receipts(inst, rs), inst, rs)
  {
    var more := Receipts(inst, rs);
    assert forall i | 0 <= i < |rs| :: (h + more)[|h| + i] == more[i];
  }

  ghost predicate Gained(c: Collector, c': Collector, p: Page) {
    && Received(c.history, c'.history, p.inst, p.records)
    && forall inst | inst != p.inst :: CursorOf(c', inst) == CursorOf(c, inst)
  }

  lemma Collected(c: Collector, t: Table, want: int, p: Page)
    requires p.inst != "" && CursorOf(c, p.inst) <= p.head
    ensures var c' := Collect(c, t, CursorOf(c, p.inst), want, p); CursorOf(c', p.inst) == p.next && Gained(c, c', p)
  {
    ReceiptsReceived(c.history, p.inst, p.records);
  }

  /** Polls one after the other of an engine that has nothing new, each from the cursor
      held. */
  ghost predicate Polling(cs: seq<Collector>, ps: seq<Page>, t: Table, want: int) {
    && |cs| == |ps| + 1
    && forall i | 0 <= i < |ps| ::
         IsPage(t, CursorOf(cs[i], ps[i].inst), want, ps[i])
         && cs[i + 1] == Collect(cs[i], t, CursorOf(cs[i], ps[i].inst), want, ps[i])
  }

  /** Such polls come a number nearer to the head each, and reach it. */
  lemma {:induction false} CatchesUp(cs: seq<Collector>, ps: seq<Page>, t: Table, want: int, n: nat)
    requires Polling(cs, ps, t, want) && n < |cs|
    requires ReadHead(t).inst != "" && CursorOf(cs[0], ReadHead(t).inst) <= ReadHead(t).number
    ensures
      var h := ReadHead(t);
      var from, to := CursorOf(cs[0], h.inst), CursorOf(cs[n], h.inst);
      to <= h.number && (to == h.number || to >= from + n)
  {
    if n > 0 {
      CatchesUp(cs, ps, t, want, n - 1);
      var c, p := cs[n - 1], ps[n - 1];
      assert IsPage(t, CursorOf(c, p.inst), want, p);
      assert cs[n - 1 + 1] == Collect(c, t, CursorOf(c, p.inst), want, p);
      PollAdvances(c, t, want, p);
    }
  }
}
