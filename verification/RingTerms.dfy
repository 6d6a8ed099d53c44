/** The usage ring's terms in plain numbers: what a record says, how long it lasts, and
    what a drain answers to any cursor and any page size. */
module RingTerms {
  import opened Text
  import opened SeTable
  import opened UsageParse
  import opened UsageLedger
  import opened CarryProtocol
  import opened TokenCounters
  import opened Accounting

  // ---------- What a record says ----------

  /** A letter, a digit, or one of - . _ : / @ */
  predicate Allowed(c: char) {
    || 'a' <= c <= 'z' || 'A' <= c <= 'Z' || '0' <= c <= '9'
    || c in {'-', '.', '_', ':', '/', '@'}
  }

  /** A field keeps up to max characters: the allowed ones as they are, an underscore
      for each other one, and a dash for nothing. */
  ghost predicate Reduced(s: string, max: nat, out: string) {
    && (s == "" ==> out == "-")
    && (s != "" ==> |out| == (if |s| <= max then |s| else max))
    && (s != "" ==> forall i | 0 <= i < |out| :: out[i] == if Allowed(s[i]) then s[i] else '_')
  }

  lemma SafeReduces(s: string, max: nat)
    requires max >= 1
    ensures Reduced(s, max, Safe(s, max))
  {
  }

  /** The second of the response, the caller, the model, the tier, the prompt and the
      completion figure, the cached and the reasoning figure, how they were obtained,
      and the route, in this order. */
  ghost predicate Tells(f: seq<string>, now: nat, identity: string, u: Usage, tier: string, route: string) {
    && |f| == 10
    && f[0] == Dec(now) && Reduced(identity, 96, f[1]) && Reduced(u.model, 64, f[2]) && Reduced(tier, 32, f[3])
    && f[4] == Dec(u.tokens.prompt) && f[5] == Dec(u.tokens.completion)
    && f[6] == Dec(u.cached) && f[7] == Dec(u.reasoning)
    && (u.quality == Exact ==> f[8] == "exact") && (u.quality == Penalty ==> f[8] == "penalty")
    && Reduced(route, 64, f[9])
  }

  lemma FieldsTell(now: nat, identity: string, u: Usage, tier: string, route: string)
    ensures Tells(RecordFields(now, identity, u, tier, route), now, identity, u, tier, route)
  {
    SafeReduces(identity, 96);
    SafeReduces(u.model, 64);
    SafeReduces(tier, 32);
    SafeReduces(route, 64);
  }

  /** This is what a record tells when it is split at its pipes. */
  lemma RecordTells(cfg: Config, now: nat, who: Who, r: Reply)
    requires Recorded(r)
    ensures Tells(Split(RecordOf(cfg, now, who, r), '|'), now, who.identity, r.usage, r.tier, cfg.route)
  {
    RecordRoundTrip(now, who.identity, r.usage, r.tier, cfg.route);
    FieldsTell(now, who.identity, r.usage, r.tier, cfg.route);
  }

  // ---------- How long it lasts ----------

  /** A record appended at `now` is read for 300 seconds, the head for 86400, unless
      appended to again. */
  lemma RecordLasts(t: Table, now: nat, ip: string, rec: string, to: nat)
    ensures
      var n := ReadHead(t).number + 1;
      var t' := Expire(Append(t, now, ip, rec), to);
      && Lookup(t', "ai_urec:" + Dec(n)) == (if to < now + 300 then Some(rec) else None)
      && ("ai_useq" in t' <==> to < now + 86400)
  {
    AppendEntries(t, now, ip, rec);
  }

  /** The first record of a life mints the ring's id from the second of the response and
      the caller's address, cut to 40 characters, and is numbered 1. */
  lemma RecordMints(cfg: Config, now: nat, e: Engine, i: nat, r: Reply)
    requires Windowed(cfg.limits) && now < Pow10(39) && RingInv(e.ring, e.table, now)
    requires i < |e.inflight| && Recorded(r) && "ai_useq" !in e.table
    ensures
      var t := Responded(cfg, now, e, i, r).table;
      && "ai_useq" in t
      && exists id :: Reduced(Dec(now) + "-" + e.inflight[i].ip, 40, id) && t["ai_useq"].value == id + ":1"
  {
    var who := e.inflight[i];
    var t := ChargeAll(e.table, now, cfg.epoch, cfg.limits, who, r.usage.tokens);
    ChargeLeavesRing(e.table, now, cfg.epoch, cfg.limits, who, r.usage.tokens);
    FirstHead(t, now, who.ip, RecordOf(cfg, now, who, r));
  }

  lemma FirstHead(t: Table, now: nat, ip: string, rec: string)
    requires ReadHead(t) == Head("", 0)
    ensures
      var t' := Append(t, now, ip, rec);
      && "ai_useq" in t'
      && exists id :: Reduced(Dec(now) + "-" + ip, 40, id) && t'["ai_useq"].value == id + ":1"
  {
    AppendEntries(t, now, ip, rec);
    SafeReduces(Dec(now) + "-" + ip, 40);
    assert HeadText(MintId(now, ip), 1) == MintId(now, ip) + ":1";
  }

  // ---------- What a drain answers ----------

  /** What the collector is given: the ring's id and head, and of the numbers past its
      cursor those still live and among the last thousand, up to where the page ends;
      it ends at the head or with as many records as were asked for, 200 when none or
      more were; and the numbers skipped are told. */
  ghost predicate Answers(t: Table, after: nat, limit: nat, p: Page)
    requires limit >= 1
  {
    && ReadHead(t) == Head(p.inst, p.head) && after <= p.next <= p.head
    && (forall q: nat, rec :: (q, rec) in p.records <==>
          after < q <= p.next && p.head - q < 1000 && Lookup(t, "ai_urec:" + Dec(q)) == Some(rec))
    && (forall i, j | 0 <= i < j < |p.records| :: p.records[i].0 < p.records[j].0)
    && p.lost == (if p.head - after <= 1000 then 0 else p.head - after - 1000)
    && |p.records| <= limit
    && (p.next < p.head ==> |p.records| == limit && p.records[limit - 1].0 == p.next)
  }

  /** A cursor past the head, or negative, is one this ring has not handed out: the
      answer is the one to cursor 0. */
  lemma PageSays(t: Table, after: int, want: int, p: Page)
    requires IsPage(t, after, want, p)
    ensures Answers(t, if 0 <= after <= p.head then after else 0, if 1 <= want <= 200 then want else 200, p)
  {
    var a := Cursor(after, p.head);
    var lo := ScanStart(a, p.head);
    forall q: nat, rec
      ensures (q, rec) in p.records <==>
                a < q <= p.next && p.head - q < 1000 && Lookup(t, "ai_urec:" + Dec(q)) == Some(rec)
    {
      LiveInMembers(t, lo, p.next, q, rec);
    }
    LiveInAscending(t, lo, p.next);
  }

  /** Nor is any other page an answer: a drain gives one page only. */
  lemma OnePage(t: Table, after: int, want: int, p: Page, p': Page)
    requires IsPage(t, after, want, p) && IsPage(t, after, want, p')
    ensures p == p'
  {
    if p.next < p'.next {
      LiveInGrows(t, ScanStart(Cursor(after, p.head), p.head), p.next, p'.next);
    } else if p'.next < p.next {
      LiveInGrows(t, ScanStart(Cursor(after, p.head), p.head), p'.next, p.next);
    }
  }

  lemma {:induction false} LiveInGrows(t: Table, lo: nat, a: nat, b: nat)
    requires 1 <= lo <= a + 1 && a < b
    ensures |LiveIn(t, lo, a)| <= |LiveIn(t, lo, b - 1)| <= |LiveIn(t, lo, b)|
    ensures RecKey(b) in t ==> |LiveIn(t, lo, a)| < |LiveIn(t, lo, b)|
  {
    if a < b - 1 {
      LiveInGrows(t, lo, a, b - 1);
    }
  }
}
