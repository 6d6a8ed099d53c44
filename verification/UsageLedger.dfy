/** The usage-record ring on one Service Engine: the block that appends a record
    to the ring and the read-only drain a collector polls. */
module UsageLedger {
  import opened Text
  import opened SeTable

  const SEQ_KEY := "ai_useq"
  const RING_TTL := 300
  const SEQ_TTL := 86400
  const DRAIN_MAX := 200
  const SCAN_MAX := 1000
  const ID_MAX := 40

  function RecKey(q: nat): string { "ai_urec:" + Dec(q) }

  lemma RecKeyInjective(p: nat, q: nat)
    requires RecKey(p) == RecKey(q)
    ensures p == q
  {
    assert RecKey(p)[8..] == Dec(p) && RecKey(q)[8..] == Dec(q);
    DecInjective(p, q);
  }

  lemma RecKeyIsNotHead(q: nat)
    ensures RecKey(q) != SEQ_KEY
  {
    assert RecKey(q)[4] == 'r' && SEQ_KEY[4] == 's';
  }

  // ---------- Field reduction ----------

  predicate IsSafe(c: char) {
    '0' <= c <= '9' || 'A' <= c <= 'Z' || 'a' <= c <= 'z'
    || c == '-' || c == '.' || c == '_' || c == ':' || c == '/' || c == '@'
  }

  function SafeChar(c: char): char { if IsSafe(c) then c else '_' }

  function Safe(s: string, max: nat): string {
    if s == [] || max == 0 then "-"
    else seq(if |s| > max then max else |s|, i requires 0 <= i < |s| => SafeChar(s[i]))
  }

  /** Every character kept is safe inside the record and inside the JSON body, and
      a value already in that set passes through up to the length cap. */
  method SafeField(s: string, max: nat) returns (out: string)
    ensures out == Safe(s, max)
    ensures '|' !in out && '"' !in out && '\\' !in out && out != ""
    ensures (forall i | 0 <= i < |s| :: IsSafe(s[i])) && 0 < |s| <= max ==> out == s
  {
    if s == "" {
      return "-";
    }
    var n := if |s| > max then max else |s|;
    out := "";
    for i := 0 to n
      invariant |out| == i
      invariant forall j | 0 <= j < i :: out[j] == SafeChar(s[j])
    {
      if IsSafe(s[i]) {
        out := out + [s[i]];
      } else {
        out := out + "_";
      }
    }
    if out == "" {
      out := "-";
    }
  }

  // ---------- The ring head "<inst>:<seq>" ----------

  datatype Head = Head(inst: string, number: nat)

  function HeadText(inst: string, n: nat): string { inst + ":" + Dec(n) }

  function ParseHead(cur: string): Head {
    var d := Find(cur, ':');
    if d < |cur| then
      Head(cur[..d], if ToNumber(cur[d + 1..]).Some? then ToNumber(cur[d + 1..]).value else 0)
    else Head("", 0)
  }

  function ReadHead(t: Table): Head {
    if SEQ_KEY in t then ParseHead(t[SEQ_KEY].value) else Head("", 0)
  }

  method LoadHead(se: ServiceEngine) returns (inst: string, n: nat)
    ensures ReadHead(se.table) == Head(inst, n)
  {
    var cur := se.TableLookup(SEQ_KEY);
    inst, n := "", 0;
    if cur.Some? {
      var d := Find(cur.value, ':');
      if d < |cur.value| {
        inst := cur.value[..d];
        var parsed := ToNumber(cur.value[d + 1..]);
        if parsed.Some? {
          n := parsed.value;
        }
      }
    }
  }

  function MintId(now: nat, ip: string): string { Safe(Dec(now) + "-" + ip, ID_MAX) }

  /** The head is read back as written exactly when the instance id has no colon. */
  lemma HeadRoundTrip(inst: string, n: nat)
    ensures ParseHead(HeadText(inst, n)) == Head(inst, n) <==> ':' !in inst
  {
    var cur := HeadText(inst, n);
    var d := Find(cur, ':');
    assert cur[|inst|] == ':';
    if ':' !in inst {
      assert forall j | 0 <= j < |inst| :: cur[j] == inst[j];
      assert d == |inst|;
      assert cur[..d] == inst && cur[d + 1..] == Dec(n);
      DecRoundTrip(n);
    } else {
      var j := Find(inst, ':');
      assert cur[j] == ':';
      assert d <= j;
    }
  }

  /** With a colon in the id, the number read back is 0 and the id is cut short. */
  lemma HeadCut(inst: string, n: nat)
    requires ':' in inst && inst[0] != ':'
    ensures ParseHead(HeadText(inst, n)) == Head(inst[..Find(inst, ':')], 0)
    ensures ParseHead(HeadText(inst, n)).inst != ""
  {
    var cur := HeadText(inst, n);
    var j := Find(inst, ':');
    assert forall k | 0 <= k < |inst| :: cur[k] == inst[k];
    assert Find(cur, ':') == j;
    assert cur[..j] == inst[..j];
    var rest := cur[j + 1..];
    assert rest[|inst| - j - 1] == cur[|inst|] == ':';
    assert !AllDigits(rest);
  }

  lemma MintIdShape(now: nat, ip: string)
    requires now < Pow10(ID_MAX - 1)
    ensures |MintId(now, ip)| > |Dec(now)|
    ensures MintId(now, ip)[..|Dec(now)| + 1] == Dec(now) + "-"
  {
    var full := Dec(now) + "-" + ip;
    DecLength(now, ID_MAX - 1);
    var id := MintId(now, ip);
    assert forall i | 0 <= i < |Dec(now)| :: id[i] == SafeChar(full[i]) == Dec(now)[i];
    assert id[|Dec(now)|] == SafeChar(full[|Dec(now)|]) == '-';
  }

  /** The id has a colon exactly when the part of the address that fits in has one. */
  lemma MintHasColon(now: nat, ip: string)
    ensures ':' in MintId(now, ip) <==>
              exists i :: 0 <= i < |ip| && i + 1 + |Dec(now)| < ID_MAX && ip[i] == ':'
  {
    SafeHasColon(Dec(now) + "-" + ip, ID_MAX);
    ShiftedColon(Dec(now), ip, ID_MAX);
  }

  lemma SafeHasColon(s: string, max: nat)
    requires s != "" && max > 0
    ensures ':' in Safe(s, max) <==> exists i :: 0 <= i < |s| && i < max && s[i] == ':'
  {
    var out := Safe(s, max);
    assert forall i | 0 <= i < |out| :: out[i] == SafeChar(s[i]);
    if i :| 0 <= i < |s| && i < max && s[i] == ':' {
      assert out[i] == ':';
    }
  }

  lemma ShiftedColon(digits: string, ip: string, max: nat)
    requires AllDigits(digits)
    ensures
      var s := digits + "-" + ip;
      (exists i :: 0 <= i < |s| && i < max && s[i] == ':') <==>
        exists i :: 0 <= i < |ip| && i + 1 + |digits| < max && ip[i] == ':'
  {
    var s := digits + "-" + ip;
    if i :| 0 <= i < |ip| && i + 1 + |digits| < max && ip[i] == ':' {
      assert s[i + 1 + |digits|] == ':';
    }
    if k :| 0 <= k < |s| && k < max && s[k] == ':' {
      assert k > |digits|;
      assert ip[k - 1 - |digits|] == ':';
    }
  }

  lemma NoDash(s: string)
    requires AllDigits(s)
    ensures '-' !in s
  {
    assert forall c | c in s :: exists i | 0 <= i < |s| :: s[i] == c;
  }

  // ---------- Appending a record ----------

  function InstanceFor(t: Table, now: nat, ip: string): string {
    if ReadHead(t).inst == "" then MintId(now, ip) else ReadHead(t).inst
  }

  function Append(t: Table, now: nat, ip: string, rec: string): Table {
    var n := ReadHead(t).number + 1;
    var t1 := Put(t, now, SEQ_KEY, HeadText(InstanceFor(t, now, ip), n), SEQ_TTL);
    Put(t1, now, RecKey(n), rec, RING_TTL)
  }

  method AppendRecord(se: ServiceEngine, ip: string, rec: string)
    modifies se`table
    ensures se.table == Append(old(se.table), se.clock, ip, rec)
  {
    var inst, n := LoadHead(se);
    if inst == "" {
      inst := SafeField(Dec(se.clock) + "-" + ip, ID_MAX);
    }
    n := n + 1;
    se.TableRemove(SEQ_KEY);
    se.TableInsert(SEQ_KEY, HeadText(inst, n), SEQ_TTL);
    se.TableRemove(RecKey(n));
    se.TableInsert(RecKey(n), rec, RING_TTL);
  }

  lemma AppendEntries(t: Table, now: nat, ip: string, rec: string)
    ensures
      var t' := Append(t, now, ip, rec);
      var n := ReadHead(t).number + 1;
      && SEQ_KEY in t' && RecKey(n) in t'
      && t'[SEQ_KEY] == Entry(HeadText(InstanceFor(t, now, ip), n), now + SEQ_TTL)
      && t'[RecKey(n)] == Entry(rec, now + RING_TTL)
      && forall k | k != SEQ_KEY && k != RecKey(n) :: Same(t, t', k)
  {
    RecKeyIsNotHead(ReadHead(t).number + 1);
  }

  lemma AppendOtherRecord(t: Table, now: nat, ip: string, rec: string, q: nat)
    requires q != ReadHead(t).number + 1
    ensures Same(t, Append(t, now, ip, rec), RecKey(q))
  {
    RecKeyIsNotHead(q);
    if RecKey(q) == RecKey(ReadHead(t).number + 1) {
      RecKeyInjective(q, ReadHead(t).number + 1);
    }
    AppendEntries(t, now, ip, rec);
  }

  // ---------- What every reachable ring looks like ----------

  /** A record and the second it was appended in. */
  datatype Stamped = Stamped(at: nat, rec: string)

  /** One life of a ring: when and for whom its id was minted, and every record
      appended under it. */
  datatype Life = Life(at: nat, ip: string, log: seq<Stamped>)

  /** The id as minted. */
  function IdOf(l: Life): string { MintId(l.at, l.ip) }

  /** The id as read back from the head: cut at its first colon. */
  function LiveId(l: Life): string { IdOf(l)[..Find(IdOf(l), ':')] }

  predicate Colon(l: Life) { ':' in IdOf(l) }

  /** The records the head counts. With a colon in the id the first is not counted,
      and the second takes its place. */
  function Kept(l: Life): seq<Stamped> { if Colon(l) && l.log != [] then l.log[1..] else l.log }

  /** What the record keys hold, number by number, expiries aside. */
  function Slots(l: Life): seq<Stamped> { if |l.log| >= 2 then Kept(l) else l.log }

  /** The head as stored. */
  function HeadNow(l: Life): string {
    if |l.log| == 1 then HeadText(IdOf(l), 1) else HeadText(LiveId(l), |Kept(l)|)
  }

  function Last<T>(s: seq<T>): T
    requires s != []
  {
    s[|s| - 1]
  }

  lemma LiveIdShape(l: Life)
    requires l.at < Pow10(ID_MAX - 1)
    ensures |LiveId(l)| > |Dec(l.at)| && LiveId(l)[..|Dec(l.at)| + 1] == Dec(l.at) + "-"
    ensures ':' !in LiveId(l) && (Colon(l) || LiveId(l) == IdOf(l))
  {
    MintIdShape(l.at, l.ip);
    var id, n := IdOf(l), |Dec(l.at)| + 1;
    ColonsDigits(Dec(l.at));
    var d := Find(id, ':');
    assert forall i | 0 <= i < n :: id[i] == id[..n][i] && id[i] != ':';
    assert n <= d;
    assert LiveId(l)[..n] == id[..n];
  }

  /** Ids minted at different seconds are read back as different ones, whoever the
      first clients were. */
  lemma LiveIdsDiffer(l: Life, m: Life)
    requires l.at < Pow10(ID_MAX - 1) && m.at < Pow10(ID_MAX - 1) && LiveId(l) == LiveId(m)
    ensures l.at == m.at
  {
    LiveIdShape(l);
    LiveIdShape(m);
    var id, a, b := LiveId(l), Dec(l.at), Dec(m.at);
    assert id == a + "-" + id[|a| + 1..];
    assert id == b + "-" + id[|b| + 1..];
    NoDash(a);
    NoDash(b);
    FirstFieldUnique(a, id[|a| + 1..], b, id[|b| + 1..], '-');
    DecInjective(l.at, m.at);
  }

  /** The part of the client's address that a live id shows: what fits in, reduced,
      up to its first colon. */
  function Reach(now: nat, ip: string): string {
    var s := Fitting(now, ip);
    s[..Find(s, ':')]
  }

  function Fitting(now: nat, ip: string): string {
    var room := if |Dec(now)| < ID_MAX then ID_MAX - 1 - |Dec(now)| else 0;
    seq(if |ip| < room then |ip| else room, i requires 0 <= i < |ip| => SafeChar(ip[i]))
  }

  lemma MintIdText(now: nat, ip: string)
    requires now < Pow10(ID_MAX - 1)
    ensures MintId(now, ip) == Dec(now) + "-" + Fitting(now, ip)
  {
    DecLength(now, ID_MAX - 1);
    MintIdShape(now, ip);
    var full, id, n := Dec(now) + "-" + ip, MintId(now, ip), |Dec(now)| + 1;
    TextFits(full, Dec(now) + "-", ip, ID_MAX);
    assert id == id[..n] + id[n..];
  }

  /** Reducing a text beyond a prefix is reducing what follows it. */
  lemma TextFits(full: string, front: string, ip: string, max: nat)
    requires full == front + ip && 0 < |front| <= max
    ensures
      var room := max - |front|;
      var out := Safe(full, max);
      && |out| >= |front|
      && out[|front|..] == seq(if |ip| < room then |ip| else room, i requires 0 <= i < |ip| => SafeChar(ip[i]))
  {
    var out := Safe(full, max);
    assert forall i | |front| <= i < |full| :: full[i] == ip[i - |front|];
    assert forall i | 0 <= i < |out| :: out[i] == SafeChar(full[i]);
  }

  lemma LiveIdText(l: Life)
    requires l.at < Pow10(ID_MAX - 1)
    ensures LiveId(l) == Dec(l.at) + "-" + Reach(l.at, l.ip)
  {
    MintIdText(l.at, l.ip);
    ColonsDigits(Dec(l.at));
    CutAfter(Dec(l.at) + "-", Fitting(l.at, l.ip));
  }

  lemma CutAfter(front: string, s: string)
    requires ':' !in front
    ensures (front + s)[..Find(front + s, ':')] == front + s[..Find(s, ':')]
  {
    var all := front + s;
    assert forall i | 0 <= i < |front| :: all[i] == front[i];
    assert forall i | 0 <= i < |s| :: all[|front| + i] == s[i];
    assert Find(all, ':') == |front| + Find(s, ':') by {
      var d := Find(s, ':');
      assert forall i | 0 <= i < |front| + d :: all[i] != ':';
      if d < |s| {
        assert all[|front| + d] == ':';
      }
    }
  }

  /** Two lives, on whatever engines, are read under the same id if and only if they
      began in the same second for addresses that show the same. */
  lemma IdsMeetExactly(l: Life, m: Life)
    requires l.at < Pow10(ID_MAX - 1) && m.at < Pow10(ID_MAX - 1)
    ensures LiveId(l) == LiveId(m) <==> l.at == m.at && Reach(l.at, l.ip) == Reach(m.at, m.ip)
  {
    LiveIdText(l);
    LiveIdText(m);
    if LiveId(l) == LiveId(m) {
      LiveIdsDiffer(l, m);
      var front := Dec(l.at) + "-";
      assert LiveId(l)[|front|..] == Reach(l.at, l.ip) && LiveId(m)[|front|..] == Reach(m.at, m.ip);
    }
  }

  /** What the scripts read from a head. */
  lemma HeadReads(l: Life)
    requires l.at < Pow10(ID_MAX - 1) && l.log != []
    ensures ParseHead(HeadNow(l)) == Head(LiveId(l), |Kept(l)|) && LiveId(l) != ""
  {
    LiveIdShape(l);
    if Colon(l) && |l.log| == 1 {
      MintIdShape(l.at, l.ip);
      assert IdOf(l)[0] == IdOf(l)[..|Dec(l.at)| + 1][0] == Dec(l.at)[0];
      HeadCut(IdOf(l), 1);
    } else {
      HeadRoundTrip(LiveId(l), |Kept(l)|);
    }
  }

  function RingAppend(r: seq<Life>, t: Table, now: nat, ip: string, rec: string): seq<Life> {
    if ReadHead(t).inst == "" || r == [] then r + [Life(now, ip, [Stamped(now, rec)])]
    else r[|r| - 1 := Last(r).(log := Last(r).log + [Stamped(now, rec)])]
  }

  ghost predicate LivesOrdered(r: seq<Life>, now: nat) {
    && (forall j | 0 <= j < |r| :: r[j].at <= now && r[j].at < Pow10(ID_MAX - 1) && r[j].log != [])
    && (forall i, j | 0 <= i < j < |r| :: r[i].at < r[j].at)
  }

  /** The life has a record under the number, and it is younger than its lifetime. */
  predicate Young(l: Life, q: nat, now: nat) {
    1 <= q <= |Slots(l)| && now < Slots(l)[q - 1].at + RING_TTL
  }

  /** The live records are exactly the young ones of the life that is on, and they die
      no later than its head. */
  ghost predicate RecordsBelong(l: Life, t: Table, now: nat)
    requires SEQ_KEY in t
  {
    && (forall q: nat :: RecKey(q) in t <==> Young(l, q, now))
    && (forall q: nat | RecKey(q) in t ::
          && t[RecKey(q)] == Entry(Slots(l)[q - 1].rec, Slots(l)[q - 1].at + RING_TTL)
          && t[RecKey(q)].expires <= t[SEQ_KEY].expires)
  }

  ghost predicate RingInv(r: seq<Life>, t: Table, now: nat) {
    && LivesOrdered(r, now)
    && (SEQ_KEY !in t ==>
          && (forall q: nat :: RecKey(q) !in t)
          && (r != [] ==> Last(r).at < now))
    && (SEQ_KEY in t ==>
          && r != []
          && t[SEQ_KEY].value == HeadNow(Last(r))
          && Last(r).at < t[SEQ_KEY].expires <= now + SEQ_TTL
          && RecordsBelong(Last(r), t, now))
  }

  /** The head read is the live id with the number of records kept; it is the id
      minted with the number of records appended if and only if that id has no
      colon. */
  lemma HeadOfRing(r: seq<Life>, t: Table, now: nat)
    requires RingInv(r, t, now)
    ensures SEQ_KEY in t ==> ReadHead(t) == Head(LiveId(Last(r)), |Kept(Last(r))|) && ReadHead(t).inst != ""
    ensures SEQ_KEY in t ==> (ReadHead(t) == Head(IdOf(Last(r)), |Last(r).log|) <==> !Colon(Last(r)))
    ensures SEQ_KEY !in t ==> ReadHead(t) == Head("", 0)
  {
    if SEQ_KEY in t {
      HeadReads(Last(r));
      LiveIdShape(Last(r));
    }
  }

  /** All ids a ring has ever been read under are pairwise different. */
  lemma IdsNeverRepeat(r: seq<Life>, t: Table, now: nat, i: nat, j: nat)
    requires RingInv(r, t, now) && i < j < |r|
    ensures LiveId(r[i]) != LiveId(r[j])
  {
    if LiveId(r[i]) == LiveId(r[j]) {
      LiveIdsDiffer(r[i], r[j]);
    }
  }

  lemma ExpireKeepsRing(r: seq<Life>, t: Table, now: nat, to: nat)
    requires RingInv(r, t, now) && now <= to
    ensures RingInv(r, Expire(t, to), to)
  {
    var t' := Expire(t, to);
    if SEQ_KEY in t {
      forall q: nat | RecKey(q) in t'
        ensures RecKey(q) in t && SEQ_KEY in t'
      {
      }
    }
  }

  /** Appending keeps the ring, whatever the client's address; a new id is minted only
      when no record of an older life is left. */
  lemma AppendKeepsRing(r: seq<Life>, t: Table, now: nat, ip: string, rec: string)
    requires RingInv(r, t, now) && now < Pow10(ID_MAX - 1)
    ensures RingInv(RingAppend(r, t, now, ip, rec), Append(t, now, ip, rec), now)
  {
    HeadOfRing(r, t, now);
    AppendEntries(t, now, ip, rec);
    AppendKeepsRecords(r, t, now, ip, rec);
    LivesStayOrdered(r, t, now, ip, rec);
    NextHead(r, t, now, ip, rec);
  }

  lemma LivesStayOrdered(r: seq<Life>, t: Table, now: nat, ip: string, rec: string)
    requires RingInv(r, t, now) && now < Pow10(ID_MAX - 1)
    ensures LivesOrdered(RingAppend(r, t, now, ip, rec), now)
  {
    HeadOfRing(r, t, now);
    if SEQ_KEY !in t {
      forall i | 0 <= i < |r| ensures r[i].at < now {
        assert r[i].at <= Last(r).at;
      }
    }
  }

  lemma KeptGrows(l: Life, rec: Stamped)
    requires l.log != []
    ensures
      var l' := l.(log := l.log + [rec]);
      Kept(l') == Kept(l) + [rec] && Slots(l') == Kept(l') && LiveId(l') == LiveId(l)
  {
    assert (l.log + [rec])[1..] == l.log[1..] + [rec];
  }

  lemma NextHead(r: seq<Life>, t: Table, now: nat, ip: string, rec: string)
    requires RingInv(r, t, now) && now < Pow10(ID_MAX - 1)
    ensures HeadText(InstanceFor(t, now, ip), ReadHead(t).number + 1) == HeadNow(Last(RingAppend(r, t, now, ip, rec)))
  {
    HeadOfRing(r, t, now);
    if SEQ_KEY in t {
      KeptGrows(Last(r), Stamped(now, rec));
    }
  }

  lemma AppendKeepsRecords(r: seq<Life>, t: Table, now: nat, ip: string, rec: string)
    requires RingInv(r, t, now)
    ensures SEQ_KEY in Append(t, now, ip, rec)
    ensures RecordsBelong(Last(RingAppend(r, t, now, ip, rec)), Append(t, now, ip, rec), now)
  {
    HeadOfRing(r, t, now);
    var l' := Last(RingAppend(r, t, now, ip, rec));
    var t' := Append(t, now, ip, rec);
    var n := ReadHead(t).number + 1;
    NewSlots(r, t, now, ip, rec);
    AppendEntries(t, now, ip, rec);
    forall q: nat
      ensures RecKey(q) in t' <==> Young(l', q, now)
      ensures RecKey(q) in t' ==>
                && t'[RecKey(q)] == Entry(Slots(l')[q - 1].rec, Slots(l')[q - 1].at + RING_TTL)
                && t'[RecKey(q)].expires <= t'[SEQ_KEY].expires
    {
      if q != n {
        AppendOtherRecord(t, now, ip, rec, q);
      }
    }
  }

  /** The new record takes the slot after those the head counts; the slots before it
      stay. */
  lemma NewSlots(r: seq<Life>, t: Table, now: nat, ip: string, rec: string)
    requires RingInv(r, t, now)
    ensures
      var l', n := Last(RingAppend(r, t, now, ip, rec)), ReadHead(t).number + 1;
      && |Slots(l')| == n && Slots(l')[n - 1] == Stamped(now, rec)
      && (SEQ_KEY in t ==>
            && |Slots(Last(r))| <= n
            && forall i | 0 <= i < n - 1 :: i < |Slots(Last(r))| && Slots(l')[i] == Slots(Last(r))[i])
  {
    HeadOfRing(r, t, now);
    if SEQ_KEY in t {
      KeptGrows(Last(r), Stamped(now, rec));
    }
  }

  /** The record just appended ends the log; it is found at the head, unless it is the
      first of a ring whose id has a colon, which the head does not count. */
  lemma AppendAdds(r: seq<Life>, t: Table, now: nat, ip: string, rec: string)
    requires RingInv(r, t, now) && now < Pow10(ID_MAX - 1)
    ensures
      var r', t' := RingAppend(r, t, now, ip, rec), Append(t, now, ip, rec);
      && r' != [] && Last(r').log == (if SEQ_KEY in t then Last(r).log else []) + [Stamped(now, rec)]
      && Lookup(t', RecKey(|Slots(Last(r'))|)) == Some(rec)
      && ReadHead(t').number == if Colon(Last(r')) then |Last(r').log| - 1 else |Last(r').log|
  {
    HeadOfRing(r, t, now);
    AppendEntries(t, now, ip, rec);
    NewSlots(r, t, now, ip, rec);
    AppendedHead(r, t, now, ip, rec);
  }

  lemma AppendedHead(r: seq<Life>, t: Table, now: nat, ip: string, rec: string)
    requires RingInv(r, t, now) && now < Pow10(ID_MAX - 1)
    ensures
      var l := Last(RingAppend(r, t, now, ip, rec));
      ReadHead(Append(t, now, ip, rec)).number == if Colon(l) then |l.log| - 1 else |l.log|
  {
    AppendKeepsRing(r, t, now, ip, rec);
    AppendEntries(t, now, ip, rec);
    HeadOfRing(RingAppend(r, t, now, ip, rec), Append(t, now, ip, rec), now);
  }

  /** Two records on an empty ring, any time apart that the head survives: both are
      numbered, 1 and 2, exactly when the minted id has no colon; otherwise the second
      is written over the first and the head counts one. */
  lemma TwoRecordsKept(now: nat, ip: string, now': nat, ip': string, r1: string, r2: string)
    requires now <= now' < now + SEQ_TTL && now' < Pow10(ID_MAX - 1)
    ensures
      var t := Append(Expire(Append(map[], now, ip, r1), now'), now', ip', r2);
      && (':' !in MintId(now, ip) ==>
            && ReadHead(t) == Head(MintId(now, ip), 2) && Lookup(t, RecKey(2)) == Some(r2)
            && Lookup(t, RecKey(1)) == if now' < now + RING_TTL then Some(r1) else None)
      && (':' in MintId(now, ip) ==>
            ReadHead(t).number == 1 && Lookup(t, RecKey(1)) == Some(r2) && RecKey(2) !in t)
  {
    FirstAppend(now, ip, now', r1);
    SecondAppend(Life(now, ip, [Stamped(now, r1)]), Expire(Append(map[], now, ip, r1), now'), now', ip', r2);
  }

  lemma FirstAppend(now: nat, ip: string, now': nat, rec: string)
    requires now <= now' < now + SEQ_TTL && now' < Pow10(ID_MAX - 1)
    ensures
      var t := Expire(Append(map[], now, ip, rec), now');
      && RingInv([Life(now, ip, [Stamped(now, rec)])], t, now') && SEQ_KEY in t && RecKey(2) !in t
      && Lookup(t, RecKey(1)) == if now' < now + RING_TTL then Some(rec) else None
  {
    var t: Table := map[];
    AppendKeepsRing([], t, now, ip, rec);
    assert RingAppend([], t, now, ip, rec) == [Life(now, ip, [Stamped(now, rec)])];
    ExpireKeepsRing([Life(now, ip, [Stamped(now, rec)])], Append(t, now, ip, rec), now, now');
    AppendEntries(t, now, ip, rec);
    AppendOtherRecord(t, now, ip, rec, 2);
  }

  lemma SecondAppend(l: Life, t: Table, now: nat, ip: string, rec: string)
    requires RingInv([l], t, now) && SEQ_KEY in t && now < Pow10(ID_MAX - 1) && |l.log| == 1
    ensures
      var t' := Append(t, now, ip, rec);
      && (Colon(l) ==> ReadHead(t').number == 1 && Lookup(t', RecKey(1)) == Some(rec) && Same(t, t', RecKey(2)))
      && (!Colon(l) ==>
            ReadHead(t') == Head(IdOf(l), 2) && Lookup(t', RecKey(2)) == Some(rec) && Same(t, t', RecKey(1)))
  {
    var r := [l];
    HeadOfRing(r, t, now);
    AppendKeepsRing(r, t, now, ip, rec);
    AppendEntries(t, now, ip, rec);
    AppendOtherRecord(t, now, ip, rec, if Colon(l) then 2 else 1);
    KeptGrows(l, Stamped(now, rec));
    HeadOfRing(RingAppend(r, t, now, ip, rec), Append(t, now, ip, rec), now);
    LiveIdShape(l);
  }

  // ---------- The drain ----------

  datatype Page = Page(inst: string, head: nat, next: nat, lost: nat, records: seq<(nat, string)>)

  /** The live records numbered lo..hi, in order. */
  function LiveIn(t: Table, lo: nat, hi: nat): seq<(nat, string)>
    decreases hi
  {
    if hi < lo || hi == 0 then []
    else LiveIn(t, lo, hi - 1) + (if RecKey(hi) in t then [(hi, t[RecKey(hi)].value)] else [])
  }

  /** How many of the numbers lo..hi have no live record. */
  function DeadIn(t: Table, lo: nat, hi: nat): nat
    decreases hi
  {
    if hi < lo || hi == 0 then 0
    else DeadIn(t, lo, hi - 1) + (if RecKey(hi) in t then 0 else 1)
  }

  function Cap(want: int): (w: nat)
    ensures 1 <= w <= DRAIN_MAX
  {
    if want <= 0 || want > DRAIN_MAX then DRAIN_MAX else want
  }

  /** A cursor the ring cannot have handed out starts from the beginning. */
  function Cursor(after: int, head: nat): (a: nat)
    ensures a <= head
  {
    if after < 0 || after > head then 0 else after
  }

  function ScanStart(a: nat, head: nat): (lo: nat)
    requires a <= head
    ensures a < lo <= head + 1
  {
    if head - a > SCAN_MAX then head - SCAN_MAX + 1 else a + 1
  }

  /** What a drain answers: every live record from the scan start up to `next`, in
      order, stopping at the head or on the record that fills the page. */
  ghost predicate IsPage(t: Table, after: int, want: int, p: Page) {
    var a := Cursor(after, p.head);
    var lo := ScanStart(a, p.head);
    && ReadHead(t) == Head(p.inst, p.head)
    && p.lost == lo - a - 1
    && lo - 1 <= p.next <= p.head
    && p.records == LiveIn(t, lo, p.next)
    && |p.records| <= Cap(want)
    && (p.next < p.head ==> |p.records| == Cap(want))
    && (|p.records| == Cap(want) ==> p.next >= lo && RecKey(p.next) in t)
  }

  method ScanRing(se: ServiceEngine, lo: nat, head: nat, cap: nat) returns (parts: seq<(nat, string)>, next: nat)
    requires 1 <= lo <= head + 1 && cap >= 1
    ensures lo - 1 <= next <= head
    ensures parts == LiveIn(se.table, lo, next) && |parts| <= cap
    ensures next < head ==> |parts| == cap
    ensures |parts| == cap ==> next >= lo && RecKey(next) in se.table
  {
    var n, i := 0, lo;
    parts := [];
    while i <= head && n < cap
      invariant lo <= i <= head + 1
      invariant parts == LiveIn(se.table, lo, i - 1) && n == |parts| <= cap
      invariant n == cap ==> i > lo && RecKey(i - 1) in se.table
    {
      var r := se.TableLookup(RecKey(i));
      if r.Some? {
        parts := parts + [(i, r.value)];
        n := n + 1;
      }
      i := i + 1;
    }
    next := i - 1;
  }

  method Drain(se: ServiceEngine, after: int, want: int) returns (p: Page)
    ensures IsPage(se.table, after, want, p)
  {
    var inst, head := LoadHead(se);
    var cap := want;
    if cap <= 0 || cap > DRAIN_MAX {
      cap := DRAIN_MAX;
    }
    var a := after;
    if a < 0 || a > head {
      a := 0;
    }
    var lo := a + 1;
    if head - a > SCAN_MAX {
      lo := head - SCAN_MAX + 1;
    }
    assert cap == Cap(want) && a == Cursor(after, head) && lo == ScanStart(a, head);
    var parts, next := ScanRing(se, lo, head, cap);
    p := Page(inst, head, next, lo - a - 1, parts);
  }

  lemma {:induction false} LiveInMembers(t: Table, lo: nat, hi: nat, q: nat, r: string)
    ensures (q, r) in LiveIn(t, lo, hi) <==>
              1 <= q && lo <= q <= hi && RecKey(q) in t && t[RecKey(q)].value == r
  {
    if lo <= hi && hi > 0 {
      LiveInMembers(t, lo, hi - 1, q, r);
    }
  }

  lemma {:induction false} LiveInCount(t: Table, lo: nat, hi: nat)
    requires 1 <= lo <= hi + 1
    ensures |LiveIn(t, lo, hi)| + DeadIn(t, lo, hi) == hi + 1 - lo
  {
    if lo <= hi {
      LiveInCount(t, lo, hi - 1);
    }
  }

  ghost predicate Ascending(rs: seq<(nat, string)>, from: nat, to: nat) {
    && (forall i | 0 <= i < |rs| :: from < rs[i].0 <= to)
    && (forall i, j | 0 <= i < j < |rs| :: rs[i].0 < rs[j].0)
  }

  lemma {:induction false} LiveInAscending(t: Table, lo: nat, hi: nat)
    requires 1 <= lo
    ensures Ascending(LiveIn(t, lo, hi), lo - 1, hi)
  {
    if lo <= hi {
      LiveInAscending(t, lo, hi - 1);
    }
  }

  /** Every number the cursor steps over is accounted for, and the cursor moves
      whenever there is something ahead of it. */
  lemma PageAccounts(t: Table, after: nat, want: int, p: Page)
    requires IsPage(t, after, want, p) && after <= p.head
    ensures p.next - after
              == p.lost + |p.records| + DeadIn(t, ScanStart(after, p.head), p.next)
    ensures after <= p.next
    ensures after < p.head ==> after < p.next
    ensures Ascending(p.records, after, p.next)
  {
    var lo := ScanStart(after, p.head);
    LiveInCount(t, lo, p.next);
    LiveInAscending(t, lo, p.next);
  }

  // ---------- A collector that echoes `next` as `after` ----------

  /** One poll: the table it met, what it asked, what it got. */
  datatype Poll = Poll(table: Table, after: nat, want: int, page: Page)

  ghost predicate Answered(p: Poll) {
    IsPage(p.table, p.after, p.want, p.page) && p.after <= p.page.head
  }

  /** Each poll starts where the previous one ended. */
  ghost predicate Chained(polls: seq<Poll>, from: nat, to: nat) {
    if polls == [] then from == to
    else
      && Answered(Last(polls))
      && Chained(polls[..|polls| - 1], from, Last(polls).after)
      && Last(polls).page.next == to
  }

  function Delivered(polls: seq<Poll>): seq<(nat, string)> {
    if polls == [] then [] else Delivered(polls[..|polls| - 1]) + Last(polls).page.records
  }

  function LostTotal(polls: seq<Poll>): nat {
    if polls == [] then 0 else LostTotal(polls[..|polls| - 1]) + Last(polls).page.lost
  }

  function Scanned(p: Poll): nat { ScanStart(Cursor(p.after, p.page.head), p.page.head) }

  function ExpiredTotal(polls: seq<Poll>): nat {
    if polls == [] then 0
    else ExpiredTotal(polls[..|polls| - 1]) + DeadIn(Last(polls).table, Scanned(Last(polls)), Last(polls).page.next)
  }

  /** How one poll disposed of one number. */
  datatype Fate = WasDelivered(rec: string) | WasLost | WasExpired

  ghost predicate Disposes(p: Poll, q: nat, f: Fate) {
    && p.after < q <= p.page.next
    && match f
       case WasLost => q < Scanned(p)
       case WasExpired => Scanned(p) <= q && RecKey(q) !in p.table
       case WasDelivered(rec) => (q, rec) in p.page.records
  }

  /** Nothing is delivered twice and nothing is passed over unreported: the numbers
      delivered ascend strictly, and the distance travelled is exactly delivered
      plus lost plus expired. */
  lemma {:induction false} ExactlyOnce(polls: seq<Poll>, from: nat, to: nat)
    requires Chained(polls, from, to)
    ensures from <= to
    ensures Ascending(Delivered(polls), from, to)
    ensures to - from == LostTotal(polls) + |Delivered(polls)| + ExpiredTotal(polls)
  {
    if polls != [] {
      var p := Last(polls);
      ExactlyOnce(polls[..|polls| - 1], from, p.after);
      PageAccounts(p.table, p.after, p.want, p.page);
      AscendingAppend(Delivered(polls[..|polls| - 1]), p.page.records, from, p.after, to);
    }
  }

  lemma AscendingAppend(a: seq<(nat, string)>, b: seq<(nat, string)>, from: nat, mid: nat, to: nat)
    requires Ascending(a, from, mid) && Ascending(b, mid, to) && from <= mid <= to
    ensures Ascending(a + b, from, to)
  {
  }

  /** Each number at or below the cursor met exactly one poll, and that poll
      disposed of it in exactly one way. */
  lemma {:induction false} EveryNumberDisposed(polls: seq<Poll>, from: nat, to: nat, q: nat)
    returns (j: nat, f: Fate)
    requires Chained(polls, from, to) && from < q <= to
    ensures j < |polls| && Disposes(polls[j], q, f)
    ensures forall j', f' | 0 <= j' < |polls| && Disposes(polls[j'], q, f') :: j' == j && f' == f
  {
    var p := Last(polls);
    var init := polls[..|polls| - 1];
    if q <= p.after {
      j, f := EveryNumberDisposed(init, from, p.after, q);
      forall j', f' | 0 <= j' < |polls| && Disposes(polls[j'], q, f')
        ensures j' == j && f' == f
      {
        assert j' < |init|;
        assert init[j'] == polls[j'];
      }
    } else {
      j := |polls| - 1;
      f := OneFate(p, q);
      forall j', f' | 0 <= j' < |polls| && Disposes(polls[j'], q, f')
        ensures j' == j && f' == f
      {
        if j' < j {
          assert init[j'] == polls[j'];
          ChainBounds(init, from, p.after, j');
        }
      }
    }
  }

  /** A poll disposes of every number it steps over in one way and no other. */
  lemma OneFate(p: Poll, q: nat) returns (f: Fate)
    requires Answered(p) && p.after < q <= p.page.next
    ensures Disposes(p, q, f) && forall f' | Disposes(p, q, f') :: f' == f
  {
    forall r: string ensures (q, r) in p.page.records <==>
        Scanned(p) <= q <= p.page.next && RecKey(q) in p.table && p.table[RecKey(q)].value == r {
      LiveInMembers(p.table, Scanned(p), p.page.next, q, r);
    }
    f := if q < Scanned(p) then WasLost
         else if RecKey(q) in p.table then WasDelivered(p.table[RecKey(q)].value)
         else WasExpired;
  }

  lemma {:induction false} ChainBounds(polls: seq<Poll>, from: nat, to: nat, j: nat)
    requires Chained(polls, from, to) && j < |polls|
    ensures polls[j].page.next <= to
  {
    if j < |polls| - 1 {
      var p := Last(polls);
      ChainBounds(polls[..|polls| - 1], from, p.after, j);
      PageAccounts(p.table, p.after, p.want, p.page);
    }
  }
}
