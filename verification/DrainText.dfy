/** The JSON text a drain answers with. The script concatenates it without escaping
    anything, which is sound because every field was reduced beforehand. */
module DrainText {
  import opened Text
  import opened SeTable
  import UsageLedger

  type Page = UsageLedger.Page

  /** Nothing a JSON string would have to escape. */
  predicate Plain(s: string) {
    forall i | 0 <= i < |s| :: s[i] != '"' && s[i] != '\\' && ' ' <= s[i]
  }

  predicate PlainPage(p: Page) {
    Plain(p.inst) && forall i | 0 <= i < |p.records| :: Plain(p.records[i].1)
  }

  // ---------- Printing ----------

  function RecordEntry(r: (nat, string), rest: string): string {
    "{\"seq\":" + (Dec(r.0) + (",\"r\":\"" + (r.1 + ("\"}" + rest))))
  }

  function Entries(rs: seq<(nat, string)>, rest: string): string {
    if rs == [] then rest
    else if |rs| == 1 then RecordEntry(rs[0], rest)
    else RecordEntry(rs[0], "," + Entries(rs[1..], rest))
  }

  function PageText(p: Page): string {
    "{\"inst\":\"" + (p.inst + ("\",\"head\":" + (Dec(p.head) + (",\"next\":" + (Dec(p.next)
      + (",\"lost\":" + (Dec(p.lost) + (",\"records\":[" + Entries(p.records, "]}")))))))))
  }

  method Answer(se: ServiceEngine, after: int, want: int) returns (p: Page, body: string)
    ensures UsageLedger.IsPage(se.table, after, want, p) && body == PageText(p)
  {
    p := UsageLedger.Drain(se, after, want);
    body := PageText(p);
  }

  // ---------- Reading ----------

  /** The numeral a text begins with. */
  function Number(s: string): (r: Option<(nat, string)>)
    ensures r.Some? ==> |r.value.1| < |s|
  {
    var n := Digits(s);
    if n == 0 then None else Some((Value(s[..n]), s[n..]))
  }

  function Digits(s: string): (n: nat)
    ensures n <= |s| && AllDigits(s[..n]) && (n < |s| ==> !IsDigit(s[n]))
  {
    if s == [] || !IsDigit(s[0]) then 0
    else
      var n := Digits(s[1..]);
      assert s[..n + 1] == [s[0]] + s[1..][..n];
      n + 1
  }

  /** The rest of a string up to its closing quote, for strings without escapes. */
  function Quoted(s: string): (r: Option<(string, string)>)
    ensures r.Some? ==> |r.value.1| < |s|
  {
    var n := Find(s, '"');
    if n < |s| && Plain(s[..n]) then Some((s[..n], s[n + 1..])) else None
  }

  function ReadRecord(s: string): (r: Option<((nat, string), string)>)
    ensures r.Some? ==> |r.value.1| < |s|
  {
    var s1 :- Expect(s, "{\"seq\":");
    var n :- Number(s1);
    var s2 :- Expect(n.1, ",\"r\":\"");
    var text :- Quoted(s2);
    var rest :- Expect(text.1, "}");
    Some(((n.0, text.0), rest))
  }

  function ReadRecords(s: string): Option<(seq<(nat, string)>, string)>
    decreases |s|
  {
    var first :- ReadRecord(s);
    match Expect(first.1, ",")
    case None => Some(([first.0], first.1))
    case Some(s1) =>
      var more :- ReadRecords(s1);
      Some(([first.0] + more.0, more.1))
  }

  function ReadList(s: string): Option<seq<(nat, string)>> {
    if s == "]}" then Some([])
    else
      var rs :- ReadRecords(s);
      if rs.1 == "]}" then Some(rs.0) else None
  }

  function ReadPage(s: string): Option<Page> {
    var s1 :- Expect(s, "{\"inst\":\"");
    var inst :- Quoted(s1);
    var s2 :- Expect(inst.1, ",\"head\":");
    var head :- Number(s2);
    var s3 :- Expect(head.1, ",\"next\":");
    var next :- Number(s3);
    var s4 :- Expect(next.1, ",\"lost\":");
    var lost :- Number(s4);
    var s5 :- Expect(lost.1, ",\"records\":[");
    var records :- ReadList(s5);
    Some(UsageLedger.Page(inst.0, head.0, next.0, lost.0, records))
  }

  // ---------- Reading undoes printing ----------

  lemma {:induction false} DigitsOf(a: string, rest: string)
    requires AllDigits(a) && (rest != [] ==> !IsDigit(rest[0]))
    ensures Digits(a + rest) == |a|
  {
    if a == [] {
      assert a + rest == rest;
    } else {
      DigitsOf(a[1..], rest);
      assert (a + rest)[1..] == a[1..] + rest;
    }
  }

  lemma NumberReads(n: nat, rest: string)
    requires rest != [] && !IsDigit(rest[0])
    ensures Number(Dec(n) + rest) == Some((n, rest))
  {
    DigitsOf(Dec(n), rest);
    var s := Dec(n) + rest;
    assert s[..|Dec(n)|] == Dec(n) && s[|Dec(n)|..] == rest;
    DecRoundTrip(n);
  }

  lemma QuotedReads(text: string, rest: string)
    requires Plain(text)
    ensures Quoted(text + ("\"" + rest)) == Some((text, rest))
  {
    var s := text + ("\"" + rest);
    assert s[|text|] == '"';
    assert forall i | 0 <= i < |text| :: s[i] == text[i];
    assert Find(s, '"') == |text|;
    assert s[..|text|] == text && s[|text| + 1..] == rest;
  }

  lemma ReadRecordReads(r: (nat, string), rest: string)
    requires Plain(r.1)
    ensures ReadRecord(RecordEntry(r, rest)) == Some((r, rest))
  {
    var s5 := "\"}" + rest;
    var s4 := r.1 + s5;
    var s3 := ",\"r\":\"" + s4;
    var s2 := Dec(r.0) + s3;
    Expected("{\"seq\":", s2);
    NumberReads(r.0, s3);
    Expected(",\"r\":\"", s4);
    assert s5 == "\"" + ("}" + rest);
    QuotedReads(r.1, "}" + rest);
    Expected("}", rest);
  }

  lemma ReadsLast(r: (nat, string), rest: string)
    requires Plain(r.1) && !("," <= rest)
    ensures ReadRecords(RecordEntry(r, rest)) == Some(([r], rest))
  {
    ReadRecordReads(r, rest);
  }

  lemma ReadsThenMore(r: (nat, string), more: string, rs: seq<(nat, string)>, rest: string)
    requires Plain(r.1) && ReadRecords(more) == Some((rs, rest))
    ensures ReadRecords(RecordEntry(r, "," + more)) == Some(([r] + rs, rest))
  {
    ReadRecordReads(r, "," + more);
    Expected(",", more);
  }

  lemma {:induction false} ReadRecordsReads(rs: seq<(nat, string)>, rest: string)
    requires rs != [] && !("," <= rest) && forall i | 0 <= i < |rs| :: Plain(rs[i].1)
    ensures ReadRecords(Entries(rs, rest)) == Some((rs, rest))
  {
    if |rs| == 1 {
      ReadsOne(rs, rest);
    } else {
      ReadRecordsReads(rs[1..], rest);
      ReadsMore(rs, rest);
    }
  }

  lemma ReadsOne(rs: seq<(nat, string)>, rest: string)
    requires |rs| == 1 && Plain(rs[0].1) && !("," <= rest)
    ensures ReadRecords(Entries(rs, rest)) == Some((rs, rest))
  {
    ReadsLast(rs[0], rest);
    assert rs == [rs[0]];
  }

  lemma ReadsMore(rs: seq<(nat, string)>, rest: string)
    requires |rs| > 1 && Plain(rs[0].1) && ReadRecords(Entries(rs[1..], rest)) == Some((rs[1..], rest))
    ensures ReadRecords(Entries(rs, rest)) == Some((rs, rest))
  {
    ReadsThenMore(rs[0], Entries(rs[1..], rest), rs[1..], rest);
    assert rs == [rs[0]] + rs[1..];
  }

  lemma ReadListReads(rs: seq<(nat, string)>)
    requires forall i | 0 <= i < |rs| :: Plain(rs[i].1)
    ensures ReadList(Entries(rs, "]}")) == Some(rs)
  {
    if rs != [] {
      assert "]}"[0] == ']';
      ReadRecordsReads(rs, "]}");
      assert Entries(rs, "]}")[0] == '{';
    }
  }

  /** What a reader takes from the text of a drain is the drain's page: every number,
      every record whole, and nothing else. */
  lemma PageRoundTrip(p: Page)
    requires PlainPage(p)
    ensures ReadPage(PageText(p)) == Some(p)
  {
    var s5 := Entries(p.records, "]}");
    var t4 := ",\"records\":[" + s5;
    var s4 := Dec(p.lost) + t4;
    var t3 := ",\"lost\":" + s4;
    var s3 := Dec(p.next) + t3;
    var t2 := ",\"next\":" + s3;
    var s2 := Dec(p.head) + t2;
    var t1 := ",\"head\":" + s2;
    var s1 := p.inst + ("\"" + t1);
    assert "\",\"head\":" + s2 == "\"" + t1;
    Expected("{\"inst\":\"", s1);
    QuotedReads(p.inst, t1);
    Expected(",\"head\":", s2);
    NumberReads(p.head, t2);
    Expected(",\"next\":", s3);
    NumberReads(p.next, t3);
    Expected(",\"lost\":", s4);
    NumberReads(p.lost, t4);
    Expected(",\"records\":[", s5);
    ReadListReads(p.records);
  }
}
