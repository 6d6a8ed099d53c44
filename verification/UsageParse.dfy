/** Reading the usage figures out of a buffered response body, and the record line
    built from them. */
module UsageParse {
  import opened Text
  import opened TokenCounters
  import UsageLedger

  const BUFFER_BYTES := 256 * 1024
  const FAIL_CLOSED_TOKENS := BUFFER_BYTES / 4

  datatype Quality = Unmetered | Exact | Penalty

  function QualityText(q: Quality): string {
    match q
    case Unmetered => "none"
    case Exact => "exact"
    case Penalty => "penalty"
  }

  datatype Usage = Usage(tokens: Tokens, cached: nat, reasoning: nat, model: string, quality: Quality)

  // ---------- A number after a quoted key ----------

  /** First position at or after i whose character is (not) a digit. */
  function Skip(s: string, i: nat, digits: bool): (j: nat)
    requires i <= |s|
    ensures i <= j <= |s|
    ensures forall k | i <= k < j :: IsDigit(s[k]) == digits
    ensures j < |s| ==> IsDigit(s[j]) != digits
    decreases |s| - i
  {
    if i < |s| && IsDigit(s[i]) == digits then Skip(s, i + 1, digits) else i
  }

  function NumAfter(body: string, key: string): nat {
    match FindFrom(body, key, 0)
    case None => 0
    case Some(s) => NumFrom(body, s + |key|)
  }

  /** The numeral that the next digit begins. */
  function NumFrom(body: string, from: nat): nat
    requires from <= |body|
  {
    var i := Skip(body, from, false);
    var j := Skip(body, i, true);
    if j > i then Value(body[i..j]) else 0
  }

  /** Either of the two byte loops: past the digits, or up to the first one. */
  method Scan(s: string, from: nat, digits: bool) returns (i: nat)
    requires from <= |s|
    ensures i == Skip(s, from, digits)
  {
    i := from;
    while i < |s| && IsDigit(s[i]) == digits
      invariant from <= i <= |s|
      invariant Skip(s, i, digits) == Skip(s, from, digits)
    {
      i := i + 1;
    }
  }

  method ScanNumber(body: string, key: string) returns (n: nat)
    ensures n == NumAfter(body, key)
  {
    var s := FindFrom(body, key, 0);
    if s.None? {
      return 0;
    }
    var i := Scan(body, s.value + |key|, false);
    var j := Scan(body, i, true);
    n := if j > i then Value(body[i..j]) else 0;
  }

  lemma SkipTo(s: string, i: nat, digits: bool, j: nat)
    requires i <= j <= |s|
    requires forall k | i <= k < j :: IsDigit(s[k]) == digits
    requires j < |s| ==> IsDigit(s[j]) != digits
    ensures Skip(s, i, digits) == j
  {
  }

  /** The scan reads the figure the backend wrote: the first occurrence of the key,
      then digit-free text up to b, then the numeral of n up to c. */
  lemma NumAfterReads(body: string, key: string, n: nat, b: nat, c: nat)
    requires var s := FindFrom(body, key, 0); s.Some? && s.value + |key| <= b <= c <= |body|
    requires forall k | FindFrom(body, key, 0).value + |key| <= k < b :: !IsDigit(body[k])
    requires body[b..c] == Dec(n)
    requires c < |body| ==> !IsDigit(body[c])
    ensures NumAfter(body, key) == n
  {
    NumFromReads(body, FindFrom(body, key, 0).value + |key|, n, b, c);
  }

  lemma NumFromReads(body: string, from: nat, n: nat, b: nat, c: nat)
    requires from <= b <= c <= |body|
    requires forall k | from <= k < b :: !IsDigit(body[k])
    requires body[b..c] == Dec(n)
    requires c < |body| ==> !IsDigit(body[c])
    ensures NumFrom(body, from) == n
  {
    assert forall k | b <= k < c :: body[k] == Dec(n)[k - b];
    assert IsDigit(body[b]);
    SkipTo(body, from, false, b);
    SkipTo(body, b, true, c);
    DecRoundTrip(n);
  }

  /** First quote at or after i, or the length. */
  function QuoteFrom(s: string, i: nat): (q: nat)
    requires i <= |s|
    ensures i <= q <= |s|
    ensures forall k | i <= k < q :: s[k] != '"'
    ensures q < |s| ==> s[q] == '"'
    decreases |s| - i
  {
    if i < |s| && s[i] != '"' then QuoteFrom(s, i + 1) else i
  }

  /** The string value after a quoted key. */
  function StrAfter(body: string, key: string): string {
    match FindFrom(body, key, 0)
    case None => ""
    case Some(s) => StrFrom(body, s + |key|)
  }

  /** What stands between the next two quotes. */
  function StrFrom(body: string, from: nat): string
    requires from <= |body|
  {
    var q1 := QuoteFrom(body, from);
    if q1 == |body| then ""
    else
      var q2 := QuoteFrom(body, q1 + 1);
      if q2 == |body| then "" else body[q1 + 1..q2]
  }

  // ---------- The usage block ----------

  const NO_USAGE := Usage(Tokens(0, 0, 0), 0, 0, "", Unmetered)

  /** What the response phase learns: `metered` and `encoded` are the flags the
      header phase left, `body` is the buffered body if there is one. */
  function Parse(metered: bool, encoded: bool, body: Option<string>): Usage {
    if !metered then NO_USAGE
    else
      var b := if body.Some? then body.value else "";
      Metered(NumAfter(b, "\"prompt_tokens\""), NumAfter(b, "\"completion_tokens\""),
              NumAfter(b, "\"total_tokens\""), NumAfter(b, "\"cached_tokens\""),
              NumAfter(b, "\"reasoning_tokens\""), StrAfter(b, "\"model\""),
              (body.Some? && |body.value| >= BUFFER_BYTES) || encoded)
  }

  /** The usage from the figures read; `hidden` says that the body may hold more. */
  function Metered(p: nat, c: nat, stated: nat, cached: nat, reasoning: nat, model: string, hidden: bool): Usage {
    var total := if stated == 0 then p + c else stated;
    if total > 0 then Usage(Tokens(p, c, total), cached, reasoning, model, Exact)
    else if hidden then
      Usage(Tokens(FAIL_CLOSED_TOKENS, FAIL_CLOSED_TOKENS, FAIL_CLOSED_TOKENS), cached, reasoning, model, Penalty)
    else Usage(Tokens(p, c, total), cached, reasoning, model, Unmetered)
  }

  method ParseUsage(metered: bool, encoded: bool, body: Option<string>) returns (u: Usage)
    ensures u == Parse(metered, encoded, body)
  {
    var p, c, total, cached, reasoning, model, quality := 0, 0, 0, 0, 0, "", Unmetered;
    if metered {
      var b := if body.Some? then body.value else "";
      p := ScanNumber(b, "\"prompt_tokens\"");
      c := ScanNumber(b, "\"completion_tokens\"");
      total := ScanNumber(b, "\"total_tokens\"");
      if total == 0 {
        total := p + c;
      }
      cached := ScanNumber(b, "\"cached_tokens\"");
      reasoning := ScanNumber(b, "\"reasoning_tokens\"");
      model := StrAfter(b, "\"model\"");
      if total > 0 {
        quality := Exact;
      } else if (body.Some? && |body.value| >= BUFFER_BYTES) || encoded {
        total, p, c := FAIL_CLOSED_TOKENS, FAIL_CLOSED_TOKENS, FAIL_CLOSED_TOKENS;
        quality := Penalty;
      }
    }
    u := Usage(Tokens(p, c, total), cached, reasoning, model, quality);
  }

  /** Whatever the body and the flags, nothing is charged on an unmetered response,
      and every metered one charges its total dimension. */
  lemma QualityDecidesCharge(metered: bool, encoded: bool, body: Option<string>)
    ensures
      var u := Parse(metered, encoded, body);
      && (u.quality == Unmetered <==> u.tokens == Tokens(0, 0, 0))
      && (u.quality == Unmetered <==> u.tokens.total == 0)
      && (u.quality == Penalty ==> forall d: Dim :: Amount(u.tokens, d) == 65536)
  {
    if metered {
      var b := if body.Some? then body.value else "";
      MeteredCosts(NumAfter(b, "\"prompt_tokens\""), NumAfter(b, "\"completion_tokens\""),
                   NumAfter(b, "\"total_tokens\""), NumAfter(b, "\"cached_tokens\""),
                   NumAfter(b, "\"reasoning_tokens\""), StrAfter(b, "\"model\""), |b| >= 262144 || encoded);
    }
  }

  /** The penalty is for a metered body in which no figure could be read, and which was
      compressed or filled the buffer. */
  lemma PenaltyExactly(metered: bool, encoded: bool, body: Option<string>)
    ensures
      var b := if body.Some? then body.value else "";
      Parse(metered, encoded, body).quality == Penalty <==>
        && metered && (encoded || |b| >= 262144)
        && NumAfter(b, "\"prompt_tokens\"") == NumAfter(b, "\"completion_tokens\"") == 0
        && NumAfter(b, "\"total_tokens\"") == 0
  {
    var b := if body.Some? then body.value else "";
    MeteredCosts(NumAfter(b, "\"prompt_tokens\""), NumAfter(b, "\"completion_tokens\""),
                 NumAfter(b, "\"total_tokens\""), NumAfter(b, "\"cached_tokens\""),
                 NumAfter(b, "\"reasoning_tokens\""), StrAfter(b, "\"model\""), |b| >= 262144 || encoded);
  }

  lemma MeteredCosts(p: nat, c: nat, stated: nat, cached: nat, reasoning: nat, model: string, hidden: bool)
    ensures
      var u := Metered(p, c, stated, cached, reasoning, model, hidden);
      && (u.quality == Penalty <==> hidden && p == c == 0 && stated == 0)
      && (u.quality == Unmetered <==> u.tokens == Tokens(0, 0, 0))
      && (u.quality == Unmetered <==> u.tokens.total == 0)
      && (u.quality == Penalty ==> u.tokens == Tokens(65536, 65536, 65536))
  {
  }

  // ---------- The record line ----------

  function RecordFields(now: nat, identity: string, u: Usage, tier: string, route: string): seq<string> {
    [Dec(now), UsageLedger.Safe(identity, 96), UsageLedger.Safe(u.model, 64), UsageLedger.Safe(tier, 32),
     Dec(u.tokens.prompt), Dec(u.tokens.completion), Dec(u.cached), Dec(u.reasoning),
     QualityText(u.quality), UsageLedger.Safe(route, 64)]
  }

  function RecordText(now: nat, identity: string, u: Usage, tier: string, route: string): string {
    Join(RecordFields(now, identity, u, tier, route), '|')
  }

  lemma NoPipe(s: string, max: nat)
    ensures '|' !in UsageLedger.Safe(s, max)
  {
  }

  lemma NoPipeDigits(s: string)
    requires AllDigits(s)
    ensures '|' !in s
  {
    assert forall c | c in s :: exists i | 0 <= i < |s| :: s[i] == c;
  }

  /** The collector gets back the ten fields by splitting at the pipes. */
  lemma RecordRoundTrip(now: nat, identity: string, u: Usage, tier: string, route: string)
    ensures Split(RecordText(now, identity, u, tier, route), '|') == RecordFields(now, identity, u, tier, route)
  {
    var fields := RecordFields(now, identity, u, tier, route);
    NoPipe(identity, 96);
    NoPipe(u.model, 64);
    NoPipe(tier, 32);
    NoPipe(route, 64);
    NoPipeDigits(Dec(now));
    NoPipeDigits(Dec(u.tokens.prompt));
    NoPipeDigits(Dec(u.tokens.completion));
    NoPipeDigits(Dec(u.cached));
    NoPipeDigits(Dec(u.reasoning));
    assert forall i | 0 <= i < 10 :: '|' !in fields[i];
    SplitJoin(fields, '|');
  }
}
