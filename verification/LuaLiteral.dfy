/** Strings printed as Lua literals into the generated scripts, and read back by the
    lexical rules for short literals (section 2.1 of the Lua 5.1 Reference Manual). */
module LuaLiteral {
  import opened Text

  function Escape(c: char): string {
    if c == '\\' then "\\\\"
    else if c == '"' then "\\\""
    else if c == '\n' then "\\n"
    else if c == '\r' then "\\r"
    else if c == '\t' then "\\t"
    else [c]
  }

  function EscapeAll(s: string): string {
    if s == [] then [] else Escape(s[0]) + EscapeAll(s[1..])
  }

  function LuaStr(s: string): string { "\"" + EscapeAll(s) + "\"" }

  // ---------- Reading a short literal ----------

  /** One to three digits after a backslash; None when they exceed 255. */
  function Decimal(s: string): (r: Option<(char, string)>)
    requires s != [] && IsDigit(s[0])
    ensures r.Some? ==> |r.value.1| < |s|
  {
    var n := if |s| >= 3 && IsDigit(s[1]) && IsDigit(s[2]) then 3 else if |s| >= 2 && IsDigit(s[1]) then 2 else 1;
    var v := Value(s[..n]);
    if v > 255 then None else Some((v as char, s[n..]))
  }

  /** The body of a literal opened by a double quote, up to and including the
      closing one: its value and what follows it. */
  function Body(s: string): (r: Option<(string, string)>)
    ensures r.Some? ==> |r.value.1| < |s|
    decreases |s|
  {
    if s == [] || s[0] == '\n' || s[0] == '\r' then None
    else if s[0] == '"' then Some(([], s[1..]))
    else if s[0] != '\\' then Prepend(s[0], Body(s[1..]))
    else if |s| < 2 then None
    else if IsDigit(s[1]) then
      match Decimal(s[1..])
      case None => None
      case Some(d) => Prepend(d.0, Body(d.1))
    else Prepend(Escaped(s[1]), Body(s[2..]))
  }

  function Prepend(c: char, r: Option<(string, string)>): (p: Option<(string, string)>)
    ensures p.Some? <==> r.Some?
    ensures p.Some? ==> p.value.1 == r.value.1
  {
    match r
    case None => None
    case Some(v) => Some(([c] + v.0, v.1))
  }

  /** The character a letter escape stands for; any other character is itself. */
  function Escaped(c: char): char {
    if c == 'n' then '\n'
    else if c == 'r' then '\r'
    else if c == 't' then '\t'
    else if c == 'a' then 7 as char
    else if c == 'b' then 8 as char
    else if c == 'f' then 12 as char
    else if c == 'v' then 11 as char
    else c
  }

  function Literal(s: string): (r: Option<(string, string)>)
    ensures r.Some? ==> |r.value.1| < |s|
  {
    if s != [] && s[0] == '"' then Body(s[1..]) else None
  }

  lemma {:induction false} BodyReadsEscaped(s: string, rest: string)
    ensures Body(EscapeAll(s) + "\"" + rest) == Some((s, rest))
  {
    if s == [] {
      assert EscapeAll(s) + "\"" + rest == "\"" + rest;
      assert ("\"" + rest)[1..] == rest;
    } else {
      var tail := EscapeAll(s[1..]) + "\"" + rest;
      BodyReadsEscaped(s[1..], rest);
      assert EscapeAll(s) + "\"" + rest == Escape(s[0]) + tail;
      EscapeReads(s[0], tail);
      assert s == [s[0]] + s[1..];
    }
  }

  lemma EscapeReads(c: char, tail: string)
    ensures Body(Escape(c) + tail) == Prepend(c, Body(tail))
  {
    var all := Escape(c) + tail;
    if |Escape(c)| == 2 {
      assert all[0] == '\\' && all[1] == Escape(c)[1] && all[2..] == tail;
      assert !IsDigit(all[1]);
    } else {
      assert all[0] == c && all[1..] == tail;
    }
  }

  /** A printed string reads back as itself, and the reader stops exactly at the end
      of the literal, whatever follows. */
  lemma LiteralRoundTrip(s: string, rest: string)
    ensures Literal(LuaStr(s) + rest) == Some((s, rest))
  {
    var all := LuaStr(s) + rest;
    assert all[0] == '"' && all[1..] == EscapeAll(s) + "\"" + rest;
    BodyReadsEscaped(s, rest);
  }

  // ---------- Printed string tables ----------

  function Entry(k: string, v: string): string { "[" + LuaStr(k) + "]=" + LuaStr(v) }

  function Entries(pairs: seq<(string, string)>): string {
    if pairs == [] then ""
    else if |pairs| == 1 then Entry(pairs[0].0, pairs[0].1)
    else Entry(pairs[0].0, pairs[0].1) + ", " + Entries(pairs[1..])
  }

  function TableText(pairs: seq<(string, string)>): string { "{ " + Entries(pairs) + " }" }

  function ReadEntry(s: string): (r: Option<((string, string), string)>)
    ensures r.Some? ==> |r.value.1| < |s|
  {
    var s1 :- Expect(s, "[");
    var k :- Literal(s1);
    var s2 :- Expect(k.1, "]=");
    var v :- Literal(s2);
    Some(((k.0, v.0), v.1))
  }

  function ReadEntries(s: string): Option<(seq<(string, string)>, string)>
    decreases |s|
  {
    match ReadEntry(s)
    case None => None
    case Some(e) =>
      match Expect(e.1, ", ")
      case None => Some(([e.0], e.1))
      case Some(s1) =>
        match ReadEntries(s1)
        case None => None
        case Some(es) => Some(([e.0] + es.0, es.1))
  }

  /** The entries of a printed table constructor, in order. */
  function ReadTable(s: string): Option<seq<(string, string)>> {
    match Expect(s, "{ ")
    case None => None
    case Some(s1) =>
      if s1 == " }" then Some([])
      else
        match ReadEntries(s1)
        case None => None
        case Some(es) => if es.1 == " }" then Some(es.0) else None
  }

  lemma EntryText(k: string, v: string, rest: string)
    ensures "[" + k + "]=" + v + rest == "[" + (k + ("]=" + (v + rest)))
  {
  }

  lemma ReadEntryReads(k: string, v: string, rest: string)
    ensures ReadEntry(Entry(k, v) + rest) == Some(((k, v), rest))
  {
    var s2 := LuaStr(v) + rest;
    var s1 := LuaStr(k) + ("]=" + s2);
    EntryText(LuaStr(k), LuaStr(v), rest);
    assert ("[" + s1)[1..] == s1;
    LiteralRoundTrip(k, "]=" + s2);
    assert ("]=" + s2)[2..] == s2;
    LiteralRoundTrip(v, rest);
  }

  lemma ReadEntriesNext(s: string, e: (string, string), more: string, es: seq<(string, string)>, rest: string)
    requires ReadEntry(s) == Some((e, ", " + more)) && ReadEntries(more) == Some((es, rest))
    ensures ReadEntries(s) == Some(([e] + es, rest))
  {
    assert (", " + more)[2..] == more && ", " <= ", " + more;
  }

  lemma ReadEntriesLast(s: string, e: (string, string), rest: string)
    requires ReadEntry(s) == Some((e, rest)) && !(", " <= rest)
    ensures ReadEntries(s) == Some(([e], rest))
  {
  }

  lemma {:induction false} ReadEntriesReads(pairs: seq<(string, string)>, rest: string)
    requires pairs != [] && !(", " <= rest)
    ensures ReadEntries(Entries(pairs) + rest) == Some((pairs, rest))
  {
    if |pairs| == 1 {
      ReadsLast(pairs[0], rest);
      assert pairs == [pairs[0]];
    } else {
      ReadEntriesReads(pairs[1..], rest);
      ReadsMore(pairs, rest);
    }
  }

  lemma ReadsMore(pairs: seq<(string, string)>, rest: string)
    requires |pairs| > 1 && ReadEntries(Entries(pairs[1..]) + rest) == Some((pairs[1..], rest))
    ensures ReadEntries(Entries(pairs) + rest) == Some((pairs, rest))
  {
    EntriesSplit(pairs, rest);
    ReadsThenMore(pairs[0], Entries(pairs[1..]) + rest, pairs[1..], rest);
    assert pairs == [pairs[0]] + pairs[1..];
  }

  lemma ReadsLast(e: (string, string), rest: string)
    requires !(", " <= rest)
    ensures ReadEntries(Entry(e.0, e.1) + rest) == Some(([e], rest))
  {
    ReadEntryReads(e.0, e.1, rest);
    ReadEntriesLast(Entry(e.0, e.1) + rest, e, rest);
  }

  lemma ReadsThenMore(e: (string, string), more: string, es: seq<(string, string)>, rest: string)
    requires ReadEntries(more) == Some((es, rest))
    ensures ReadEntries(Entry(e.0, e.1) + (", " + more)) == Some(([e] + es, rest))
  {
    ReadEntryReads(e.0, e.1, ", " + more);
    ReadEntriesNext(Entry(e.0, e.1) + (", " + more), e, more, es, rest);
  }

  lemma EntriesSplit(pairs: seq<(string, string)>, rest: string)
    requires |pairs| > 1
    ensures Entries(pairs) + rest == Entry(pairs[0].0, pairs[0].1) + (", " + (Entries(pairs[1..]) + rest))
  {
    Regroup(Entry(pairs[0].0, pairs[0].1), Entries(pairs[1..]), rest);
  }

  lemma Regroup(a: string, b: string, c: string)
    ensures a + ", " + b + c == a + (", " + (b + c))
  {
  }

  lemma TableRoundTrip(pairs: seq<(string, string)>)
    ensures ReadTable(TableText(pairs)) == Some(pairs)
  {
    var s1 := Entries(pairs) + " }";
    assert TableText(pairs) == "{ " + s1 && ("{ " + s1)[2..] == s1;
    if pairs == [] {
      assert s1 == " }";
    } else {
      assert s1[0] == '[';
      assert !(", " <= " }") by { assert " }"[0] == ' '; }
      ReadEntriesReads(pairs, " }");
    }
  }

  /** Later entries of a constructor replace earlier ones with the same key. */
  function Fill(pairs: seq<(string, string)>): map<string, string> {
    if pairs == [] then map[]
    else Fill(pairs[..|pairs| - 1])[pairs[|pairs| - 1].0 := pairs[|pairs| - 1].1]
  }

  function PairsOf(keys: seq<string>, m: map<string, string>): (p: seq<(string, string)>)
    requires forall i | 0 <= i < |keys| :: keys[i] in m
    ensures |p| == |keys| && forall i | 0 <= i < |keys| :: p[i] == (keys[i], m[keys[i]])
  {
    seq(|keys|, i requires 0 <= i < |keys| => (keys[i], m[keys[i]]))
  }

  lemma {:induction false} FillPairs(keys: seq<string>, m: map<string, string>)
    requires forall i | 0 <= i < |keys| :: keys[i] in m
    ensures forall k :: k in Fill(PairsOf(keys, m)) <==> k in keys
    ensures forall k | k in keys :: Fill(PairsOf(keys, m))[k] == m[k]
  {
    if keys != [] {
      var init := keys[..|keys| - 1];
      assert keys == init + [keys[|keys| - 1]];
      FillPairs(init, m);
      assert PairsOf(keys, m)[..|keys| - 1] == PairsOf(init, m);
    }
  }

  /** A string map printed with its keys in any order reads back as the same map. */
  lemma MapRoundTrip(keys: seq<string>, m: map<string, string>)
    requires forall k :: k in keys <==> k in m
    ensures
      (forall i | 0 <= i < |keys| :: keys[i] in m) &&
      var read := ReadTable(TableText(PairsOf(keys, m)));
      read.Some? && Fill(read.value) == m
  {
    assert forall i | 0 <= i < |keys| :: keys[i] in keys;
    TableRoundTrip(PairsOf(keys, m));
    FillPairs(keys, m);
    assert Fill(PairsOf(keys, m)) == m;
  }
}
