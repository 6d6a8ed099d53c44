/** What the usage scan makes of a response body as a backend writes it: each figure is
    read under its own key, whatever the order of the keys. */
module UsageBody {
  import opened Text
  import opened TokenCounters
  import opened UsageParse

  // ---------- A text cut at its quotes ----------

  /** The quote-free stretches of a text, in order, and where each begins. */
  datatype Cut = Cut(fields: seq<string>, starts: seq<nat>)

  ghost predicate IsField(s: string, from: nat, field: string) {
    && from + |field| <= |s|
    && forall p | from <= p < from + |field| :: s[p] == field[p - from] && s[p] != '"'
  }

  /** Field i stands where it should; a quote or the end of the text follows it. */
  ghost predicate FieldOk(s: string, c: Cut, i: nat)
    requires |c.fields| == |c.starts| && i < |c.fields|
  {
    && IsField(s, c.starts[i], c.fields[i])
    && if i == |c.fields| - 1 then c.starts[i] + |c.fields[i]| == |s|
       else
         && c.starts[i] + |c.fields[i]| < |s| && s[c.starts[i] + |c.fields[i]|] == '"'
         && c.starts[i + 1] == c.starts[i] + |c.fields[i]| + 1
  }

  ghost predicate IsCut(s: string, c: Cut) {
    && |c.fields| == |c.starts| > 0 && c.starts[0] == 0
    && forall i | 0 <= i < |c.fields| :: FieldOk(s, c, i)
  }

  function InQuotes(name: string): string { "\"" + name + "\"" }

  lemma {:induction false} Cutting(fields: seq<string>) returns (c: Cut)
    requires fields != [] && forall i | 0 <= i < |fields| :: '"' !in fields[i]
    ensures IsCut(Join(fields, '"'), c) && c.fields == fields
  {
    if |fields| == 1 {
      c := Cut(fields, [0]);
    } else {
      var rest := Cutting(fields[1..]);
      var f := |fields[0]|;
      c := Cut(fields, [0] + seq(|rest.starts|, i requires 0 <= i < |rest.starts| => rest.starts[i] + f + 1));
      Prepended(Join(fields, '"'), fields[0], Join(fields[1..], '"'), c, rest);
    }
  }

  lemma Prepended(s: string, field: string, t: string, c: Cut, rest: Cut)
    requires s == field + ['"'] + t && '"' !in field && IsCut(t, rest)
    requires |c.fields| == |c.starts| == |rest.fields| + 1 && c.fields[0] == field && c.starts[0] == 0
    requires
      forall j | 0 <= j < |rest.fields| ::
        c.fields[j + 1] == rest.fields[j] && c.starts[j + 1] == rest.starts[j] + |field| + 1
    ensures IsCut(s, c)
  {
    Halved(s, field, t);
    assert c.starts[0 + 1] == rest.starts[0] + |field| + 1;
    Resting(s, t, |field| + 1, c, rest);
  }

  lemma Halved(s: string, field: string, t: string)
    requires s == field + ['"'] + t && '"' !in field
    ensures |s| == |field| + 1 + |t| && s[|field|] == '"' && IsField(s, 0, field)
    ensures forall k | 0 <= k < |t| :: s[|field| + 1 + k] == t[k]
  {
    forall p | 0 <= p < |field| ensures s[p] == field[p] && s[p] != '"' {
      assert field[p] in field;
    }
  }

  lemma Resting(s: string, t: string, shift: nat, c: Cut, rest: Cut)
    requires |s| == shift + |t| && forall k | 0 <= k < |t| :: s[shift + k] == t[k]
    requires IsCut(t, rest) && |c.fields| == |c.starts| == |rest.fields| + 1 && c.starts[0] == 0
    requires FieldOk(s, c, 0)
    requires
      forall j | 0 <= j < |rest.fields| ::
        c.fields[j + 1] == rest.fields[j] && c.starts[j + 1] == rest.starts[j] + shift
    ensures IsCut(s, c)
  {
    forall i | 0 <= i < |c.fields| ensures FieldOk(s, c, i) {
      if i > 0 {
        Shifted(s, t, shift, c, rest, i - 1);
      }
    }
  }

  lemma Shifted(s: string, t: string, shift: nat, c: Cut, rest: Cut, i: nat)
    requires |s| == shift + |t| && forall k | 0 <= k < |t| :: s[shift + k] == t[k]
    requires IsCut(t, rest) && i < |rest.fields|
    requires |c.fields| == |c.starts| == |rest.fields| + 1
    requires
      forall j | 0 <= j < |rest.fields| ::
        c.fields[j + 1] == rest.fields[j] && c.starts[j + 1] == rest.starts[j] + shift
    ensures FieldOk(s, c, i + 1)
  {
    assert FieldOk(t, rest, i);
    assert c.fields[i + 1] == rest.fields[i] && c.starts[i + 1] == rest.starts[i] + shift;
    forall p | c.starts[i + 1] <= p < c.starts[i + 1] + |c.fields[i + 1]|
      ensures s[p] == c.fields[i + 1][p - c.starts[i + 1]] && s[p] != '"'
    {
      assert s[shift + (p - shift)] == t[p - shift];
    }
    if i < |rest.fields| - 1 {
      assert c.starts[i + 1 + 1] == rest.starts[i + 1] + shift;
    }
  }

  /** Every position belongs to a field or is the quote after one. */
  lemma {:induction false} Locate(s: string, c: Cut, q: nat, n: nat) returns (i: nat)
    requires IsCut(s, c) && n < |c.fields| && q < |s| && q <= c.starts[n] + |c.fields[n]|
    ensures i <= n && c.starts[i] <= q <= c.starts[i] + |c.fields[i]|
  {
    if c.starts[n] <= q {
      i := n;
    } else {
      assert n > 0 && FieldOk(s, c, n - 1);
      i := Locate(s, c, q, n - 1);
    }
  }

  /** A quoted name occurs only as a field with a quote on either side. */
  lemma OnlyFields(s: string, c: Cut, name: string, q: nat) returns (i: nat)
    requires IsCut(s, c) && '"' !in name && At(s, q, InQuotes(name))
    ensures 1 <= i < |c.fields| - 1 && c.fields[i] == name && q + 1 == c.starts[i]
  {
    QuotedAt(s, q, name);
    var last := |c.fields| - 1;
    assert FieldOk(s, c, last);
    var j := Locate(s, c, q, last);
    assert FieldOk(s, c, j);
    assert q == c.starts[j] + |c.fields[j]|;
    i := j + 1;
    assert FieldOk(s, c, i);
    SameWord(s, c.starts[i], name, c.fields[i]);
  }

  /** A quoted name, character by character. */
  lemma QuotedAt(s: string, q: nat, name: string)
    requires '"' !in name
    ensures At(s, q, InQuotes(name)) <==>
              q + |name| + 2 <= |s| && s[q] == '"' && s[q + |name| + 1] == '"' && IsField(s, q + 1, name)
  {
    var key := InQuotes(name);
    if At(s, q, key) {
      forall p | q + 1 <= p < q + 1 + |name| ensures s[p] == name[p - q - 1] && s[p] != '"' {
        assert s[q..q + |key|][p - q] == key[p - q] == name[p - q - 1];
        assert name[p - q - 1] in name;
      }
      assert s[q..q + |key|][0] == '"' && s[q..q + |key|][|name| + 1] == '"';
    }
    if q + |name| + 2 <= |s| && s[q] == '"' && s[q + |name| + 1] == '"' && IsField(s, q + 1, name) {
      assert s[q..q + |key|] == key;
    }
  }

  /** Two quote-free words that begin at one place and end in a quote, or the end. */
  lemma SameWord(s: string, from: nat, name: string, field: string)
    requires IsField(s, from, name) && from + |name| < |s| && s[from + |name|] == '"'
    requires IsField(s, from, field) && (from + |field| < |s| ==> s[from + |field|] == '"')
    ensures name == field && from + |field| < |s|
  {
    assert |name| == |field|;
    forall k | 0 <= k < |name| ensures name[k] == field[k] {
      assert s[from + k] == name[k];
    }
  }

  lemma FieldQuoted(s: string, c: Cut, i: nat)
    requires IsCut(s, c) && 1 <= i < |c.fields| - 1 && '"' !in c.fields[i]
    ensures c.starts[i] >= 1 && At(s, c.starts[i] - 1, InQuotes(c.fields[i]))
  {
    assert FieldOk(s, c, i - 1) && FieldOk(s, c, i);
    QuotedAt(s, c.starts[i] - 1, c.fields[i]);
  }

  lemma {:induction false} StartsGrow(s: string, c: Cut, i: nat, j: nat)
    requires IsCut(s, c) && i < j < |c.fields|
    ensures c.starts[i] < c.starts[j]
  {
    assert FieldOk(s, c, j - 1);
    if i < j - 1 {
      StartsGrow(s, c, i, j - 1);
    }
  }

  lemma FieldPlain(s: string, from: nat, field: string)
    requires IsField(s, from, field)
    ensures '"' !in field
  {
    forall k | 0 <= k < |field| ensures field[k] != '"' {
      assert s[from + k] == field[k];
    }
  }

  /** The first occurrence of a name is its first field. */
  lemma FindsField(s: string, c: Cut, i: nat)
    requires IsCut(s, c) && 1 <= i < |c.fields| - 1 && forall j | 1 <= j < i :: c.fields[j] != c.fields[i]
    ensures c.starts[i] >= 1 && FindFrom(s, InQuotes(c.fields[i]), 0) == Some(c.starts[i] - 1)
  {
    assert FieldOk(s, c, i);
    FieldPlain(s, c.starts[i], c.fields[i]);
    FieldQuoted(s, c, i);
    FindFromFirst(s, InQuotes(c.fields[i]), 0);
    var q := FindFrom(s, InQuotes(c.fields[i]), 0).value;
    var j := OnlyFields(s, c, c.fields[i], q);
    if j > i {
      StartsGrow(s, c, i, j);
    }
  }

  /** So a figure is read from what follows that field. */
  lemma NumField(s: string, c: Cut, i: nat)
    requires IsCut(s, c) && 1 <= i < |c.fields| - 1 && forall j | 1 <= j < i :: c.fields[j] != c.fields[i]
    ensures FieldOk(s, c, i + 1)
    ensures NumAfter(s, InQuotes(c.fields[i])) == NumFrom(s, c.starts[i + 1])
  {
    FieldEnds(s, c, i);
    NumReading(s, InQuotes(c.fields[i]), FindFrom(s, InQuotes(c.fields[i]), 0));
  }

  /** And so is a value. */
  lemma StrField(s: string, c: Cut, i: nat)
    requires IsCut(s, c) && 1 <= i < |c.fields| - 1 && forall j | 1 <= j < i :: c.fields[j] != c.fields[i]
    ensures FieldOk(s, c, i + 1)
    ensures StrAfter(s, InQuotes(c.fields[i])) == StrFrom(s, c.starts[i + 1])
  {
    FieldEnds(s, c, i);
    StrReading(s, InQuotes(c.fields[i]), FindFrom(s, InQuotes(c.fields[i]), 0));
  }

  lemma FieldEnds(s: string, c: Cut, i: nat)
    requires IsCut(s, c) && 1 <= i < |c.fields| - 1 && forall j | 1 <= j < i :: c.fields[j] != c.fields[i]
    ensures FieldOk(s, c, i + 1)
    ensures
      var r := FindFrom(s, InQuotes(c.fields[i]), 0);
      r.Some? && r.value + |InQuotes(c.fields[i])| == c.starts[i + 1]
  {
    assert FieldOk(s, c, i) && FieldOk(s, c, i + 1);
    FindsField(s, c, i);
  }

  lemma NumReading(s: string, key: string, at: Option<nat>)
    requires at == FindFrom(s, key, 0) && at.Some?
    ensures NumAfter(s, key) == NumFrom(s, at.value + |key|)
  {
  }

  lemma StrReading(s: string, key: string, at: Option<nat>)
    requires at == FindFrom(s, key, 0) && at.Some?
    ensures StrAfter(s, key) == StrFrom(s, at.value + |key|)
  {
  }

  lemma FindsNothing(s: string, c: Cut, name: string)
    requires IsCut(s, c) && '"' !in name && forall j | 1 <= j < |c.fields| - 1 :: c.fields[j] != name
    ensures FindFrom(s, InQuotes(name), 0) == None
  {
    var r := FindFrom(s, InQuotes(name), 0);
    FindFromFirst(s, InQuotes(name), 0);
    if r.Some? {
      var j := OnlyFields(s, c, name, r.value);
    }
  }

  // ---------- Reading one figure, reading the model ----------

  /** A figure with what surrounds it up to the next quote. */
  function Figure(n: nat, tail: string): string { ":" + Dec(n) + tail }

  lemma ReadsFigure(s: string, c: Cut, i: nat, n: nat, tail: string)
    requires IsCut(s, c) && 1 <= i < |c.fields| - 1 && forall j | 1 <= j < i :: c.fields[j] != c.fields[i]
    requires c.fields[i + 1] == Figure(n, tail) && (tail != "" ==> !IsDigit(tail[0]))
    ensures NumAfter(s, InQuotes(c.fields[i])) == n
  {
    NumField(s, c, i);
    FigureRead(s, c.starts[i + 1], n, tail);
  }

  lemma FigureRead(s: string, from: nat, n: nat, tail: string)
    requires IsField(s, from, Figure(n, tail)) && (tail != "" ==> !IsDigit(tail[0]))
    requires from + |Figure(n, tail)| < |s| ==> s[from + |Figure(n, tail)|] == '"'
    ensures NumFrom(s, from) == n
  {
    Numeral(s, from, Dec(n), tail);
    NumFromReads(s, from, n, from + 1, from + 1 + |Dec(n)|);
  }

  lemma Numeral(s: string, from: nat, digits: string, tail: string)
    requires IsField(s, from, ":" + digits + tail) && (tail != "" ==> !IsDigit(tail[0]))
    requires from + |digits| + |tail| + 1 < |s| ==> s[from + |digits| + |tail| + 1] == '"'
    ensures s[from] == ':' && from + 1 + |digits| <= |s| && s[from + 1..from + 1 + |digits|] == digits
    ensures from + 1 + |digits| < |s| ==> !IsDigit(s[from + 1 + |digits|])
  {
    var v := ":" + digits + tail;
    assert s[from] == v[0];
    assert s[from + 1..from + 1 + |digits|] == digits;
    if tail != "" {
      assert s[from + 1 + |digits|] == v[1 + |digits|] == tail[0];
    }
  }

  lemma ReadsText(s: string, c: Cut, i: nat)
    requires IsCut(s, c) && 1 <= i < |c.fields| - 3 && forall j | 1 <= j < i :: c.fields[j] != c.fields[i]
    ensures StrAfter(s, InQuotes(c.fields[i])) == c.fields[i + 2]
  {
    StrField(s, c, i);
    ValueField(s, c, i);
  }

  lemma ValueField(s: string, c: Cut, i: nat)
    requires IsCut(s, c) && i < |c.fields| - 3
    ensures FieldOk(s, c, i + 1) && StrFrom(s, c.starts[i + 1]) == c.fields[i + 2]
  {
    assert FieldOk(s, c, i + 1) && FieldOk(s, c, i + 2);
    ValueRead(s, c.starts[i + 1], c.fields[i + 1], c.fields[i + 2]);
  }

  lemma ValueRead(s: string, from: nat, gap: string, value: string)
    requires IsField(s, from, gap) && from + |gap| < |s| && s[from + |gap|] == '"'
    requires
      var v := from + |gap| + 1;
      IsField(s, v, value) && v + |value| < |s| && s[v + |value|] == '"'
    ensures StrFrom(s, from) == value
  {
    var v := from + |gap| + 1;
    NextQuote(s, gap, from);
    NextQuote(s, value, v);
    Slice(s, v, value);
  }

  lemma Slice(s: string, from: nat, field: string)
    requires IsField(s, from, field)
    ensures s[from..from + |field|] == field
  {
  }

  lemma NextQuote(s: string, field: string, from: nat)
    requires IsField(s, from, field) && from + |field| < |s| && s[from + |field|] == '"'
    ensures QuoteFrom(s, from) == from + |field|
  {
  }

  // ---------- Bodies as a backend writes them ----------

  type Figures = seq<(string, nat)>

  /** Keys are words of small letters and underscores. */
  predicate IsWord(w: string) {
    w != "" && forall i | 0 <= i < |w| :: 'a' <= w[i] <= 'z' || w[i] == '_'
  }

  ghost predicate Keyed(figs: Figures) {
    && figs != []
    && (forall i | 0 <= i < |figs| :: IsWord(figs[i].0) && figs[i].0 != "model" && figs[i].0 != "usage")
    && (forall i, j | 0 <= i < j < |figs| :: figs[i].0 != figs[j].0)
  }

  function TailAt(figs: Figures, i: nat, tail: string): string { if i == |figs| - 1 then tail else "," }

  /** The members of the usage object, cut at the quotes. */
  function Members(figs: Figures, tail: string): (fs: seq<string>)
    ensures |fs| == 2 * |figs|
  {
    seq(2 * |figs|, k requires 0 <= k < 2 * |figs| =>
      if k % 2 == 0 then figs[k / 2].0 else Figure(figs[k / 2].1, TailAt(figs, k / 2, tail)))
  }

  function Tail(modelFirst: bool): string { if modelFirst then "}}" else "}," }

  function Front(model: string, modelFirst: bool): seq<string> {
    if modelFirst then ["{", "model", ":", model, ",", "usage", ":{"] else ["{", "usage", ":{"]
  }

  function Back(model: string, modelFirst: bool): seq<string> {
    if modelFirst then [] else ["model", ":", model, "}"]
  }

  /** The body, the model before the usage object or after it. */
  function BodyFields(model: string, figs: Figures, modelFirst: bool): seq<string> {
    Framed(Front(model, modelFirst), figs, Tail(modelFirst), Back(model, modelFirst))
  }

  function BodyText(model: string, figs: Figures, modelFirst: bool): string {
    Join(BodyFields(model, figs, modelFirst), '"')
  }

  /** The figure under a key, 0 when there is none. */
  function FigureOf(figs: Figures, name: string): nat {
    if figs == [] then 0 else if figs[0].0 == name then figs[0].1 else FigureOf(figs[1..], name)
  }

  lemma {:induction false} FigureAt(figs: Figures, name: string) returns (i: nat)
    ensures i <= |figs|
    ensures i < |figs| ==> figs[i].0 == name && FigureOf(figs, name) == figs[i].1
    ensures i == |figs| ==> FigureOf(figs, name) == 0 && forall j | 0 <= j < |figs| :: figs[j].0 != name
  {
    if figs == [] || figs[0].0 == name {
      i := 0;
    } else {
      i := FigureAt(figs[1..], name);
      assert forall j | 0 < j < |figs| :: figs[j] == figs[1..][j - 1];
      i := i + 1;
    }
  }

  lemma FigurePlain(n: nat, tail: string)
    requires '"' !in tail
    ensures '"' !in Figure(n, tail)
    ensures forall w | IsWord(w) :: Figure(n, tail) != w
  {
    assert forall c | c in Dec(n) :: exists i | 0 <= i < |Dec(n)| :: Dec(n)[i] == c;
    forall w | IsWord(w) ensures Figure(n, tail) != w {
      assert Figure(n, tail)[0] == ':' && w[0] != ':';
    }
  }

  lemma WordPlain(w: string)
    requires IsWord(w)
    ensures '"' !in w
  {
  }

  ghost predicate Clean(fs: seq<string>) { forall i | 0 <= i < |fs| :: '"' !in fs[i] }

  ghost predicate Lacks(fs: seq<string>, from: nat, w: string) { forall j | from <= j < |fs| :: fs[j] != w }

  /** The members of the usage object between what stands before and after them. */
  function Framed(front: seq<string>, figs: Figures, tail: string, back: seq<string>): seq<string> {
    front + Members(figs, tail) + back
  }

  /** The same, field by field. */
  ghost predicate IsFramed(fs: seq<string>, front: seq<string>, figs: Figures, tail: string, back: seq<string>) {
    && |fs| == |front| + 2 * |figs| + |back|
    && (forall j | 0 <= j < |front| :: fs[j] == front[j])
    && (forall i | 0 <= i < |figs| :: IsPair(fs, |front| + 2 * i, figs[i], TailAt(figs, i, tail)))
    && (forall j | 0 <= j < |back| :: fs[|front| + 2 * |figs| + j] == back[j])
  }

  ghost predicate IsPair(fs: seq<string>, at: nat, fig: (string, nat), tail: string) {
    at + 1 < |fs| && fs[at] == fig.0 && fs[at + 1] == Figure(fig.1, tail)
  }

  lemma Framing(front: seq<string>, figs: Figures, tail: string, back: seq<string>)
    ensures IsFramed(Framed(front, figs, tail, back), front, figs, tail, back)
  {
    var fs, ms := Framed(front, figs, tail, back), Members(figs, tail);
    Ends(front, ms, back);
    forall i | 0 <= i < |figs| ensures IsPair(fs, |front| + 2 * i, figs[i], TailAt(figs, i, tail)) {
      MemberPair(figs, tail, i);
      PairMoves(front, ms, back, 2 * i, figs[i], TailAt(figs, i, tail));
    }
  }

  lemma Ends(a: seq<string>, b: seq<string>, c: seq<string>)
    ensures |a + b + c| == |a| + |b| + |c|
    ensures forall j | 0 <= j < |a| :: (a + b + c)[j] == a[j]
    ensures forall j | 0 <= j < |c| :: (a + b + c)[|a| + |b| + j] == c[j]
  {
  }

  lemma PairMoves(a: seq<string>, b: seq<string>, c: seq<string>, at: nat, fig: (string, nat), tail: string)
    requires IsPair(b, at, fig, tail)
    ensures IsPair(a + b + c, |a| + at, fig, tail)
  {
  }

  lemma MemberPair(figs: Figures, tail: string, i: nat)
    requires i < |figs|
    ensures IsPair(Members(figs, tail), 2 * i, figs[i], TailAt(figs, i, tail))
  {
    assert 2 * i % 2 == 0 && 2 * i / 2 == i && (2 * i + 1) % 2 == 1 && (2 * i + 1) / 2 == i;
  }

  /** Where field j of a framed body belongs. */
  lemma PlaceOf(fs: seq<string>, front: seq<string>, figs: Figures, tail: string, back: seq<string>, j: nat)
    returns (i: nat)
    requires IsFramed(fs, front, figs, tail, back) && j < |fs|
    ensures j < |front| ==> fs[j] == front[j]
    ensures
      |front| <= j < |front| + 2 * |figs| ==>
        i < |figs| && (if j == |front| + 2 * i then fs[j] == figs[i].0
                       else j == |front| + 2 * i + 1 && fs[j] == Figure(figs[i].1, TailAt(figs, i, tail)))
    ensures |front| + 2 * |figs| <= j ==> fs[j] == back[j - |front| - 2 * |figs|]
  {
    i := 0;
    if |front| <= j < |front| + 2 * |figs| {
      i := (j - |front|) / 2;
      assert IsPair(fs, |front| + 2 * i, figs[i], TailAt(figs, i, tail));
    } else if j >= |front| {
      assert fs[|front| + 2 * |figs| + (j - |front| - 2 * |figs|)] == back[j - |front| - 2 * |figs|];
    }
  }

  lemma FramedClean(fs: seq<string>, front: seq<string>, figs: Figures, tail: string, back: seq<string>)
    requires IsFramed(fs, front, figs, tail, back)
    requires Keyed(figs) && '"' !in tail && Clean(front) && Clean(back)
    ensures Clean(fs)
  {
    forall j | 0 <= j < |fs| ensures '"' !in fs[j] {
      var i := PlaceOf(fs, front, figs, tail, back, j);
      if |front| <= j < |front| + 2 * |figs| {
        WordPlain(figs[i].0);
        FigurePlain(figs[i].1, TailAt(figs, i, tail));
      }
    }
  }

  /** A word the frame lacks is found among the fields only as a key. */
  lemma OnlyKeys(fs: seq<string>, front: seq<string>, figs: Figures, tail: string, back: seq<string>, w: string,
                 j: nat)
    returns (i: nat)
    requires IsFramed(fs, front, figs, tail, back)
    requires '"' !in tail && IsWord(w) && Lacks(front, 1, w)
    requires 1 <= j < |front| + 2 * |figs| && fs[j] == w
    ensures i < |figs| && j == |front| + 2 * i && figs[i].0 == w
  {
    i := PlaceOf(fs, front, figs, tail, back, j);
    if |front| <= j {
      FigurePlain(figs[i].1, TailAt(figs, i, tail));
    }
  }

  lemma KeyIsFirst(fs: seq<string>, front: seq<string>, figs: Figures, tail: string, back: seq<string>, i: nat)
    requires IsFramed(fs, front, figs, tail, back)
    requires Keyed(figs) && '"' !in tail && i < |figs| && Lacks(front, 1, figs[i].0)
    ensures forall j | 1 <= j < |front| + 2 * i :: fs[j] != figs[i].0
  {
    forall j | 1 <= j < |front| + 2 * i ensures fs[j] != figs[i].0 {
      if fs[j] == figs[i].0 {
        var i' := OnlyKeys(fs, front, figs, tail, back, figs[i].0, j);
      }
    }
  }

  /** A stated figure is read under its own key. */
  lemma StatedReads(fs: seq<string>, front: seq<string>, figs: Figures, tail: string, back: seq<string>, i: nat)
    requires IsFramed(fs, front, figs, tail, back)
    requires Keyed(figs) && '"' !in tail && i < |figs| && front != [] && Clean(front) && Clean(back)
    requires (tail != "" ==> !IsDigit(tail[0])) && Lacks(front, 1, figs[i].0)
    ensures NumAfter(Join(fs, '"'), InQuotes(figs[i].0)) == figs[i].1
  {
    FramedClean(fs, front, figs, tail, back);
    var c := Cutting(fs);
    KeyIsFirst(fs, front, figs, tail, back, i);
    assert IsPair(fs, |front| + 2 * i, figs[i], TailAt(figs, i, tail));
    ReadsFigure(Join(fs, '"'), c, |front| + 2 * i, figs[i].1, TailAt(figs, i, tail));
  }

  /** A key that is not there reads as 0. */
  lemma AbsentReads(fs: seq<string>, front: seq<string>, figs: Figures, tail: string, back: seq<string>, w: string)
    requires IsFramed(fs, front, figs, tail, back)
    requires Keyed(figs) && '"' !in tail && front != [] && Clean(front) && Clean(back)
    requires IsWord(w) && Lacks(front, 1, w) && Lacks(back, 0, w) && forall i | 0 <= i < |figs| :: figs[i].0 != w
    ensures NumAfter(Join(fs, '"'), InQuotes(w)) == 0
  {
    FramedClean(fs, front, figs, tail, back);
    var c := Cutting(fs);
    WordPlain(w);
    forall j | 1 <= j < |fs| - 1 ensures fs[j] != w {
      if fs[j] == w && j < |front| + 2 * |figs| {
        var i := OnlyKeys(fs, front, figs, tail, back, w, j);
      } else if j >= |front| + 2 * |figs| {
        var i := PlaceOf(fs, front, figs, tail, back, j);
      }
    }
    FindsNothing(Join(fs, '"'), c, w);
  }

  // ---------- A model named like a key ----------

  ghost predicate NoDigits(fs: seq<string>, from: nat, to: nat)
    requires to <= |fs|
  {
    forall i | from <= i < to :: HasNoDigit(fs[i])
  }

  predicate HasNoDigit(t: string) { forall k | 0 <= k < |t| :: !IsDigit(t[k]) }

  lemma {:induction false} DigitFree(s: string, c: Cut, i: nat, j: nat)
    requires IsCut(s, c) && i <= j < |c.fields| && NoDigits(c.fields, i, j)
    ensures c.starts[i] <= c.starts[j] <= |s|
    ensures forall p | c.starts[i] <= p < c.starts[j] :: !IsDigit(s[p])
  {
    assert FieldOk(s, c, j);
    if i < j {
      DigitFree(s, c, i, j - 1);
      assert FieldOk(s, c, j - 1);
      var from, f := c.starts[j - 1], c.fields[j - 1];
      forall p | from <= p < c.starts[j] ensures !IsDigit(s[p]) {
        if p < from + |f| {
          assert s[p] == f[p - from];
        }
      }
    }
  }

  /** After a digit-free stretch, the figure that follows it is read. */
  lemma NextFigureRead(s: string, c: Cut, i: nat, j: nat, n: nat, tail: string)
    requires IsCut(s, c) && 1 <= i < j < |c.fields| && forall k | 1 <= k < i :: c.fields[k] != c.fields[i]
    requires NoDigits(c.fields, i + 1, j) && c.fields[j] == Figure(n, tail) && (tail != "" ==> !IsDigit(tail[0]))
    ensures NumAfter(s, InQuotes(c.fields[i])) == n
  {
    NumField(s, c, i);
    DigitFree(s, c, i + 1, j);
    assert FieldOk(s, c, j);
    FigurePast(s, c.starts[i + 1], c.starts[j], n, Dec(n), tail);
  }

  lemma FigurePast(s: string, from: nat, at: nat, n: nat, digits: string, tail: string)
    requires from <= at && digits == Dec(n)
    requires IsField(s, at, ":" + digits + tail) && (tail != "" ==> !IsDigit(tail[0]))
    requires at + |digits| + |tail| + 1 < |s| ==> s[at + |digits| + |tail| + 1] == '"'
    requires forall p | from <= p < at :: !IsDigit(s[p])
    ensures NumFrom(s, from) == n
  {
    Numeral(s, at, digits, tail);
    NumFromReads(s, from, n, at + 1, at + 1 + |digits|);
  }

  /** With no digit to the end, 0 is read. */
  lemma NoFigureRead(s: string, c: Cut, i: nat)
    requires IsCut(s, c) && 1 <= i < |c.fields| - 1 && forall k | 1 <= k < i :: c.fields[k] != c.fields[i]
    requires NoDigits(c.fields, i + 1, |c.fields|)
    ensures NumAfter(s, InQuotes(c.fields[i])) == 0
  {
    var last := |c.fields| - 1;
    NumField(s, c, i);
    DigitFree(s, c, i + 1, last);
    assert FieldOk(s, c, last);
    forall p | c.starts[last] <= p < |s| ensures !IsDigit(s[p]) {
      assert s[p] == c.fields[last][p - c.starts[last]];
    }
    SkipTo(s, c.starts[i + 1], false, |s|);
  }

  lemma NamedBefore(w: string, figs: Figures)
    requires Keyed(figs) && IsWord(w) && w != "model" && w != "usage"
    ensures NumAfter(BodyText(w, figs, true), InQuotes(w)) == figs[0].1
  {
    var front, tail, fs := Front(w, true), Tail(true), BodyFields(w, figs, true);
    WordPlain(w);
    FrameClean(w, true);
    Framing(front, figs, tail, []);
    FramedClean(fs, front, figs, tail, []);
    NoDigitsBefore(w, figs);
    ReadsPast(fs, w, figs[0].1, TailAt(figs, 0, tail));
  }

  lemma ReadsPast(fs: seq<string>, w: string, n: nat, tail: string)
    requires |fs| > 8 && Clean(fs) && fs[1] != w && fs[2] != w && fs[3] == w
    requires NoDigits(fs, 4, 8) && fs[8] == Figure(n, tail) && (tail != "" ==> !IsDigit(tail[0]))
    ensures NumAfter(Join(fs, '"'), InQuotes(w)) == n
  {
    var c := Cutting(fs);
    NextFigureRead(Join(fs, '"'), c, 3, 8, n, tail);
  }

  lemma NoDigitsBefore(w: string, figs: Figures)
    requires Keyed(figs) && IsWord(w) && w != "model"
    ensures
      var fs := BodyFields(w, figs, true);
      && |fs| > 8 && fs[1] != w && fs[2] != w && fs[3] == w
      && NoDigits(fs, 4, 8) && fs[8] == Figure(figs[0].1, TailAt(figs, 0, Tail(true)))
  {
    FrontNames(w);
    Framing(Front(w, true), figs, Tail(true), []);
    PairNext(BodyFields(w, figs, true), Front(w, true), figs, Tail(true), w);
  }

  lemma FrontNames(w: string)
    requires IsWord(w) && w != "model"
    ensures var f := Front(w, true); |f| == 7 && f[1] != w && f[2] != w && f[3] == w && NoDigits(f, 4, 7)
  {
    assert ":"[0] != w[0];
  }

  lemma PairNext(fs: seq<string>, front: seq<string>, figs: Figures, tail: string, w: string)
    requires IsFramed(fs, front, figs, tail, []) && Keyed(figs) && |front| == 7
    requires front[1] != w && front[2] != w && front[3] == w && NoDigits(front, 4, 7)
    ensures |fs| > 8 && fs[1] != w && fs[2] != w && fs[3] == w
    ensures NoDigits(fs, 4, 8) && fs[8] == Figure(figs[0].1, TailAt(figs, 0, tail))
  {
    assert IsPair(fs, 7 + 2 * 0, figs[0], TailAt(figs, 0, tail));
    assert HasNoDigit(figs[0].0);
  }

  lemma NamedAfter(w: string, figs: Figures)
    requires Keyed(figs) && IsWord(w) && w != "model" && w != "usage"
    ensures NumAfter(BodyText(w, figs, false), InQuotes(w)) == FigureOf(figs, w)
  {
    var front, tail, back, fs := Front(w, false), Tail(false), Back(w, false), BodyFields(w, figs, false);
    WordPlain(w);
    FrameClean(w, false);
    Framing(front, figs, tail, back);
    FrontLacks(w);
    var i := FigureAt(figs, w);
    if i < |figs| {
      StatedReads(fs, front, figs, tail, back, i);
    } else {
      FramedClean(fs, front, figs, tail, back);
      LastReads(fs, front, figs, tail, back, w);
    }
  }

  lemma FrontLacks(w: string)
    requires IsWord(w) && w != "usage"
    ensures Lacks(Front(w, false), 1, w)
  {
    assert ":{"[0] != w[0];
  }

  lemma LastReads(fs: seq<string>, front: seq<string>, figs: Figures, tail: string, back: seq<string>, w: string)
    requires IsFramed(fs, front, figs, tail, back) && Clean(fs) && front != []
    requires '"' !in tail && IsWord(w) && Lacks(front, 1, w) && forall i | 0 <= i < |figs| :: figs[i].0 != w
    requires back == ["model", ":", w, "}"] && w != "model"
    ensures NumAfter(Join(fs, '"'), InQuotes(w)) == 0
  {
    var k := |front| + 2 * |figs|;
    LabelPast(fs, front, figs, tail, back, w);
    NamedLast(back, w);
    assert forall j | 0 <= j < 4 :: fs[k + j] == back[j];
    assert fs[k + 0] == back[0];
    assert forall j | 1 <= j < k + 2 :: fs[j] != w;
    ReadsNothing(fs, k + 2);
  }

  lemma ReadsNothing(fs: seq<string>, i: nat)
    requires Clean(fs) && 1 <= i && |fs| == i + 2 && HasNoDigit(fs[i + 1])
    requires forall j | 1 <= j < i :: fs[j] != fs[i]
    ensures NumAfter(Join(fs, '"'), InQuotes(fs[i])) == 0
  {
    var c := Cutting(fs);
    NoFigureRead(Join(fs, '"'), c, i);
  }

  lemma NamedLast(back: seq<string>, w: string)
    requires back == ["model", ":", w, "}"] && IsWord(w) && w != "model"
    ensures |back| == 4 && back[0] != w && back[1] != w && back[2] == w
    ensures HasNoDigit(back[3])
  {
    assert ":"[0] != w[0];
  }

  // ---------- The reading theorem ----------

  /** A word the body's frame does not hold, as a label or as the model's name. */
  predicate Foreign(name: string, model: string) {
    IsWord(name) && name != "model" && name != "usage" && name != model
  }

  lemma FrameLacks(name: string, model: string, modelFirst: bool)
    requires Foreign(name, model)
    ensures Lacks(Front(model, modelFirst), 1, name) && Lacks(Back(model, modelFirst), 0, name)
  {
    assert forall i | 0 <= i < |name| :: name[i] != ':' && name[i] != ',' && name[i] != '{' && name[i] != '}';
    assert name[0] != ":"[0] && name[0] != ","[0] && name[0] != ":{"[0] && name[0] != "}"[0];
  }

  lemma FrameClean(model: string, modelFirst: bool)
    requires '"' !in model
    ensures Clean(Front(model, modelFirst)) && Clean(Back(model, modelFirst)) && Front(model, modelFirst) != []
    ensures var t := Tail(modelFirst); '"' !in t && t != "" && !IsDigit(t[0])
  {
  }

  /** Each figure is read under its own key, and 0 under a key that is not there,
      unless the model is stated first and bears the key as its name: then the first
      figure of the object is read instead. */
  lemma FigureReads(model: string, figs: Figures, modelFirst: bool, name: string)
    requires Keyed(figs) && '"' !in model && IsWord(name) && name != "model" && name != "usage"
    ensures NumAfter(BodyText(model, figs, modelFirst), InQuotes(name))
              == if modelFirst && model == name then figs[0].1 else FigureOf(figs, name)
  {
    if model != name {
      ForeignReads(model, figs, modelFirst, name);
    } else if modelFirst {
      NamedBefore(name, figs);
    } else {
      NamedAfter(name, figs);
    }
  }

  lemma ForeignReads(model: string, figs: Figures, modelFirst: bool, name: string)
    requires Keyed(figs) && '"' !in model && Foreign(name, model)
    ensures NumAfter(BodyText(model, figs, modelFirst), InQuotes(name)) == FigureOf(figs, name)
  {
    FrameLacks(name, model, modelFirst);
    FrameClean(model, modelFirst);
    var front, tail, back := Front(model, modelFirst), Tail(modelFirst), Back(model, modelFirst);
    Framing(front, figs, tail, back);
    var i := FigureAt(figs, name);
    if i < |figs| {
      StatedReads(BodyFields(model, figs, modelFirst), front, figs, tail, back, i);
    } else {
      AbsentReads(BodyFields(model, figs, modelFirst), front, figs, tail, back, name);
    }
  }

  /** The label is first found where it stands. */
  lemma LabelBefore(model: string, figs: Figures) returns (k: nat)
    ensures
      var fs := BodyFields(model, figs, true);
      1 <= k < |fs| - 3 && fs[k] == "model" && fs[k + 2] == model && forall j | 1 <= j < k :: fs[j] != "model"
  {
    k := 1;
  }

  lemma LabelAfter(model: string, figs: Figures) returns (k: nat)
    requires Keyed(figs)
    ensures
      var fs := BodyFields(model, figs, false);
      1 <= k < |fs| - 3 && fs[k] == "model" && fs[k + 2] == model && forall j | 1 <= j < k :: fs[j] != "model"
  {
    k := 3 + 2 * |figs|;
    FrontNoLabel(model);
    Framing(Front(model, false), figs, Tail(false), Back(model, false));
    LabelPast(BodyFields(model, figs, false), Front(model, false), figs, Tail(false), Back(model, false), "model");
  }

  lemma LabelPast(fs: seq<string>, front: seq<string>, figs: Figures, tail: string, back: seq<string>, w: string)
    requires IsFramed(fs, front, figs, tail, back)
    requires '"' !in tail && IsWord(w) && Lacks(front, 1, w) && forall i | 0 <= i < |figs| :: figs[i].0 != w
    ensures forall j | 1 <= j < |front| + 2 * |figs| :: fs[j] != w
  {
    forall j | 1 <= j < |front| + 2 * |figs| ensures fs[j] != w {
      var i := PlaceOf(fs, front, figs, tail, back, j);
      if j >= |front| {
        FigurePlain(figs[i].1, TailAt(figs, i, tail));
      }
    }
  }

  lemma FrontNoLabel(model: string)
    ensures Lacks(Front(model, false), 1, "model") && IsWord("model") && '"' !in Tail(false)
  {
    assert "usage"[0] != "model"[0] && ":{"[0] != "model"[0];
  }

  lemma ModelReads(model: string, figs: Figures, modelFirst: bool)
    requires Keyed(figs) && '"' !in model
    ensures StrAfter(BodyText(model, figs, modelFirst), InQuotes("model")) == model
  {
    FrameClean(model, modelFirst);
    Framing(Front(model, modelFirst), figs, Tail(modelFirst), Back(model, modelFirst));
    FramedClean(BodyFields(model, figs, modelFirst), Front(model, modelFirst), figs, Tail(modelFirst),
                Back(model, modelFirst));
    var c := Cutting(BodyFields(model, figs, modelFirst));
    var k: nat;
    if modelFirst {
      k := LabelBefore(model, figs);
    } else {
      k := LabelAfter(model, figs);
    }
    ReadsText(BodyText(model, figs, modelFirst), c, k);
  }

  /** The five keys a figure is looked for under. */
  predicate IsFigureKey(name: string) {
    || name == "prompt_tokens" || name == "completion_tokens" || name == "total_tokens"
    || name == "cached_tokens" || name == "reasoning_tokens"
  }

  lemma KeyIsWord(name: string)
    requires IsFigureKey(name)
    ensures IsWord(name) && name != "model" && name != "usage"
  {
    assert |"model"| == 5 && |"usage"| == 5;
  }

  /** What a metered response costs: the figures its usage object states, under the
      keys that state them, in any order and with any other keys beside them; the
      total is prompt plus completion when it is not stated. A model stated first must
      not be named like one of the keys looked for (see FigureReads). */
  lemma BodyCosts(model: string, figs: Figures, modelFirst: bool, encoded: bool)
    requires Keyed(figs) && '"' !in model && (modelFirst ==> !IsFigureKey(model))
    ensures
      var body := BodyText(model, figs, modelFirst);
      var u := Parse(true, encoded, Some(body));
      var p, c := FigureOf(figs, "prompt_tokens"), FigureOf(figs, "completion_tokens");
      var t := FigureOf(figs, "total_tokens");
      var total := if t == 0 then p + c else t;
      && u.cached == FigureOf(figs, "cached_tokens") && u.reasoning == FigureOf(figs, "reasoning_tokens")
      && u.model == model
      && (total > 0 ==> u.tokens == Tokens(p, c, total) && u.quality == Exact)
      && (total == 0 ==> u.quality != Exact && (!encoded && |body| < 262144 ==> u.tokens == Tokens(0, 0, 0)))
  {
    KeyReads(model, figs, modelFirst, "prompt_tokens");
    KeyReads(model, figs, modelFirst, "completion_tokens");
    KeyReads(model, figs, modelFirst, "total_tokens");
    KeyReads(model, figs, modelFirst, "cached_tokens");
    KeyReads(model, figs, modelFirst, "reasoning_tokens");
    ModelReads(model, figs, modelFirst);
    FiguresCost(BodyText(model, figs, modelFirst), encoded);
  }

  lemma KeyReads(model: string, figs: Figures, modelFirst: bool, name: string)
    requires Keyed(figs) && '"' !in model && IsFigureKey(name) && (modelFirst ==> !IsFigureKey(model))
    ensures NumAfter(BodyText(model, figs, modelFirst), InQuotes(name)) == FigureOf(figs, name)
  {
    KeyIsWord(name);
    FigureReads(model, figs, modelFirst, name);
  }

  /** The charge from the figures under the keys. */
  lemma FiguresCost(body: string, encoded: bool)
    ensures
      Parse(true, encoded, Some(body))
        == Metered(NumAfter(body, InQuotes("prompt_tokens")), NumAfter(body, InQuotes("completion_tokens")),
                   NumAfter(body, InQuotes("total_tokens")), NumAfter(body, InQuotes("cached_tokens")),
                   NumAfter(body, InQuotes("reasoning_tokens")), StrAfter(body, InQuotes("model")),
                   |body| >= 262144 || encoded)
  {
    LimitKeys();
    DetailKeys();
  }

  /** The keys as the scan spells them. */
  lemma LimitKeys()
    ensures "\"prompt_tokens\"" == InQuotes("prompt_tokens")
    ensures "\"completion_tokens\"" == InQuotes("completion_tokens")
    ensures "\"total_tokens\"" == InQuotes("total_tokens")
  {
  }

  lemma DetailKeys()
    ensures "\"cached_tokens\"" == InQuotes("cached_tokens")
    ensures "\"reasoning_tokens\"" == InQuotes("reasoning_tokens") && "\"model\"" == InQuotes("model")
  {
  }
}
