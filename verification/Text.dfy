/** Strings as the generated scripts handle them: decimal numerals, literal
    prefixes and suffixes, and fields joined by ':'. */
module Text {

  datatype Option<+T> = None | Some(value: T) {
    predicate IsFailure() { None? }

    function PropagateFailure<U>(): Option<U>
      requires None?
    {
      None
    }

    function Extract(): T
      requires Some?
    {
      value
    }
  }

  /** What follows a token, if the text begins with it. */
  function Expect(s: string, token: string): (r: Option<string>)
    ensures r.Some? ==> |r.value| + |token| == |s|
  {
    if token <= s then Some(s[|token|..]) else None
  }

  lemma Expected(token: string, rest: string)
    ensures Expect(token + rest, token) == Some(rest)
  {
  }

  /** A list with one element inserted before position i. */
  function InsertAt<T>(s: seq<T>, i: nat, x: T): (r: seq<T>)
    requires i <= |s|
    ensures |r| == |s| + 1
    ensures forall k | 0 <= k < |r| :: r[k] == if k < i then s[k] else if k == i then x else s[k - 1]
  {
    s[..i] + [x] + s[i..]
  }

  lemma InsertMembers<T>(s: seq<T>, i: nat, x: T)
    requires i <= |s|
    ensures forall y :: y in InsertAt(s, i, x) <==> y in s || y == x
  {
    assert s == s[..i] + s[i..];
  }

  lemma InsertCounts<T>(s: seq<T>, i: nat, x: T)
    requires i <= |s|
    ensures multiset(InsertAt(s, i, x)) == multiset(s) + multiset{x}
  {
    assert s == s[..i] + s[i..];
  }

  // ---------- Decimal numerals: tostring and tonumber on counters ----------

  predicate IsDigit(c: char) { '0' <= c <= '9' }

  predicate AllDigits(s: string) { forall i | 0 <= i < |s| :: IsDigit(s[i]) }

  function DigitChar(d: nat): (c: char)
    requires d < 10
    ensures IsDigit(c) && DigitValue(c) == d
  {
    ('0' as int + d) as char
  }

  function DigitValue(c: char): nat
    requires IsDigit(c)
  {
    c as int - '0' as int
  }

  /** tostring on a non-negative integer. */
  function Dec(n: nat): (s: string)
    ensures s != [] && AllDigits(s)
  {
    if n < 10 then [DigitChar(n)] else Dec(n / 10) + [DigitChar(n % 10)]
  }

  /** The number a digit string denotes. */
  function Value(s: string): nat
    requires AllDigits(s)
  {
    if s == [] then 0 else Value(s[..|s| - 1]) * 10 + DigitValue(s[|s| - 1])
  }

  /** tonumber on the strings the table can hold: a digit string or nothing. */
  function ToNumber(s: string): Option<nat> {
    if s != [] && AllDigits(s) then Some(Value(s)) else None
  }

  lemma {:induction false} DecRoundTrip(n: nat)
    ensures ToNumber(Dec(n)) == Some(n)
  {
    if n < 10 {
      var s := Dec(n);
      assert s[..|s| - 1] == [];
      assert Value(s) == Value(s[..|s| - 1]) * 10 + DigitValue(s[|s| - 1]);
    } else {
      DecRoundTrip(n / 10);
      assert Dec(n)[..|Dec(n)| - 1] == Dec(n / 10);
    }
  }

  lemma DecInjective(m: nat, n: nat)
    requires Dec(m) == Dec(n)
    ensures m == n
  {
    DecRoundTrip(m);
    DecRoundTrip(n);
  }

  function Pow10(k: nat): (p: nat)
    ensures p >= 1
  {
    if k == 0 then 1 else 10 * Pow10(k - 1)
  }

  lemma {:induction false} DecLength(n: nat, k: nat)
    requires k >= 1 && n < Pow10(k)
    ensures |Dec(n)| <= k
  {
    if n >= 10 {
      DecLength(n / 10, k - 1);
    }
  }

  // ---------- Dictionary order ----------

  predicate LexLe(a: string, b: string) {
    if a == [] then true
    else if b == [] then false
    else if a[0] != b[0] then a[0] < b[0]
    else LexLe(a[1..], b[1..])
  }

  /** a ends, or has the smaller character, where the two first part. */
  ghost predicate Parts(a: string, b: string, k: nat) {
    k <= |a| && k <= |b| && a[..k] == b[..k] && (k == |a| || (k < |b| && a[k] < b[k]))
  }

  /** Dictionary order: a is a beginning of b, or smaller at the first difference. */
  lemma {:induction false} LexMeans(a: string, b: string)
    ensures LexLe(a, b) <==> exists k: nat :: Parts(a, b, k)
  {
    if a == [] || b == [] || a[0] != b[0] {
      assert Parts(a, b, 0) <==> LexLe(a, b);
      forall k: nat | 1 <= k ensures !Parts(a, b, k) {
        if Parts(a, b, k) {
          PartsFirst(a, b, k);
        }
      }
    } else {
      LexMeans(a[1..], b[1..]);
      forall k: nat ensures Parts(a[1..], b[1..], k) <==> Parts(a, b, k + 1) {
        PartsNext(a, b, k);
      }
      assert !Parts(a, b, 0);
      if k: nat :| Parts(a, b, k) {
        assert Parts(a[1..], b[1..], k - 1);
      }
      if k: nat :| Parts(a[1..], b[1..], k) {
        assert Parts(a, b, k + 1);
      }
    }
  }

  lemma PartsFirst(a: string, b: string, k: nat)
    requires 1 <= k && Parts(a, b, k)
    ensures a != [] && b != [] && a[0] == b[0]
  {
    assert a[..k][0] == a[0] && b[..k][0] == b[0];
  }

  lemma PartsNext(a: string, b: string, k: nat)
    requires a != [] && b != [] && a[0] == b[0]
    ensures Parts(a[1..], b[1..], k) <==> Parts(a, b, k + 1)
  {
    if k + 1 <= |a| && k + 1 <= |b| {
      assert a[..k + 1] == [a[0]] + a[1..][..k] && b[..k + 1] == [b[0]] + b[1..][..k];
    }
  }

  lemma {:induction false} LexTotal(a: string, b: string)
    ensures LexLe(a, b) || LexLe(b, a)
  {
    if a != [] && b != [] && a[0] == b[0] {
      LexTotal(a[1..], b[1..]);
    }
  }

  lemma {:induction false} LexAntisymmetric(a: string, b: string)
    requires LexLe(a, b) && LexLe(b, a)
    ensures a == b
  {
    if a != [] && b != [] {
      LexAntisymmetric(a[1..], b[1..]);
      assert a == [a[0]] + a[1..] && b == [b[0]] + b[1..];
    }
  }

  lemma {:induction false} LexTransitive(a: string, b: string, c: string)
    requires LexLe(a, b) && LexLe(b, c)
    ensures LexLe(a, c)
  {
    if a != [] && b != [] && c != [] && a[0] == b[0] == c[0] {
      LexTransitive(a[1..], b[1..], c[1..]);
    }
  }

  // ---------- Prefixes and suffixes ----------

  predicate HasSuffix(s: string, suffix: string) {
    |suffix| <= |s| && s[|s| - |suffix|..] == suffix
  }

  /** A trailing-"*" pattern of a policy. */
  predicate IsGlob(entry: string) { HasSuffix(entry, "*") }

  function TrimLast(s: string): string
    requires s != []
  {
    s[..|s| - 1]
  }

  /** Position of the first occurrence of a character, |s| when there is none. */
  function Find(s: string, c: char): (i: nat)
    ensures i <= |s|
    ensures forall j | 0 <= j < i :: s[j] != c
    ensures i < |s| ==> s[i] == c
    ensures i < |s| <==> c in s
  {
    if s == [] then 0
    else if s[0] == c then 0
    else
      var rest := Find(s[1..], c);
      assert forall j | 0 < j < |s| :: s[j] == s[1..][j - 1];
      1 + rest
  }

  predicate At(s: string, i: nat, pat: string) {
    i + |pat| <= |s| && s[i..i + |pat|] == pat
  }

  /** string.find(s, pat, i, true): the first occurrence at or after i. */
  function FindFrom(s: string, pat: string, i: nat): (r: Option<nat>)
    ensures r.Some? ==> i <= r.value && r.value + |pat| <= |s|
    decreases |s| - i
  {
    if i + |pat| > |s| then None
    else if s[i..i + |pat|] == pat then Some(i)
    else FindFrom(s, pat, i + 1)
  }

  lemma {:induction false} FindFromFirst(s: string, pat: string, i: nat)
    ensures
      match FindFrom(s, pat, i)
      case Some(q) => At(s, q, pat) && forall j: nat | i <= j < q :: !At(s, j, pat)
      case None => forall j: nat | i <= j :: !At(s, j, pat)
    decreases |s| - i
  {
    if i + |pat| <= |s| && s[i..i + |pat|] != pat {
      FindFromFirst(s, pat, i + 1);
    }
  }

  // ---------- Fields joined by a separator ----------

  function Join(fields: seq<string>, sep: char): string
    requires fields != []
  {
    if |fields| == 1 then fields[0] else fields[0] + [sep] + Join(fields[1..], sep)
  }

  function Split(s: string, sep: char): seq<string>
    decreases |s|
  {
    var d := Find(s, sep);
    if d < |s| then [s[..d]] + Split(s[d + 1..], sep) else [s]
  }

  lemma {:induction false} SplitJoin(fields: seq<string>, sep: char)
    requires fields != [] && forall i | 0 <= i < |fields| :: sep !in fields[i]
    ensures Split(Join(fields, sep), sep) == fields
  {
    if |fields| > 1 {
      SplitJoin(fields[1..], sep);
      SplitHead(fields[0], sep, Join(fields[1..], sep));
      assert fields == [fields[0]] + fields[1..];
    }
  }

  lemma SplitHead(head: string, sep: char, rest: string)
    requires sep !in head
    ensures Split(head + [sep] + rest, sep) == [head] + Split(rest, sep)
  {
    var s := head + [sep] + rest;
    assert forall j | 0 <= j < |head| :: s[j] == head[j];
    assert s[|head|] == sep && Find(s, sep) == |head|;
    assert s[..|head|] == head && s[|head| + 1..] == rest;
  }

  /** Joining is injective on the right for any tail free of the separator. */
  lemma LastFieldUnique(a: string, x: string, b: string, y: string, sep: char)
    requires a + [sep] + x == b + [sep] + y
    requires sep !in x && sep !in y
    ensures a == b && x == y
  {
    var s := a + [sep] + x;
    assert s[|a|] == sep && forall i | |a| < i < |s| :: s[i] == x[i - |a| - 1];
    assert s[|b|] == sep && forall i | |b| < i < |s| :: s[i] == y[i - |b| - 1];
    assert |a| == |b|;
    assert a == s[..|a|] == b;
    assert x == s[|a| + 1..] == y;
  }

  /** Joining is injective on the left for any head free of the separator. */
  lemma FirstFieldUnique(a: string, x: string, b: string, y: string, sep: char)
    requires a + [sep] + x == b + [sep] + y
    requires sep !in a && sep !in b
    ensures a == b && x == y
  {
    var s := a + [sep] + x;
    assert s[|a|] == sep && forall i | 0 <= i < |a| :: s[i] == a[i];
    assert s[|b|] == sep && forall i | 0 <= i < |b| :: s[i] == b[i];
    assert |a| == |b|;
    assert a == s[..|a|] == b;
    assert x == s[|a| + 1..] == y;
  }

  /** Keys "<name>:<anything>" of two names meet only if one name, closed by a
      colon, starts the other. */
  lemma JoinedDisjoint(m: string, x: string, n: string, y: string)
    requires m != n
    requires m + ":" + x == n + ":" + y
    ensures m + ":" <= n + ":" || n + ":" <= m + ":"
  {
    var s := m + ":" + x;
    assert m + ":" == s[..|m| + 1];
    assert n + ":" == s[..|n| + 1];
    if |m| <= |n| {
      assert s[..|n| + 1][..|m| + 1] == s[..|m| + 1];
    } else {
      assert s[..|m| + 1][..|n| + 1] == s[..|n| + 1];
    }
  }

  function Colons(s: string): nat {
    if s == [] then 0 else (if s[0] == ':' then 1 else 0) + Colons(s[1..])
  }

  lemma {:induction false} ColonsAppend(a: string, b: string)
    ensures Colons(a + b) == Colons(a) + Colons(b)
  {
    if a == [] {
      assert a + b == b;
    } else {
      ColonsAppend(a[1..], b);
      assert (a + b)[1..] == a[1..] + b;
    }
  }

  lemma {:induction false} ColonsDigits(s: string)
    requires AllDigits(s)
    ensures Colons(s) == 0 && ':' !in s
  {
    if s != [] {
      ColonsDigits(s[1..]);
      assert forall c | c in s :: exists i | 0 <= i < |s| :: s[i] == c;
    }
  }
}
