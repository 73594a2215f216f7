/** The string work the program leans on: decimal printing and reading of Go's
    64-bit int, suffixes, delimiters, and keys joined with NUL. */
module Text {
  import opened Wrappers

  const MAX_INT: int := 0x7fff_ffff_ffff_ffff

  /** Go's int on a 64-bit platform. */
  type GoInt = n: int | -MAX_INT - 1 <= n <= MAX_INT

  predicate IsDigit(c: char) { '0' <= c <= '9' }

  predicate AllDigits(s: string) { forall c | c in s :: IsDigit(c) }

  function DigitChar(d: nat): (c: char)
    requires d < 10
  {
    ('0' as int + d) as char
  }

  /** Decimal digits of a natural number, without leading zeros. */
  function Decimal(n: nat): (s: string)
    ensures |s| > 0 && AllDigits(s)
  {
    if n < 10 then [DigitChar(n)] else Decimal(n / 10) + [DigitChar(n % 10)]
  }

  /** strconv.Itoa. */
  function Itoa(n: int): string {
    if n < 0 then "-" + Decimal(-n) else Decimal(n)
  }

  /** The number a digit string denotes; leading zeros are allowed. */
  function Numeral(s: string): nat
    requires AllDigits(s)
  {
    if s == "" then 0
    else
      assert s[|s| - 1] in s && (forall c | c in s[..|s| - 1] :: c in s);
      10 * Numeral(s[..|s| - 1]) + (s[|s| - 1] as int - '0' as int)
  }

  /** strconv.Atoi on an unsigned digit string: out-of-range values are errors. */
  function Atoi(s: string): Option<int> {
    if s != "" && AllDigits(s) && Numeral(s) <= MAX_INT then Some(Numeral(s)) else None
  }

  lemma {:induction false} DecimalRoundTrip(n: nat)
    ensures Numeral(Decimal(n)) == n
  {
    if n >= 10 {
      DecimalRoundTrip(n / 10);
      var s := Decimal(n);
      assert s[..|s| - 1] == Decimal(n / 10);
    }
  }

  function Zeros(k: nat): string { if k == 0 then "" else Zeros(k - 1) + "0" }

  lemma {:induction false} ZerosAppend(k: nat, s: string)
    requires AllDigits(s)
    ensures AllDigits(Zeros(k) + s) && Numeral(Zeros(k) + s) == Numeral(s)
    decreases k + |s|
  {
    if s == "" {
      assert Zeros(k) + s == Zeros(k);
      if k > 0 {
        ZerosAppend(k - 1, "");
        assert Zeros(k - 1) + "" == Zeros(k - 1) == Zeros(k)[..|Zeros(k)| - 1];
      }
    } else {
      var (init, last) := (s[..|s| - 1], s[|s| - 1]);
      assert s == init + [last] && forall c | c in init :: c in s;
      ZerosAppend(k, init);
      assert Zeros(k) + s == (Zeros(k) + init) + [last];
    }
  }

  /** A digit string is its number's digits behind so many zeros. */
  lemma {:induction false} DigitsOfNumeral(s: string) returns (k: nat)
    requires s != "" && AllDigits(s)
    ensures s == Zeros(k) + Decimal(Numeral(s))
  {
    var init := s[..|s| - 1];
    var d := LastDigit(s);
    hide *;
    if init == "" {
      k := 0;
      OneDigit(d);
    } else {
      k := DigitsOfNumeral(init);
      OneMoreDigit(k, Numeral(init), d);
      if Numeral(init) == 0 { k := k + 1; }
    }
  }

  lemma LastDigit(s: string) returns (d: nat)
    requires s != "" && AllDigits(s)
    ensures d < 10 && s == s[..|s| - 1] + [DigitChar(d)]
    ensures AllDigits(s[..|s| - 1]) && Numeral(s) == 10 * Numeral(s[..|s| - 1]) + d
  {
    assert s[|s| - 1] in s && forall c | c in s[..|s| - 1] :: c in s;
    d := s[|s| - 1] as int - '0' as int;
  }

  lemma OneDigit(d: nat)
    requires d < 10
    ensures Numeral("") == 0 && "" + [DigitChar(d)] == Zeros(0) + Decimal(d)
  {}

  lemma OneMoreDigit(k: nat, n: nat, d: nat)
    requires d < 10
    ensures Zeros(k) + Decimal(n) + [DigitChar(d)] == Zeros(if n == 0 then k + 1 else k) + Decimal(10 * n + d)
  {
    assert n == 0 ==> Zeros(k) + Decimal(n) == Zeros(k + 1);
    assert n > 0 ==> Decimal(10 * n + d) == Decimal(n) + [DigitChar(d)];
  }

  /** The numbers that are read: those of 63 bits, printed as they are or behind zeros. */
  lemma AtoiExactly(s: string, n: int)
    ensures Atoi(s) == Some(n) <==>
            0 <= n <= 9_223_372_036_854_775_807 && exists k: nat :: s == Zeros(k) + Decimal(n)
  {
    if Atoi(s) == Some(n) { var k := DigitsOfNumeral(s); }
    if 0 <= n && exists k: nat :: s == Zeros(k) + Decimal(n) {
      var k: nat :| s == Zeros(k) + Decimal(n);
      ZerosAppend(k, Decimal(n));
      DecimalRoundTrip(n);
    }
  }

  /** Printing loses nothing: equal numerals come from equal numbers. */
  lemma ItoaInjective(m: int, n: int)
    requires Itoa(m) == Itoa(n)
    ensures m == n
  {
    assert m < 0 <==> Itoa(m)[0] == '-' by { if m >= 0 { assert Decimal(m)[0] in Decimal(m); } }
    assert n < 0 <==> Itoa(n)[0] == '-' by { if n >= 0 { assert Decimal(n)[0] in Decimal(n); } }
    if m < 0 {
      assert Decimal(-m) == Itoa(m)[1..] == Itoa(n)[1..] == Decimal(-n);
      DecimalRoundTrip(-m);
      DecimalRoundTrip(-n);
    } else {
      DecimalRoundTrip(m);
      DecimalRoundTrip(n);
    }
  }

  /** strings.CutSuffix: what is left of s before the suffix, if s ends in it. */
  function CutSuffix(s: string, suffix: string): (r: Option<string>)
    ensures r.Some? ==> s == r.value + suffix
    ensures r.None? ==> forall p :: s != p + suffix
  {
    if |suffix| <= |s| && s[|s| - |suffix|..] == suffix then
      assert s == s[..|s| - |suffix|] + suffix;
      Some(s[..|s| - |suffix|])
    else
      assert forall p :: |p + suffix| >= |suffix| && (p + suffix)[|p + suffix| - |suffix|..] == suffix;
      None
  }

  /** The length of the longest prefix holding no member of stops. */
  function Span(s: string, stops: set<char>): (n: nat)
    ensures n <= |s|
    ensures forall c | c in s[..n] :: c !in stops
    ensures n < |s| ==> s[n] in stops
  {
    if s == "" || s[0] in stops then 0
    else
      var n := 1 + Span(s[1..], stops);
      assert s[..n] == [s[0]] + s[1..][..n - 1];
      n
  }

  /** A span is settled by where the first stop stands. */
  lemma SpanOf(prefix: string, rest: string, stops: set<char>)
    requires forall c | c in prefix :: c !in stops
    requires rest == "" || rest[0] in stops
    ensures Span(prefix + rest, stops) == |prefix|
  {
    var s := prefix + rest;
    var n := Span(s, stops);
    assert forall i | 0 <= i < |prefix| :: s[i] == prefix[i] && prefix[i] in prefix;
    assert forall i | 0 <= i < n :: s[i] == s[..n][i] && s[..n][i] in s[..n];
    assert rest != "" ==> s[|prefix|] == rest[0];
  }

  lemma SpanAvoids(s: string, stops: set<char>)
    ensures forall i | 0 <= i < Span(s, stops) :: s[i] !in stops
  {
    var n := Span(s, stops);
    forall i | 0 <= i < n ensures s[i] !in stops { assert s[..n][i] in s[..n]; }
  }

  /** strings.LastIndex for one character; |s| when it does not occur. */
  function LastIndex(s: string, c: char): (i: nat)
    ensures i <= |s|
    ensures i < |s| ==> s[i] == c && c !in s[i + 1..]
    ensures i == |s| ==> c !in s
  {
    if s == "" then 0
    else if s[|s| - 1] == c then |s| - 1
    else
      var i := LastIndex(s[..|s| - 1], c);
      assert s == s[..|s| - 1] + [s[|s| - 1]];
      if i == |s| - 1 then |s| else
        assert s[i + 1..] == s[..|s| - 1][i + 1..] + [s[|s| - 1]];
        i
  }

  lemma {:induction false} LastIndexOf(s: string, c: char, i: nat)
    requires i < |s| && s[i] == c
    requires forall j | i < j < |s| :: s[j] != c
    ensures LastIndex(s, c) == i
  {}

  const NUL: char := '\0'

  predicate NulFree(s: string) { NUL !in s }

  /** The components of a composite key, joined as the program joins them. */
  function Join(parts: seq<string>): string
    requires parts != []
  {
    if |parts| == 1 then parts[0] else parts[0] + [NUL] + Join(parts[1..])
  }

  /** Joining with NUL is injective on NUL-free components. */
  lemma {:induction false} JoinInjective(a: seq<string>, b: seq<string>)
    requires |a| == |b| > 0
    requires forall s | s in a + b :: NulFree(s)
    requires Join(a) == Join(b)
    ensures a == b
  {
    assert a[0] in a + b && b[0] in a + b;
    if |a| > 1 {
      var (ta, tb) := (Join(a[1..]), Join(b[1..]));
      assert a[0] + [NUL] + ta == a[0] + ([NUL] + ta) && b[0] + [NUL] + tb == b[0] + ([NUL] + tb);
      SpanOf(a[0], [NUL] + ta, {NUL});
      SpanOf(b[0], [NUL] + tb, {NUL});
      assert a[0] == Join(a)[..|a[0]|] == Join(b)[..|b[0]|] == b[0];
      assert ta == Join(a)[|a[0]| + 1..] == Join(b)[|b[0]| + 1..] == tb;
      forall s | s in a[1..] + b[1..] ensures s in a + b {}
      JoinInjective(a[1..], b[1..]);
      assert a == [a[0]] + a[1..] && b == [b[0]] + b[1..];
    }
  }
}
