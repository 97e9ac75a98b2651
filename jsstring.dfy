/** The JavaScript string operations the server relies on: `trim`, the
    truthiness of a `string | undefined`, `filter(Boolean)`, `join`, and the
    decimal text of an integral number in a template literal. */
module JsString {
  import opened Wrappers

  /** The code points String.prototype.trim strips: ECMAScript's WhiteSpace
      (TAB, VT, FF, ZWNBSP and every space separator of category Zs) and its
      LineTerminator (LF, CR, LS, PS). */
  predicate IsTrimmable(c: char) {
    || c == '\t' || c == '\n' || c == '\U{B}' || c == '\U{C}' || c == '\r'
    || c == ' ' || c == '\U{A0}' || c == '\U{1680}'
    || ('\U{2000}' <= c <= '\U{200A}')
    || c == '\U{2028}' || c == '\U{2029}' || c == '\U{202F}' || c == '\U{205F}'
    || c == '\U{3000}' || c == '\U{FEFF}'
  }

  predicate AllTrimmable(s: string) {
    forall i | 0 <= i < |s| :: IsTrimmable(s[i])
  }

  /** No trimmable code point at either end. */
  predicate Trimmed(s: string) {
    s == [] || (!IsTrimmable(s[0]) && !IsTrimmable(s[|s| - 1]))
  }

  /** `t` occurs in `s` at offset `k`, with only trimmable code points before
      and after it. */
  predicate PaddedAt(s: string, t: string, k: nat) {
    && k + |t| <= |s|
    && s[k..k + |t|] == t
    && AllTrimmable(s[..k])
    && AllTrimmable(s[k + |t|..])
  }

  /** `r` is `s` without its leading trimmable code points. */
  predicate StartTrimmed(s: string, r: string) {
    && |r| <= |s| && r == s[|s| - |r|..]
    && AllTrimmable(s[..|s| - |r|])
    && (r == [] || !IsTrimmable(r[0]))
  }

  /** `r` is `s` without its trailing trimmable code points. */
  predicate EndTrimmed(s: string, r: string) {
    && |r| <= |s| && r == s[..|r|]
    && AllTrimmable(s[|r|..])
    && (r == [] || !IsTrimmable(r[|r| - 1]))
  }

  /** String.prototype.trimStart: drops the leading trimmable code points. */
  function TrimStart(s: string): (r: string)
    ensures StartTrimmed(s, r)
  {
    if s != [] && IsTrimmable(s[0]) then
      var r := TrimStart(s[1..]);
      assert s[..|s| - |r|] == [s[0]] + s[1..][..|s[1..]| - |r|];
      r
    else
      s
  }

  /** String.prototype.trimEnd: drops the trailing trimmable code points. */
  function TrimEnd(s: string): (r: string)
    ensures EndTrimmed(s, r)
  {
    if s != [] && IsTrimmable(s[|s| - 1]) then
      var r := TrimEnd(s[..|s| - 1]);
      assert s[|r|..] == s[..|s| - 1][|r|..] + [s[|s| - 1]];
      r
    else
      s
  }

  /** String.prototype.trim: what is left between the leading and the
      trailing trimmable code points. */
  function Trim(s: string): (r: string)
    ensures Trimmed(r)
    ensures PaddedAt(s, r, |s| - |TrimStart(s)|)
  {
    TrimmedAndPadded(s);
    TrimEnd(TrimStart(s))
  }

  lemma TrimmedAndPadded(s: string)
    ensures Trimmed(TrimEnd(TrimStart(s)))
    ensures PaddedAt(s, TrimEnd(TrimStart(s)), |s| - |TrimStart(s)|)
  {
    TrimCompose(s, TrimStart(s), TrimEnd(TrimStart(s)));
  }

  /** Trimming the start and then the end leaves a string padded in `s`. */
  lemma TrimCompose(s: string, x: string, r: string)
    requires StartTrimmed(s, x) && EndTrimmed(x, r)
    ensures Trimmed(r) && PaddedAt(s, r, |s| - |x|)
  {
    var k := |s| - |x|;
    assert r != [] ==> r[0] == x[0];
    assert s[k..k + |r|] == x[..|r|];
    assert s[k + |r|..] == x[|r|..];
  }

  lemma {:induction false} TrimStartSkips(s: string, k: nat)
    requires k <= |s| && AllTrimmable(s[..k])
    requires k == |s| || !IsTrimmable(s[k])
    ensures TrimStart(s) == s[k..]
    decreases k
  {
    if k > 0 {
      assert IsTrimmable(s[..k][0]);
      assert s[1..][..k - 1] == s[..k][1..];
      TrimStartSkips(s[1..], k - 1);
    }
  }

  lemma {:induction false} TrimEndSkips(s: string, k: nat)
    requires k <= |s| && AllTrimmable(s[k..])
    requires k == 0 || !IsTrimmable(s[k - 1])
    ensures TrimEnd(s) == s[..k]
    decreases |s| - k
  {
    if k < |s| {
      assert IsTrimmable(s[k..][|s| - 1 - k]);
      assert s[..|s| - 1][k..] == s[k..][..|s| - 1 - k];
      TrimEndSkips(s[..|s| - 1], k);
    }
  }

  /** Trimming has exactly one answer: if `t` has no trimmable code point at
      its ends and only trimmable code points surround it in `s`, then `t` is
      what `Trim` returns. */
  lemma TrimUnique(s: string, t: string, k: nat)
    requires Trimmed(t) && PaddedAt(s, t, k)
    ensures Trim(s) == t
  {
    if t == [] {
      TrimAllBlank(s, k);
    } else {
      TrimAroundText(s, t, k);
    }
  }

  lemma TrimAllBlank(s: string, k: nat)
    requires k <= |s| && AllTrimmable(s[..k]) && AllTrimmable(s[k..])
    ensures Trim(s) == ""
  {
    forall i | 0 <= i < |s|
      ensures IsTrimmable(s[i])
    {
      if i < k {
        assert s[i] == s[..k][i];
      } else {
        assert s[i] == s[k..][i - k];
      }
    }
    assert s[..|s|] == s;
    TrimStartSkips(s, |s|);
  }

  lemma TrimAroundText(s: string, t: string, k: nat)
    requires t != [] && Trimmed(t) && PaddedAt(s, t, k)
    ensures Trim(s) == t
  {
    assert s[k] == t[0];
    TrimStartSkips(s, k);
    var x := s[k..];
    assert x[..|t|] == t;
    assert x[|t|..] == s[k + |t|..];
    TrimEndSkips(x, |t|);
  }

  /** `Trim(s) == t` exactly when `t` has no trimmable ends and `s` is `t`
      padded with trimmable code points on both sides. */
  lemma TrimCharacterization(s: string, t: string)
    ensures Trim(s) == t <==> Trimmed(t) && exists k: nat :: PaddedAt(s, t, k)
  {
    if Trimmed(t) && exists k: nat :: PaddedAt(s, t, k) {
      var k: nat :| PaddedAt(s, t, k);
      TrimUnique(s, t, k);
    }
  }

  lemma TrimIdempotent(s: string)
    ensures Trim(Trim(s)) == Trim(s)
  {
    var t := Trim(s);
    assert t[..0] == [] && t[0 + |t|..] == [];
    TrimUnique(t, t, 0);
  }

  /** A string with no trimmable ends is its own trim. */
  lemma TrimKeepsTrimmed(s: string)
    requires Trimmed(s)
    ensures Trim(s) == s
  {
    assert s[..0] == [] && s[0 + |s|..] == [];
    TrimUnique(s, s, 0);
  }

  /** Trimming leaves nothing exactly when every code point is trimmable. */
  lemma TrimBlank(s: string)
    ensures Trim(s) == "" <==> AllTrimmable(s)
  {
    if AllTrimmable(s) {
      assert s[..|s|] == s && s[|s|..] == [];
      TrimUnique(s, "", |s|);
    }
  }

  /** JavaScript truthiness of a `string | undefined`: defined and not "". */
  predicate Filled(o: Option<string>) {
    o.Some? && o.value != ""
  }

  /** `parts.filter(Boolean)` on strings: the non-empty ones, in order. */
  function NonEmpty(parts: seq<string>): seq<string> {
    if parts == [] then []
    else (if parts[0] != "" then [parts[0]] else []) + NonEmpty(parts[1..])
  }

  /** Array.prototype.join. */
  function Join(parts: seq<string>, sep: string): string {
    if |parts| == 0 then ""
    else if |parts| == 1 then parts[0]
    else parts[0] + sep + Join(parts[1..], sep)
  }

  predicate IsDigit(c: char) {
    '0' <= c <= '9'
  }

  predicate AllDigits(s: string) {
    forall i | 0 <= i < |s| :: IsDigit(s[i])
  }

  function DigitChar(d: nat): (c: char)
    requires d < 10
    ensures IsDigit(c) && (c - '0') as nat == d
  {
    (d + '0' as nat) as char
  }

  /** The value of a string of decimal digits. */
  function DigitsValue(s: string): nat
    requires AllDigits(s)
  {
    if s == [] then 0
    else DigitsValue(s[..|s| - 1]) * 10 + (s[|s| - 1] - '0') as nat
  }

  /** The decimal text JavaScript gives a non-negative integral number:
      non-empty digits, with no leading zero except for zero itself. */
  function NatText(n: nat): (r: string)
    ensures r != [] && AllDigits(r)
    ensures r[0] == '0' ==> n == 0
  {
    if n < 10 then [DigitChar(n)] else NatText(n / 10) + [DigitChar(n % 10)]
  }

  /** The decimal text JavaScript gives an integral number, as in
      `${code}`. */
  function IntText(i: int): (r: string)
    ensures r != []
    ensures (r[0] == '-') == (i < 0)
  {
    if i < 0 then "-" + NatText(-i) else NatText(i)
  }

  /** Reading the digits back gives the number that was written. */
  lemma {:induction false} NatTextValue(n: nat)
    ensures DigitsValue(NatText(n)) == n
  {
    if n >= 10 {
      var p := NatText(n / 10);
      NatTextValue(n / 10);
      assert (p + [DigitChar(n % 10)])[..|p|] == p;
    }
  }

  /** Distinct integers are written differently. */
  lemma IntTextInjective(i: int, j: int)
    requires IntText(i) == IntText(j)
    ensures i == j
  {
    if i < 0 {
      assert j < 0;
      assert NatText(-i) == IntText(i)[1..] == IntText(j)[1..] == NatText(-j);
      NatTextInjective(-i, -j);
    } else {
      assert j >= 0;
      NatTextInjective(i, j);
    }
  }

  lemma NatTextInjective(a: nat, b: nat)
    requires NatText(a) == NatText(b)
    ensures a == b
  {
    NatTextValue(a);
    NatTextValue(b);
  }
}
