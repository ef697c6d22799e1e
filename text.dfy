/** The JavaScript string and number primitives the core relies on: decimal
    rendering of whole numbers (`String(n)`, `n.toString()`, template
    literals), `toFixed`, `String.prototype.trim`, the first-occurrence form of
    `String.prototype.replace`, and `parseFloat`. Numbers are exact reals here;
    NaN is `None`. */
module Text {
  import opened Wrappers

  predicate IsDigit(c: char) { '0' <= c <= '9' }

  predicate AllDigits(s: string) { forall i :: 0 <= i < |s| ==> IsDigit(s[i]) }

  function Pow10(k: nat): (p: nat)
    ensures p >= 1
  {
    if k == 0 then 1 else 10 * Pow10(k - 1)
  }

  function DigitValue(c: char): (d: nat)
    requires IsDigit(c)
    ensures d < 10
  {
    (c as int) - ('0' as int)
  }

  function DigitChar(d: nat): (c: char)
    requires d < 10
    ensures IsDigit(c) && DigitValue(c) == d
  {
    ('0' as int + d) as char
  }

  /** The decimal numeral of `n` without leading zeros: what `String(n)` gives
      for a whole number below 10^21. */
  function NatToString(n: nat): (s: string)
    ensures |s| > 0 && AllDigits(s)
    ensures s[0] == '0' ==> n == 0
  {
    if n < 10 then [DigitChar(n)] else NatToString(n / 10) + [DigitChar(n % 10)]
  }

  /** `n` with its last `k` decimal digits dropped: the whole part of
      `n / 10^k`. */
  function DropDigits(n: nat, k: nat): nat {
    if k == 0 then n else DropDigits(n / 10, k - 1)
  }

  /** The last `width` decimal digits of `n`, padded with zeros on the left. */
  function LowDigits(n: nat, width: nat): (s: string)
    ensures |s| == width && AllDigits(s)
  {
    if width == 0 then [] else LowDigits(n / 10, width - 1) + [DigitChar(n % 10)]
  }

  /** The number a string of decimal digits denotes; the empty string denotes 0. */
  function DigitsValue(s: string): nat
    requires AllDigits(s)
  {
    if s == [] then 0 else 10 * DigitsValue(s[..|s| - 1]) + DigitValue(s[|s| - 1])
  }

  /** Splitting off the last `k` digits: the dropped part, shifted back by
      `k` places, plus the value of the kept digits is the number. */
  lemma {:induction false} DropDigitsAndLowDigits(n: nat, k: nat)
    ensures DropDigits(n, k) * Pow10(k) + DigitsValue(LowDigits(n, k)) == n
  {
    if k > 0 {
      DropDigitsAndLowDigits(n / 10, k - 1);
      var low, rest := LowDigits(n, k), LowDigits(n / 10, k - 1);
      assert low == rest + [DigitChar(n % 10)];
      assert low[..|low| - 1] == rest;
      var q, p, l := DropDigits(n / 10, k - 1), Pow10(k - 1), DigitsValue(rest);
      assert DigitsValue(low) == 10 * l + n % 10;
      ShiftTen(q, p);
      assert q * p + l == n / 10;
    }
  }

  lemma ShiftTen(q: nat, p: nat)
    ensures q * (10 * p) == 10 * (q * p)
  {
  }

  /** A string of `w` digits denotes a number below 10^w. */
  lemma {:induction false} DigitsValueBound(s: string)
    requires AllDigits(s)
    ensures DigitsValue(s) < Pow10(|s|)
  {
    if s != [] {
      DigitsValueBound(s[..|s| - 1]);
    }
  }

  /** Euclidean division is the only way to write `n` as `q * d + r` with
      `0 <= r < d`. */
  lemma DivModUnique(n: nat, d: nat, q: nat, r: nat)
    requires d > 0 && r < d && q * d + r == n
    ensures q == n / d && r == n % d
  {
    var q', r' := n / d, n % d;
    assert q' * d + r' == n;
    if q > q' {
      MulGrows(q', q - q', d);
      assert false;
    } else if q < q' {
      MulGrows(q, q' - q, d);
      assert false;
    }
  }

  /** Adding `k >= 1` to a factor adds at least `d` to the product. */
  lemma MulGrows(a: nat, k: nat, d: nat)
    requires k >= 1
    ensures (a + k) * d >= a * d + d
  {
    assert (a + k) * d == a * d + k * d;
    assert k * d == (k - 1) * d + d;
  }

  /** Reading a rendered numeral gives back the number. */
  lemma {:induction false} DigitsValueOfNatToString(n: nat)
    ensures DigitsValue(NatToString(n)) == n
  {
    if n >= 10 {
      DigitsValueOfNatToString(n / 10);
      var s := NatToString(n);
      assert s[..|s| - 1] == NatToString(n / 10);
    }
  }

  /** Distinct numbers render to distinct numerals. */
  lemma NatToStringInjective(m: nat, n: nat)
    ensures NatToString(m) == NatToString(n) ==> m == n
  {
    DigitsValueOfNatToString(m);
    DigitsValueOfNatToString(n);
  }

  // ---------------------------------------------------------------------------
  // White space, trim and replace

  /** ECMAScript's WhiteSpace and LineTerminator code points: the characters
      `trim` removes and `parseFloat` skips. */
  predicate IsWhitespace(c: char) {
    c == ' ' || c == '\t' || c == '\n' || c == '\r' || c == '\U{000B}' || c == '\U{000C}'
    || c == '\U{00A0}' || c == '\U{1680}' || ('\U{2000}' <= c <= '\U{200A}')
    || c == '\U{2028}' || c == '\U{2029}' || c == '\U{202F}' || c == '\U{205F}'
    || c == '\U{3000}' || c == '\U{FEFF}'
  }

  function TrimStart(s: string): (r: string)
    ensures |r| <= |s| && r == s[|s| - |r|..]
    ensures r == [] || !IsWhitespace(r[0])
    ensures forall i :: 0 <= i < |s| - |r| ==> IsWhitespace(s[i])
  {
    if s != [] && IsWhitespace(s[0]) then TrimStart(s[1..]) else s
  }

  function TrimEnd(s: string): (r: string)
    ensures |r| <= |s| && r == s[..|r|]
    ensures r == [] || !IsWhitespace(r[|r| - 1])
    ensures forall i :: |r| <= i < |s| ==> IsWhitespace(s[i])
  {
    if s != [] && IsWhitespace(s[|s| - 1]) then TrimEnd(s[..|s| - 1]) else s
  }

  /** `String.prototype.trim`: white space at neither end; `TrimCuts`
      says that only white space was cut. */
  function Trim(s: string): (r: string)
    ensures |r| <= |s|
    ensures r == [] || (!IsWhitespace(r[0]) && !IsWhitespace(r[|r| - 1]))
  {
    var t := TrimStart(s);
    var r := TrimEnd(t);
    assert r == [] || r[0] == t[0];
    r
  }

  /** `trim` keeps the text between the leading and the trailing white
      space of `s`, as it stands there. */
  lemma TrimCuts(s: string)
    ensures TrimmedOut(s, |s| - |TrimStart(s)|, Trim(s))
  {
    var t := TrimStart(s);
    var a := |s| - |t|;
    assert t == s[a..];
    assert Trim(s) == TrimEnd(t);
    TrimEndWithin(t, a, s);
  }

  /** `r` is `s` from position `a` on with white space cut from both ends:
      `s[a..a + |r|]`, with only white space before and after it. */
  predicate TrimmedOut(s: string, a: nat, r: string) {
    a + |r| <= |s| && r == s[a..a + |r|]
    && (forall i :: 0 <= i < a ==> IsWhitespace(s[i]))
    && (forall i :: a + |r| <= i < |s| ==> IsWhitespace(s[i]))
  }

  /** `TrimEnd` of a suffix `t == s[a..]` keeps `s[a..a + k]` for some `k`,
      and what it drops is white space of `s`. */
  lemma TrimEndWithin(t: string, a: nat, s: string)
    requires a <= |s| && t == s[a..]
    requires forall i :: 0 <= i < a ==> IsWhitespace(s[i])
    ensures TrimmedOut(s, a, TrimEnd(t))
  {
    var r := TrimEnd(t);
    assert forall i :: a + |r| <= i < |s| ==> s[i] == t[i - a];
  }

  predicate OccursAt(s: string, pat: string, j: nat) {
    j + |pat| <= |s| && s[j..j + |pat|] == pat
  }

  function IndexOfFrom(s: string, pat: string, k: nat): (r: Option<nat>)
    requires k <= |s|
    ensures r.Some? ==> k <= r.value && OccursAt(s, pat, r.value)
    ensures forall j :: k <= j && (r.None? || j < r.value) ==> !OccursAt(s, pat, j)
    decreases |s| - k
  {
    if OccursAt(s, pat, k) then Some(k)
    else if k == |s| then None
    else IndexOfFrom(s, pat, k + 1)
  }

  /** `indexOf`: the position of the first occurrence of `pat` in `s`,
      and `None` (-1) when there is none. */
  function IndexOf(s: string, pat: string): (r: Option<nat>)
    ensures r.Some? ==> OccursAt(s, pat, r.value)
    ensures forall j: nat :: r.None? || j < r.value ==> !OccursAt(s, pat, j)
  {
    IndexOfFrom(s, pat, 0)
  }

  /** An occurrence with none before it is the one `IndexOf` finds. */
  lemma IndexOfFirst(s: string, pat: string, i: nat)
    requires OccursAt(s, pat, i)
    requires forall j :: 0 <= j < i ==> !OccursAt(s, pat, j)
    ensures IndexOf(s, pat) == Some(i)
  {
  }

  /** `s.replace(pat, '')` with a string pattern: drops the first occurrence only. */
  function RemoveFirst(s: string, pat: string): (r: string)
    ensures IndexOf(s, pat).None? ==> r == s
    ensures IndexOf(s, pat).Some? ==>
      var i := IndexOf(s, pat).value; |r| == |s| - |pat| && r == s[..i] + s[i + |pat|..]
  {
    match IndexOf(s, pat)
    case None => s
    case Some(i) => s[..i] + s[i + |pat|..]
  }

  /** An ASCII capital in lower case; any other character as it is. */
  function LowerChar(c: char): char {
    if 'A' <= c <= 'Z' then (c as int + 32) as char else c
  }

  /** `toLowerCase` on ASCII letters (other characters are left alone). */
  function ToLower(s: string): (r: string)
    ensures |r| == |s|
    ensures forall i :: 0 <= i < |s| ==> r[i] == LowerChar(s[i])
  {
    seq(|s|, i requires 0 <= i < |s| => LowerChar(s[i]))
  }

  // ---------------------------------------------------------------------------
  // parseFloat

  /** The length of the run of decimal digits at the start of `s`. */
  function SpanDigits(s: string): (k: nat)
    ensures k <= |s| && AllDigits(s[..k]) && (k == |s| || !IsDigit(s[k]))
  {
    if s != [] && IsDigit(s[0]) then
      var k := 1 + SpanDigits(s[1..]);
      assert s[..k] == [s[0]] + s[1..][..k - 1];
      k
    else 0
  }

  /** The digits after a leading decimal point, if `rest` starts with one. */
  function FractionDigits(rest: string): (f: string)
    ensures AllDigits(f)
  {
    if |rest| > 0 && rest[0] == '.' then rest[1..][..SpanDigits(rest[1..])] else []
  }

  /** The value of the digits after a decimal point: "25" is 0.25. */
  function FractionValue(f: string): (x: real)
    requires AllDigits(f)
    ensures f == [] ==> x == 0.0
    ensures x >= 0.0
  {
    DigitsValue(f) as real / Pow10(|f|) as real
  }

  /** Text that starts like a number: a digit, or a point and a digit. */
  predicate StartsNumeral(u: string) {
    (|u| > 0 && IsDigit(u[0])) || (|u| > 1 && u[0] == '.' && IsDigit(u[1]))
  }

  /** An unsigned decimal prefix: digits [. digits], at least one digit. */
  function ParseUnsigned(u: string): (x: Option<real>)
    ensures x.Some? <==> StartsNumeral(u)
    ensures x.Some? ==> x.value >= 0.0
  {
    var k := SpanDigits(u);
    var whole := u[..k];
    var fraction := FractionDigits(u[k..]);
    if whole == [] && fraction == [] then None
    else Some(DigitsValue(whole) as real + FractionValue(fraction))
  }

  /** `parseFloat`: skips leading white space and reads the longest prefix of
      the form [sign] digits [. digits] with at least one digit; `None` is NaN. */
  function ParseFloat(s: string): (r: Option<real>)
    ensures var t := TrimStart(s);
      var signed := |t| > 0 && (t[0] == '-' || t[0] == '+');
      r.Some? <==> StartsNumeral(if signed then t[1..] else t)
    ensures var t := TrimStart(s);
      r.Some? ==> if |t| > 0 && t[0] == '-' then r.value <= 0.0 else r.value >= 0.0
  {
    var t := TrimStart(s);
    if |t| > 0 && t[0] == '-' then
      match ParseUnsigned(t[1..])
      case None => None
      case Some(x) => Some(-x)
    else if |t| > 0 && t[0] == '+' then ParseUnsigned(t[1..])
    else ParseUnsigned(t)
  }

  lemma SpanDigitsOfNumeral(d: string, rest: string)
    requires AllDigits(d)
    requires rest == [] || !IsDigit(rest[0])
    ensures SpanDigits(d + rest) == |d|
  {
    if d != [] {
      assert (d + rest)[1..] == d[1..] + rest;
      SpanDigitsOfNumeral(d[1..], rest);
    } else {
      assert d + rest == rest;
    }
  }

  lemma ParseUnsignedOfWhole(u: string)
    requires SpanDigits(u) > 0 && FractionDigits(u[SpanDigits(u)..]) == []
    ensures ParseUnsigned(u) == Some(DigitsValue(u[..SpanDigits(u)]) as real)
  {
  }

  lemma ParseUnsignedOfNumeral(d: string, rest: string)
    requires |d| > 0 && AllDigits(d)
    requires rest == [] || (!IsDigit(rest[0]) && rest[0] != '.')
    ensures ParseUnsigned(d + rest) == Some(DigitsValue(d) as real)
  {
    var s := d + rest;
    SpanDigitsOfNumeral(d, rest);
    assert s[..|d|] == d;
    assert s[|d|..] == rest;
    assert FractionDigits(rest) == [];
    ParseUnsignedOfWhole(s);
  }

  lemma TrimStartOfDigit(s: string)
    requires |s| > 0 && IsDigit(s[0])
    ensures TrimStart(s) == s
  {
  }

  lemma ParseFloatOfUnsigned(s: string)
    requires |s| > 0 && IsDigit(s[0])
    ensures ParseFloat(s) == ParseUnsigned(s)
  {
    TrimStartOfDigit(s);
  }

  /** `parseFloat` reads a rendered whole number back, whatever non-numeric
      text follows it: `parseFloat("12 NP") == 12`. */
  lemma ParseFloatOfNumeral(n: nat, rest: string)
    requires rest == [] || (!IsDigit(rest[0]) && rest[0] != '.')
    ensures ParseFloat(NatToString(n) + rest) == Some(n as real)
  {
    var d := NatToString(n);
    var s := d + rest;
    assert s[0] == d[0];
    ParseFloatOfUnsigned(s);
    ParseUnsignedOfNumeral(d, rest);
    DigitsValueOfNatToString(n);
  }

  /** `parseFloat` of `String(n)` is `n`. */
  lemma ParseFloatOfNatToString(n: nat)
    ensures ParseFloat(NatToString(n)) == Some(n as real)
  {
    ParseFloatOfNumeral(n, []);
    assert NatToString(n) + [] == NatToString(n);
  }

  /** `parseFloat` gives NaN on text that does not start (after white space)
      with a sign, a digit or a point. */
  lemma ParseFloatNaN(s: string)
    requires var t := TrimStart(s); t == [] || (!IsDigit(t[0]) && t[0] !in "+-.")
    ensures ParseFloat(s) == None
  {
  }
}
