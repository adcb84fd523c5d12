/** The string operations of Python and pandas that the pipeline relies on:
    code-point order (`<` on `str`), `str.replace(',', '')`, `str.strip()`,
    `str.lower()`, and the decimal grammar accepted by `float()` and `int()`. */
module Text {
  import opened Exceptions

  // ---------------------------------------------------------------------------
  // Code-point lexicographic order, the order in which pandas sorts categories.
  // ---------------------------------------------------------------------------

  /** `a < b` on Python strings: the first differing code point decides, and a
      proper prefix comes first. */
  predicate Less(a: string, b: string): (r: bool)
    ensures r ==> |b| > 0
    ensures |a| < |b| && a == b[..|a|] ==> r
    decreases |a|
  {
    if |a| == 0 then |b| > 0
    else if |b| == 0 then false
    else if a[0] != b[0] then a[0] < b[0]
    else
      assert |a| < |b| && a == b[..|a|] ==> a[1..] == b[1..][..|a| - 1];
      Less(a[1..], b[1..])
  }

  lemma {:induction false} LessIrreflexive(a: string)
    ensures !Less(a, a)
    decreases |a|
  {
    if |a| > 0 { LessIrreflexive(a[1..]); }
  }

  lemma {:induction false} LessTransitive(a: string, b: string, c: string)
    requires Less(a, b) && Less(b, c)
    ensures Less(a, c)
    decreases |a|
  {
    if |a| > 0 && a[0] == b[0] && b[0] == c[0] {
      LessTransitive(a[1..], b[1..], c[1..]);
    }
  }

  lemma {:induction false} LessTotal(a: string, b: string)
    requires a != b
    ensures Less(a, b) || Less(b, a)
    decreases |a|
  {
    if |a| > 0 && |b| > 0 && a[0] == b[0] {
      LessTotal(a[1..], b[1..]);
    }
  }

  // ---------------------------------------------------------------------------
  // str.replace(',', '')
  // ---------------------------------------------------------------------------

  function RemoveCommas(s: string): (r: string)
    ensures ',' !in r && |r| <= |s|
    ensures forall c :: c in r <==> c in s && c != ','
    ensures ',' !in s ==> r == s
    decreases |s|
  {
    if s == [] then []
    else if s[0] == ',' then RemoveCommas(s[1..])
    else [s[0]] + RemoveCommas(s[1..])
  }

  lemma {:induction false} RemoveCommasAppend(a: string, b: string)
    ensures RemoveCommas(a + b) == RemoveCommas(a) + RemoveCommas(b)
    decreases |a|
  {
    if a != [] {
      assert (a + b)[1..] == a[1..] + b;
      RemoveCommasAppend(a[1..], b);
    } else {
      assert a + b == b;
    }
  }

  // ---------------------------------------------------------------------------
  // str.strip() and str.lower()
  // ---------------------------------------------------------------------------

  /** The characters Python's `str.isspace()` accepts, which `strip()`, `float()`
      and `int()` discard at both ends. */
  predicate IsSpace(c: char) {
    || c == ' ' || ('\U{0009}' <= c <= '\U{000D}')
    || ('\U{001C}' <= c <= '\U{001F}')
    || c == '\U{0085}' || c == '\U{00A0}' || c == '\U{1680}'
    || ('\U{2000}' <= c <= '\U{200A}')
    || c == '\U{2028}' || c == '\U{2029}' || c == '\U{202F}' || c == '\U{205F}' || c == '\U{3000}'
  }

  predicate AllSpace(s: string) {
    forall i :: 0 <= i < |s| ==> IsSpace(s[i])
  }

  /** `s.lstrip()` */
  function StripLeft(s: string): (r: string)
    decreases |s|
  {
    if |s| > 0 && IsSpace(s[0]) then StripLeft(s[1..]) else s
  }

  /** `s.rstrip()` */
  function StripRight(s: string): (r: string)
    decreases |s|
  {
    if |s| > 0 && IsSpace(s[|s| - 1]) then StripRight(s[..|s| - 1]) else s
  }

  /** `lstrip()` leaves the suffix after the longest all-whitespace prefix. */
  lemma {:induction false} StripLeftSpec(s: string)
    ensures var r := StripLeft(s);
      && |r| <= |s| && r == s[|s| - |r|..]
      && AllSpace(s[..|s| - |r|])
      && (r == [] || !IsSpace(r[0]))
    decreases |s|
  {
    if |s| > 0 && IsSpace(s[0]) {
      StripLeftSpec(s[1..]);
      var r := StripLeft(s);
      var k := |s| - |r|;
      assert s[1..][|s| - 1 - |r|..] == s[k..];
      forall i | 0 <= i < k ensures IsSpace(s[..k][i]) {
        if i > 0 { assert s[..k][i] == s[1..][..k - 1][i - 1]; }
      }
    }
  }

  /** `rstrip()` leaves the prefix before the longest all-whitespace suffix. */
  lemma {:induction false} StripRightSpec(s: string)
    ensures var r := StripRight(s);
      && |r| <= |s| && r == s[..|r|]
      && AllSpace(s[|r|..])
      && (r == [] || !IsSpace(r[|r| - 1]))
    decreases |s|
  {
    if |s| > 0 && IsSpace(s[|s| - 1]) {
      var s' := s[..|s| - 1];
      StripRightSpec(s');
      var r := StripRight(s);
      assert s'[..|r|] == s[..|r|];
      forall i | 0 <= i < |s| - |r| ensures IsSpace(s[|r|..][i]) {
        if i < |s| - 1 - |r| { assert s[|r|..][i] == s'[|r|..][i]; }
      }
    }
  }

  /** `s.strip()`: a part of `s` that neither starts nor ends with whitespace,
      and is empty exactly when `s` is all whitespace. */
  function Strip(s: string): (r: string)
    ensures |r| <= |s|
    ensures r == [] || (!IsSpace(r[0]) && !IsSpace(r[|r| - 1]))
    ensures r == [] <==> AllSpace(s)
  {
    StripBothEnds(s);
    StripRight(StripLeft(s))
  }

  lemma StripBothEnds(s: string)
    ensures var r := StripRight(StripLeft(s));
      && |r| <= |s|
      && (r == [] || (!IsSpace(r[0]) && !IsSpace(r[|r| - 1])))
      && (r == [] <==> AllSpace(s))
  {
    var l := StripLeft(s);
    StripLeftSpec(s);
    var r := StripRight(l);
    StripRightSpec(l);
    if r != [] { assert r[0] == l[0]; }
    if r == [] { assert s[..|s| - |l|] == s; }
  }

  /** `lstrip()` stops at the first non-space character. */
  lemma {:induction false} StripLeftAt(s: string, i: nat)
    requires i < |s| && AllSpace(s[..i]) && !IsSpace(s[i])
    ensures StripLeft(s) == s[i..]
    decreases i
  {
    if i > 0 {
      assert IsSpace(s[..i][0]);
      assert s[1..][..i - 1] == s[1..i];
      var t := s[1..][..i - 1];
      assert AllSpace(t) by {
        forall k | 0 <= k < |t| ensures IsSpace(t[k]) { assert t[k] == s[..i][k + 1]; }
      }
      StripLeftAt(s[1..], i - 1);
      assert s[1..][i - 1..] == s[i..];
    }
  }

  /** `rstrip()` stops at the last non-space character. */
  lemma {:induction false} StripRightAt(s: string, j: nat)
    requires 0 < j <= |s| && AllSpace(s[j..]) && !IsSpace(s[j - 1])
    ensures StripRight(s) == s[..j]
    decreases |s| - j
  {
    if j < |s| {
      var s' := s[..|s| - 1];
      assert IsSpace(s[j..][|s| - 1 - j]);
      assert AllSpace(s'[j..]) by {
        forall k | 0 <= k < |s'| - j ensures IsSpace(s'[j..][k]) { assert s'[j..][k] == s[j..][k]; }
      }
      StripRightAt(s', j);
      assert s'[..j] == s[..j];
    } else {
      assert s[..j] == s;
    }
  }

  /** Whatever whitespace surrounds a word that starts and ends with a
      non-space, `strip()` returns exactly that word. */
  lemma StripPadded(pre: string, w: string, post: string)
    requires AllSpace(pre) && AllSpace(post)
    requires |w| > 0 && !IsSpace(w[0]) && !IsSpace(w[|w| - 1])
    ensures Strip(pre + w + post) == w
  {
    var s := pre + w + post;
    assert s[..|pre|] == pre && s[|pre|] == w[0];
    StripLeftAt(s, |pre|);
    var l := s[|pre|..];
    assert l == w + post;
    assert l[|w|..] == post && l[|w| - 1] == w[|w| - 1];
    StripRightAt(l, |w|);
    assert l[..|w|] == w;
  }

  /** `c.lower()` for the characters it maps to single ASCII letters. */
  function LowerChar(c: char): (r: char)
    ensures 'A' <= c <= 'Z' ==> 'a' <= r <= 'z' && r as int == c as int + 32
    ensures !('A' <= c <= 'Z') ==> r == c
  {
    if 'A' <= c <= 'Z' then (c as int - 'A' as int + 'a' as int) as char else c
  }

  function Lower(s: string): (r: string)
    ensures |r| == |s| && forall i :: 0 <= i < |s| ==> r[i] == LowerChar(s[i])
  {
    seq(|s|, i requires 0 <= i < |s| => LowerChar(s[i]))
  }

  // ---------------------------------------------------------------------------
  // Decimal digits, float() and int()
  // ---------------------------------------------------------------------------

  predicate IsDigit(c: char) { '0' <= c <= '9' }

  predicate AllDigits(s: string) {
    forall i :: 0 <= i < |s| ==> IsDigit(s[i])
  }

  function DigitChar(d: nat): (c: char)
    requires d < 10
    ensures IsDigit(c) && DigitValue(c) == d
  {
    ('0' as int + d) as char
  }

  function Pow10(k: nat): (p: nat)
    ensures p >= 1
  {
    if k == 0 then 1 else 10 * Pow10(k - 1)
  }

  function DigitValue(c: char): (d: nat)
    requires IsDigit(c)
    ensures d < 10
  {
    c as int - '0' as int
  }

  /** The number a string of decimal digits denotes, most significant first. */
  function DigitsValue(s: string): (v: nat)
    requires AllDigits(s)
    decreases |s|
  {
    if s == [] then 0 else 10 * DigitsValue(s[..|s| - 1]) + DigitValue(s[|s| - 1])
  }

  lemma AllDigitsAppend(a: string, b: string)
    ensures AllDigits(a + b) <==> AllDigits(a) && AllDigits(b)
  {
    if AllDigits(a) && AllDigits(b) {
      forall i | 0 <= i < |a + b| ensures IsDigit((a + b)[i]) {
        if i < |a| { assert (a + b)[i] == a[i]; } else { assert (a + b)[i] == b[i - |a|]; }
      }
    }
    if AllDigits(a + b) {
      forall i | 0 <= i < |a| ensures IsDigit(a[i]) { assert a[i] == (a + b)[i]; }
      forall i | 0 <= i < |b| ensures IsDigit(b[i]) { assert b[i] == (a + b)[|a| + i]; }
    }
  }

  lemma {:induction false} DigitsValueAppend(a: string, b: string)
    requires AllDigits(a) && AllDigits(b)
    ensures AllDigits(a + b) && DigitsValue(a + b) == DigitsValue(a) * Pow10(|b|) + DigitsValue(b)
    decreases |b|
  {
    AllDigitsAppend(a, b);
    if b == [] {
      assert a + b == a;
    } else {
      var b' := b[..|b| - 1];
      var last := b[|b| - 1];
      assert AllDigits(b');
      assert (a + b)[..|a + b| - 1] == a + b';
      assert (a + b)[|a + b| - 1] == last;
      DigitsValueAppend(a, b');
      var d, x, y, p := DigitValue(last), DigitsValue(a), DigitsValue(b'), Pow10(|b'|);
      assert DigitsValue(a + b) == 10 * (x * p + y) + d;
      assert DigitsValue(b) == 10 * y + d;
      assert Pow10(|b|) == 10 * p;
      ShiftDigit(x, p, y, d);
    }
  }

  /** Appending one digit to the shifted sum shifts once more. */
  lemma ShiftDigit(x: int, p: int, y: int, d: int)
    ensures 10 * (x * p + y) + d == x * (10 * p) + (10 * y + d)
  {
    assert 10 * (x * p) == x * (10 * p);
  }

  /** Position of the first `c` in `s`, or `|s|` when there is none. */
  function Find(s: string, c: char): (k: nat)
    ensures k <= |s| && c !in s[..k]
    ensures k < |s| ==> s[k] == c
    ensures k == |s| <==> c !in s
    decreases |s|
  {
    if s == [] then 0
    else if s[0] == c then 0
    else
      var k := 1 + Find(s[1..], c);
      assert s[..k] == [s[0]] + s[1..][..k - 1];
      k
  }

  /** The value a decimal literal `w.f` denotes. */
  function DecimalValue(w: string, f: string): (v: real)
    requires AllDigits(w) && AllDigits(f)
    ensures v >= 0.0
  {
    DigitsValue(w) as real + DigitsValue(f) as real / Pow10(|f|) as real
  }

  /** An unsigned decimal: `digits`, `digits.`, `digits.digits` or `.digits`. */
  function ParseUnsignedDecimal(s: string): (r: Result<real>) {
    if '.' !in s then
      if |s| > 0 && AllDigits(s) then Ok(DigitsValue(s) as real)
      else Raised("could not convert string to float: '" + s + "'")
    else
      var k := Find(s, '.');
      var whole, frac := s[..k], s[k + 1..];
      if AllDigits(whole) && AllDigits(frac) && |whole| + |frac| > 0 then
        Ok(DecimalValue(whole, frac))
      else
        Raised("could not convert string to float: '" + s + "'")
  }

  /** `float(s)` for plain decimal literals: surrounding whitespace, an optional
      sign, then an unsigned decimal. */
  function ParseFloat(s: string): (r: Result<real>)
    ensures AllSpace(s) ==> r.Raised?
  {
    var t := Strip(s);
    var signed := |t| > 0 && (t[0] == '-' || t[0] == '+');
    var u := ParseUnsignedDecimal(if signed then t[1..] else t);
    if u.Raised? then Raised("could not convert string to float: '" + s + "'")
    else if signed && t[0] == '-' then Ok(-u.value)
    else Ok(u.value)
  }

  lemma DigitsAreUnsignedDecimal(s: string)
    requires |s| > 0 && AllDigits(s)
    ensures ParseUnsignedDecimal(s) == Ok(DigitsValue(s) as real)
  {
    assert '.' !in s by {
      forall i | 0 <= i < |s| ensures s[i] != '.' { assert IsDigit(s[i]); }
    }
  }

  /** A string of digits is its own `strip()`. */
  lemma DigitsStrip(s: string)
    requires |s| > 0 && AllDigits(s)
    ensures Strip(s) == s
  {
    assert !IsSpace(s[0]) && !IsSpace(s[|s| - 1]);
    StripLeftAt(s, 0);
    assert s[0..] == s && s[|s|..] == [];
    StripRightAt(s, |s|);
    assert s[..|s|] == s;
  }

  /** `float()` reads a string of digits as the integer it spells. */
  lemma DigitsParseAsFloat(s: string)
    requires |s| > 0 && AllDigits(s)
    ensures ParseFloat(s) == Ok(DigitsValue(s) as real)
  {
    DigitsStrip(s);
    assert IsDigit(s[0]);
    DigitsAreUnsignedDecimal(s);
    var t := Strip(s);
    assert t == s && !(|t| > 0 && (t[0] == '-' || t[0] == '+'));
  }

  /** `digits.digits`, `digits.` and `.digits` read as the whole part plus the
      fraction scaled by its number of digits. */
  lemma UnsignedParses(w: string, f: string)
    requires AllDigits(w) && AllDigits(f) && |w| + |f| > 0
    ensures ParseUnsignedDecimal(w + "." + f) == Ok(DecimalValue(w, f))
  {
    var u := w + "." + f;
    assert u[|w|] == '.';
    assert '.' in u;
    assert u[..|w|] == w && u[|w| + 1..] == f;
    assert '.' !in w by {
      forall i | 0 <= i < |w| ensures w[i] != '.' { assert IsDigit(w[i]); }
    }
    var k := Find(u, '.');
    assert k == |w|;
    var whole, frac := u[..k], u[k + 1..];
    assert whole == w && frac == f;
    assert AllDigits(whole) && AllDigits(frac) && |whole| + |frac| > 0;
  }

  /** `float()` once stripping has left an unsigned literal. */
  lemma ParseFloatUnsigned(s: string, v: string)
    requires Strip(s) == v && |v| > 0 && v[0] != '-' && v[0] != '+'
    requires ParseUnsignedDecimal(v).Ok?
    ensures ParseFloat(s) == ParseUnsignedDecimal(v)
  {
  }

  /** `float()` once stripping has left a minus sign and an unsigned literal. */
  lemma ParseFloatNegative(s: string, u: string, x: real)
    requires Strip(s) == "-" + u && ParseUnsignedDecimal(u) == Ok(x)
    ensures ParseFloat(s) == Ok(-x)
  {
    assert ("-" + u)[1..] == u;
  }

  /** `float()` reads a positive decimal literal, padded with whitespace, as its value. */
  lemma PosDecimalParses(pre: string, w: string, f: string, post: string)
    requires AllSpace(pre) && AllSpace(post)
    requires AllDigits(w) && AllDigits(f) && |w| + |f| > 0
    ensures ParseFloat(pre + (w + "." + f) + post) == Ok(DecimalValue(w, f))
  {
    var u := w + "." + f;
    assert !IsSpace(u[0]) && u[0] != '-' && u[0] != '+' by {
      if |w| > 0 { assert u[0] == w[0] && IsDigit(w[0]); } else { assert u[0] == '.'; }
    }
    assert !IsSpace(u[|u| - 1]) by { if |f| > 0 { assert u[|u| - 1] == f[|f| - 1]; assert IsDigit(f[|f| - 1]); } }
    StripPadded(pre, u, post);
    UnsignedParses(w, f);
    ParseFloatUnsigned(pre + u + post, u);
  }

  /** A minus sign and a literal ending in a non-space character is its own
      `strip()` inside whitespace. */
  lemma NegTokenStrip(pre: string, u: string, post: string)
    requires AllSpace(pre) && AllSpace(post)
    requires |u| > 0 && !IsSpace(u[|u| - 1])
    ensures Strip(pre + ("-" + u) + post) == "-" + u
  {
    var v := "-" + u;
    assert v[|v| - 1] == u[|u| - 1];
    StripPadded(pre, v, post);
  }

  /** A decimal literal ends in a digit or in its point. */
  lemma DecimalLastNotSpace(w: string, f: string)
    requires AllDigits(f)
    ensures var u := w + "." + f; !IsSpace(u[|u| - 1])
  {
    var u := w + "." + f;
    if |f| > 0 { assert u[|u| - 1] == f[|f| - 1]; assert IsDigit(f[|f| - 1]); }
  }

  /** `float()` reads a negative decimal literal, padded with whitespace, as the
      negated value. */
  lemma NegDecimalParses(pre: string, w: string, f: string, post: string)
    requires AllSpace(pre) && AllSpace(post)
    requires AllDigits(w) && AllDigits(f) && |w| + |f| > 0
    ensures ParseFloat(pre + ("-" + (w + "." + f)) + post) == Ok(-DecimalValue(w, f))
  {
    DecimalLastNotSpace(w, f);
    NegTokenStrip(pre, w + "." + f, post);
    UnsignedParses(w, f);
    ParseFloatNegative(pre + ("-" + (w + "." + f)) + post, w + "." + f, DecimalValue(w, f));
  }

  /** A minus sign followed by digits is its own `strip()` inside whitespace. */
  lemma NegDigitsStrip(pre: string, w: string, post: string)
    requires AllSpace(pre) && AllSpace(post)
    requires |w| > 0 && AllDigits(w)
    ensures Strip(pre + ("-" + w) + post) == "-" + w
  {
    assert IsDigit(w[|w| - 1]);
    NegTokenStrip(pre, w, post);
  }

  /** `float()` reads a negative integer literal as the negated value. */
  lemma NegDigitsParse(pre: string, w: string, post: string)
    requires AllSpace(pre) && AllSpace(post)
    requires |w| > 0 && AllDigits(w)
    ensures ParseFloat(pre + ("-" + w) + post) == Ok(-(DigitsValue(w) as real))
  {
    NegDigitsStrip(pre, w, post);
    DigitsAreUnsignedDecimal(w);
    ParseFloatNegative(pre + ("-" + w) + post, w, DigitsValue(w) as real);
  }

  predicate NoDigits(s: string) {
    forall i :: 0 <= i < |s| ==> !IsDigit(s[i])
  }

  lemma UnsignedDecimalHasDigit(s: string)
    requires NoDigits(s)
    ensures ParseUnsignedDecimal(s).Raised?
  {
    if '.' in s {
      var k := Find(s, '.');
      var whole, frac := s[..k], s[k + 1..];
      if |whole| > 0 { assert !IsDigit(whole[0]); }
      if |frac| > 0 { assert frac[0] == s[k + 1]; assert !IsDigit(frac[0]); }
    } else if |s| > 0 {
      assert !IsDigit(s[0]);
    }
  }

  /** A string without a single digit never converts to a number. */
  lemma NoDigitsNoFloat(s: string)
    requires NoDigits(s)
    ensures ParseFloat(s).Raised?
  {
    var l := StripLeft(s);
    StripLeftSpec(s);
    var t := StripRight(l);
    StripRightSpec(l);
    assert NoDigits(t) by {
      forall i | 0 <= i < |t| ensures !IsDigit(t[i]) {
        assert t[i] == l[i] == s[|s| - |l| + i];
      }
    }
    if |t| > 0 && (t[0] == '-' || t[0] == '+') {
      assert NoDigits(t[1..]) by {
        forall i | 0 <= i < |t| - 1 ensures !IsDigit(t[1..][i]) { assert t[1..][i] == t[i + 1]; }
      }
      UnsignedDecimalHasDigit(t[1..]);
    } else {
      UnsignedDecimalHasDigit(t);
    }
  }

  /** `int(s)` for plain decimal literals: surrounding whitespace, an optional
      sign, then at least one digit. */
  function ParseInt(s: string): (r: Result<int>)
    ensures r.Ok? <==> var t := Strip(s);
      (|t| > 0 && AllDigits(t)) ||
      (|t| > 1 && (t[0] == '-' || t[0] == '+') && AllDigits(t[1..]))
    ensures var t := Strip(s); |t| > 0 && AllDigits(t) ==> r == Ok(DigitsValue(t))
    ensures var t := Strip(s); |t| > 1 && t[0] == '+' && AllDigits(t[1..]) ==> r == Ok(DigitsValue(t[1..]))
    ensures var t := Strip(s); |t| > 1 && t[0] == '-' && AllDigits(t[1..]) ==> r == Ok(-(DigitsValue(t[1..]) as int))
  {
    var t := Strip(s);
    if |t| > 0 && AllDigits(t) then Ok(DigitsValue(t))
    else if |t| > 1 && (t[0] == '-' || t[0] == '+') && AllDigits(t[1..]) then
      var v: int := DigitsValue(t[1..]);
      Ok(if t[0] == '-' then -v else v)
    else Raised("invalid literal for int() with base 10: '" + s + "'")
  }
}
