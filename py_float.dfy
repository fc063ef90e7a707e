/** Python's float(text) for decimal text: an optional sign, digits that may be
    grouped by single underscores, an optional fraction and an optional exponent.
    A text outside this grammar makes float() raise ValueError, modelled as None. */
module PyFloat {
  import opened Wrappers
  import opened PyText

  /** The first position of s holding one of cs, or |s| when there is none. */
  function IndexOfAny(s: string, cs: set<char>): (i: nat)
    ensures i <= |s|
    ensures i < |s| ==> s[i] in cs
    ensures forall j :: 0 <= j < i ==> s[j] !in cs
  {
    if s == [] then 0
    else if s[0] in cs then 0
    else 1 + IndexOfAny(s[1..], cs)
  }

  /** A digitpart of Python's grammar: digits, with single underscores allowed
      between two digits. */
  predicate IsDigitPart(s: string) {
    && |s| > 0 && IsDigit(s[0]) && IsDigit(s[|s| - 1])
    && (forall i :: 0 <= i < |s| ==> IsDigit(s[i]) || s[i] == '_')
    && (forall i :: 0 <= i < |s| - 1 ==> !(s[i] == '_' && s[i + 1] == '_'))
  }

  /** The digits of a digitpart, underscores dropped. */
  function DigitsOf(s: string): (d: string)
    requires IsDigitPart(s)
    ensures AllDigits(d) && |d| >= 1
  {
    RemoveCharCounts(s, '_');
    var d := RemoveChar(s, '_');
    assert s[0] in multiset(d);
    forall i | 0 <= i < |d| ensures IsDigit(d[i]) {
      assert d[i] in multiset(d);
      assert d[i] in multiset(s);
    }
    d
  }

  /** The value of a sequence of 10 to the power e, for any integer e. */
  function Scale(e: int): (r: real)
    ensures r > 0.0
  {
    if e >= 0 then Pow10(e) as real else 1.0 / Pow10(-e) as real
  }

  /** The value of the digits after a decimal point. */
  function FractionValue(fp: string): (r: real)
    requires IsDigitPart(fp)
  {
    var d := DigitsOf(fp);
    DigitsValue(d) as real / Pow10(|d|) as real
  }

  /** digitpart | digitpart "." | digitpart "." digitpart | "." digitpart */
  function MantissaValue(s: string): Option<real> {
    var p := IndexOfAny(s, {'.'});
    if p == |s| then
      if IsDigitPart(s) then Some(DigitsValue(DigitsOf(s)) as real) else None
    else
      var ip, fp := s[..p], s[p + 1..];
      if ip == [] && fp == [] then None
      else if ip != [] && !IsDigitPart(ip) then None
      else if fp != [] && !IsDigitPart(fp) then None
      else
        var whole := if ip == [] then 0 else DigitsValue(DigitsOf(ip));
        var frac := if fp == [] then 0.0 else FractionValue(fp);
        Some(whole as real + frac)
  }

  /** ["+" | "-"] digitpart, the part after "e" or "E". */
  function ExponentValue(s: string): Option<int> {
    if |s| > 0 && (s[0] == '+' || s[0] == '-') then
      var u := s[1..];
      if IsDigitPart(u) then
        var n: int := DigitsValue(DigitsOf(u));
        Some(if s[0] == '-' then -n else n)
      else None
    else if IsDigitPart(s) then Some(DigitsValue(DigitsOf(s)))
    else None
  }

  /** A mantissa, optionally followed by an exponent. */
  function UnsignedValue(s: string): Option<real> {
    var e := IndexOfAny(s, {'e', 'E'});
    if e == |s| then MantissaValue(s)
    else
      match (MantissaValue(s[..e]), ExponentValue(s[e + 1..]))
      case (Some(m), Some(x)) => Some(m * Scale(x))
      case _ => None
  }

  /** float(s) on text: the whitespace str.strip removes is ignored around it,
      then an optional sign and an unsigned number. None stands for the
      ValueError. float() itself strips a narrower set, without U+001C..U+001F;
      the two agree on text that is already stripped. */
  function FloatOf(s: string): Option<real> {
    SignedValue(Strip(s))
  }

  /** An optional sign and an unsigned number. */
  function SignedValue(t: string): Option<real> {
    if |t| > 0 && t[0] == '-' then Negated(UnsignedValue(t[1..]))
    else if |t| > 0 && t[0] == '+' then UnsignedValue(t[1..])
    else UnsignedValue(t)
  }

  function Negated(v: Option<real>): Option<real> {
    match v
    case Some(x) => Some(-x)
    case None => None
  }

  // ---- Properties ----

  /** A string of plain digits is a digitpart whose digits are itself. */
  lemma {:induction false} PlainDigitPart(s: string)
    requires |s| >= 1 && AllDigits(s)
    ensures IsDigitPart(s) && DigitsOf(s) == s
  {
    assert '_' !in s;
  }

  /** A string of plain digits holds no point, no exponent marker and no
      surrounding whitespace. */
  lemma {:induction false} PlainDigitsUnmarked(s: string)
    requires |s| >= 1 && AllDigits(s)
    ensures IndexOfAny(s, {'.'}) == |s| && IndexOfAny(s, {'e', 'E'}) == |s|
    ensures IsStripped(s)
  {
    assert forall k :: 0 <= k < |s| ==> s[k] != '.' && s[k] != 'e' && s[k] != 'E';
  }

  /** A string of plain digits is a mantissa standing for its own value. */
  lemma {:induction false} PlainDigits(s: string)
    requires |s| >= 1 && AllDigits(s)
    ensures IsDigitPart(s) && DigitsOf(s) == s
    ensures IndexOfAny(s, {'.'}) == |s| && IndexOfAny(s, {'e', 'E'}) == |s|
    ensures IsStripped(s)
    ensures MantissaValue(s) == Some(DigitsValue(s) as real)
  {
    PlainDigitPart(s);
    PlainDigitsUnmarked(s);
  }

  /** float() of stripped text that does not start with a sign reads it unsigned. */
  lemma {:induction false} FloatOfUnsigned(s: string)
    requires IsStripped(s) && (s == [] || (s[0] != '+' && s[0] != '-'))
    ensures FloatOf(s) == UnsignedValue(s)
  {
  }

  /** float() of "-" followed by stripped text negates that text's value. */
  lemma {:induction false} FloatOfNegative(s: string)
    requires IsStripped(s) && s != []
    ensures FloatOf("-" + s) == Negated(UnsignedValue(s))
  {
    var t := "-" + s;
    assert t[0] == '-' && t[1..] == s;
    assert IsStripped(t) by {
      assert !IsSpace('-') && t[|t| - 1] == s[|s| - 1];
    }
  }

  /** Text without an exponent marker is read as a bare mantissa. */
  lemma {:induction false} UnsignedWithoutExponent(s: string)
    requires IndexOfAny(s, {'e', 'E'}) == |s|
    ensures UnsignedValue(s) == MantissaValue(s)
  {
  }

  /** The numeral of an integer, as str(n) writes it. */
  function IntText(n: int): string {
    (if n < 0 then "-" else "") + NatToDigits(if n < 0 then -n else n)
  }

  /** float(str(n)) == n for every natural number n. */
  lemma {:induction false} FloatOfNatText(n: nat)
    ensures FloatOf(NatToDigits(n)) == Some(n as real)
  {
    var d := NatToDigits(n);
    PlainDigits(d);
    UnsignedWithoutExponent(d);
    FloatOfUnsigned(d);
  }

  /** float(str(n)) == n for every negative integer n. */
  lemma {:induction false} FloatOfNegativeIntText(n: int)
    requires n < 0
    ensures FloatOf(IntText(n)) == Some(n as real)
  {
    var d := NatToDigits(-n);
    assert IntText(n) == "-" + d;
    PlainDigits(d);
    UnsignedWithoutExponent(d);
    FloatOfNegative(d);
  }

  /** float(str(n)) == n for every integer n. */
  lemma {:induction false} FloatOfIntText(n: int)
    ensures FloatOf(IntText(n)) == Some(n as real)
  {
    if n < 0 {
      FloatOfNegativeIntText(n);
    } else {
      assert IntText(n) == NatToDigits(n);
      FloatOfNatText(n);
    }
  }

  /** The number whole + frac / 10^k. */
  function DecimalValue(whole: nat, frac: nat, k: nat): real {
    whole as real + frac as real / Pow10(k) as real
  }

  /** Searching past a prefix free of cs continues in the rest. */
  lemma {:induction false} IndexOfAnyAppend(a: string, b: string, cs: set<char>)
    requires forall j :: 0 <= j < |a| ==> a[j] !in cs
    ensures IndexOfAny(a + b, cs) == |a| + IndexOfAny(b, cs)
  {
    if a != [] {
      assert (a + b)[0] == a[0];
      assert (a + b)[1..] == a[1..] + b;
      IndexOfAnyAppend(a[1..], b, cs);
    } else {
      assert a + b == b;
    }
  }

  /** A mantissa with digits on both sides of its point. */
  lemma {:induction false} MantissaWithPoint(s: string, p: nat)
    requires p == IndexOfAny(s, {'.'}) && p < |s|
    requires IsDigitPart(s[..p]) && IsDigitPart(s[p + 1..])
    ensures MantissaValue(s) == Some(DigitsValue(DigitsOf(s[..p])) as real + FractionValue(s[p + 1..]))
  {
  }

  /** The mantissa "w.f" of two plain digit strings is w + f / 10^|f|. */
  lemma {:induction false} MantissaOfDecimal(w: string, f: string)
    requires |w| >= 1 && AllDigits(w) && |f| >= 1 && AllDigits(f)
    ensures MantissaValue(w + "." + f) == Some(DecimalValue(DigitsValue(w), DigitsValue(f), |f|))
  {
    var s := w + "." + f;
    PlainDigitPart(w);
    PlainDigitPart(f);
    assert s == w + ("." + f);
    IndexOfAnyAppend(w, "." + f, {'.'});
    assert IndexOfAny("." + f, {'.'}) == 0;
    assert s[..|w|] == w && s[|w| + 1..] == f;
    MantissaWithPoint(s, |w|);
  }

  /** "w.f" of two plain digit strings has no exponent marker, no sign and no
      surrounding whitespace, so float() reads it as a mantissa. */
  lemma {:induction false} FloatOfDecimal(w: string, f: string)
    requires |w| >= 1 && AllDigits(w) && |f| >= 1 && AllDigits(f)
    ensures FloatOf(w + "." + f) == MantissaValue(w + "." + f)
  {
    var s := w + "." + f;
    assert forall j :: 0 <= j < |s| ==> IsDigit(s[j]) || s[j] == '.' by {
      assert forall j :: 0 <= j < |w| ==> s[j] == w[j];
      assert forall j :: |w| < j < |s| ==> s[j] == f[j - |w| - 1];
    }
    assert IndexOfAny(s, {'e', 'E'}) == |s|;
    UnsignedWithoutExponent(s);
    assert IsDigit(s[0]) && IsDigit(s[|s| - 1]);
    FloatOfUnsigned(s);
  }

  /** Text written as whole digits, a point and exactly k fraction digits
      (a money amount "1234.56" is k = 2) reads back as that decimal value. */
  lemma {:induction false} FloatOfDecimalText(whole: nat, frac: nat, k: nat)
    requires 1 <= k && frac < Pow10(k)
    ensures FloatOf(NatToDigits(whole) + "." + FixedDigits(frac, k)) == Some(DecimalValue(whole, frac, k))
  {
    var w, f := NatToDigits(whole), FixedDigits(frac, k);
    MantissaOfDecimal(w, f);
    FloatOfDecimal(w, f);
  }

  /** s holds at least one decimal digit. */
  predicate HasDigit(s: string) {
    exists i :: 0 <= i < |s| && IsDigit(s[i])
  }

  lemma {:induction false} DigitPartHasDigit(s: string)
    requires IsDigitPart(s)
    ensures HasDigit(s)
  {
    assert IsDigit(s[0]);
  }

  lemma {:induction false} HasDigitWithin(s: string, a: nat, b: nat)
    requires a <= b <= |s| && HasDigit(s[a..b])
    ensures HasDigit(s)
  {
    var i :| 0 <= i < b - a && IsDigit(s[a..b][i]);
    assert s[a + i] == s[a..b][i];
  }

  lemma {:induction false} MantissaHasDigit(s: string)
    requires MantissaValue(s).Some?
    ensures HasDigit(s)
  {
    var p := IndexOfAny(s, {'.'});
    if p == |s| {
      DigitPartHasDigit(s);
    } else if s[..p] != [] {
      DigitPartHasDigit(s[..p]);
      HasDigitWithin(s, 0, p);
    } else {
      DigitPartHasDigit(s[p + 1..]);
      assert s[p + 1..] == s[p + 1..|s|];
      HasDigitWithin(s, p + 1, |s|);
    }
  }

  lemma {:induction false} UnsignedHasDigit(s: string)
    requires UnsignedValue(s).Some?
    ensures HasDigit(s)
  {
    var e := IndexOfAny(s, {'e', 'E'});
    if e == |s| {
      MantissaHasDigit(s);
    } else {
      MantissaHasDigit(s[..e]);
      HasDigitWithin(s, 0, e);
    }
  }

  /** float() accepts only text with a digit in it: signs, points, exponent
      markers, underscores and whitespace alone raise ValueError. */
  lemma {:induction false} FloatOfNeedsDigit(s: string)
    ensures FloatOf(s).Some? ==> HasDigit(s)
  {
    if FloatOf(s).Some? {
      SignedHasDigit(Strip(s));
      StrippedHasDigit(s);
    }
  }

  lemma {:induction false} StrippedHasDigit(s: string)
    requires HasDigit(Strip(s))
    ensures HasDigit(s)
  {
    StripTrims(s);
    var i :| TrimmedAt(s, Strip(s), i);
    TrimmedHasDigit(s, Strip(s), i);
  }

  lemma {:induction false} TrimmedHasDigit(s: string, t: string, i: nat)
    requires TrimmedAt(s, t, i) && HasDigit(t)
    ensures HasDigit(s)
  {
    HasDigitWithin(s, i, i + |t|);
  }

  lemma {:induction false} SignedHasDigit(t: string)
    requires SignedValue(t).Some?
    ensures HasDigit(t)
  {
    if |t| > 0 && (t[0] == '-' || t[0] == '+') {
      UnsignedHasDigit(t[1..]);
      assert t[1..] == t[1..|t|];
      HasDigitWithin(t, 1, |t|);
    } else {
      UnsignedHasDigit(t);
    }
  }

  /** Text without whitespace at either end is read as it stands: no
      character is stripped, whichever whitespace set float() strips. */
  lemma {:induction false} FloatOfStrippedText(t: string)
    requires IsStripped(t)
    ensures FloatOf(t) == SignedValue(t)
  {
  }

  /** The model's float() ignores the whitespace str.strip removes around the
      text: reading the stripped text gives the same number or the same ValueError. */
  lemma {:induction false} FloatOfStripped(s: string)
    ensures FloatOf(Strip(s)) == FloatOf(s)
  {
    assert Strip(Strip(s)) == Strip(s);
  }

  /** Empty text is not a number: float("") raises. */
  lemma {:induction false} FloatOfEmpty()
    ensures FloatOf("") == None
  {
    assert Strip("") == "";
    assert UnsignedValue("") == None;
  }

  /** A word is not a number: float("abc") raises. */
  lemma {:induction false} FloatOfWord()
    ensures FloatOf("abc") == None
  {
    assert Strip("abc") == "abc" by { assert IsStripped("abc"); }
    assert IndexOfAny("abc", {'.'}) == 3;
    assert !IsDigitPart("abc");
  }
}
