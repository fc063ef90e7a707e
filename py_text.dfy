/** The Python string and integer-formatting built-ins the budget code relies on:
    str.replace(c, ""), str.strip(), and f"{n:0Wd}" zero-padded formatting. */
module PyText {

  /** Python's str.isspace(): the characters str.strip() removes by default. */
  predicate IsSpace(c: char) {
    || c == ' '
    || ('\t' <= c <= '\r')
    || ('\U{1c}' <= c <= '\U{1f}')
    || c == '\U{85}' || c == '\U{a0}' || c == '\U{1680}'
    || ('\U{2000}' <= c <= '\U{200a}')
    || c == '\U{2028}' || c == '\U{2029}' || c == '\U{202f}' || c == '\U{205f}' || c == '\U{3000}'
  }

  /** s.replace(c, ""): every occurrence of c removed, everything else kept in order. */
  function RemoveChar(s: string, c: char): (r: string)
    ensures c !in r
    ensures c !in s ==> r == s
  {
    if s == [] then []
    else (if s[0] == c then [] else [s[0]]) + RemoveChar(s[1..], c)
  }

  /** Removal adds no character. */
  lemma {:induction false} RemoveCharKeepsAbsence(s: string, c: char, d: char)
    requires d !in s
    ensures d !in RemoveChar(s, c)
  {
    if s != [] {
      assert forall x :: x in s[1..] ==> x in s;
      RemoveCharKeepsAbsence(s[1..], c, d);
    }
  }

  /** Removal keeps every other character, as many times as it occurs. */
  lemma {:induction false} RemoveCharCounts(s: string, c: char)
    ensures multiset(RemoveChar(s, c)) == multiset(s)[c := 0]
  {
    if s != [] {
      RemoveCharCounts(s[1..], c);
      assert s == [s[0]] + s[1..];
    }
  }

  /** Removal distributes over concatenation. */
  lemma {:induction false} RemoveCharAppend(a: string, b: string, c: char)
    ensures RemoveChar(a + b, c) == RemoveChar(a, c) + RemoveChar(b, c)
  {
    if a == [] {
      assert a + b == b;
    } else {
      assert (a + b)[1..] == a[1..] + b;
      RemoveCharAppend(a[1..], b, c);
    }
  }

  /** Removing c from "c" leaves nothing. */
  lemma {:induction false} RemoveCharOfItself(c: char)
    ensures RemoveChar([c], c) == []
  {
    assert [c][1..] == [];
  }

  /** Removing c from a string into which an extra copy of c was inserted gives
      the same result: the removal forgets where the separators were. */
  lemma {:induction false} RemoveCharIgnoresInsertion(a: string, b: string, c: char)
    ensures RemoveChar(a + [c] + b, c) == RemoveChar(a + b, c)
  {
    RemoveCharAppend(a + [c], b, c);
    RemoveCharAppend(a, [c], c);
    RemoveCharOfItself(c);
    assert RemoveChar(a + [c], c) == RemoveChar(a, c);
    RemoveCharAppend(a, b, c);
  }

  /** s.lstrip(): drops the leading whitespace. */
  function LStrip(s: string): (r: string)
    ensures |r| <= |s| && r == s[|s| - |r|..]
    ensures forall i :: 0 <= i < |s| - |r| ==> IsSpace(s[i])
    ensures r == [] || !IsSpace(r[0])
  {
    if s != [] && IsSpace(s[0]) then
      var r := LStrip(s[1..]);
      assert s[1..][|s| - 1 - |r|..] == s[|s| - |r|..];
      r
    else s
  }

  /** s.rstrip(): drops the trailing whitespace. */
  function RStrip(s: string): (r: string)
    ensures |r| <= |s| && r == s[..|r|]
    ensures forall i :: |r| <= i < |s| ==> IsSpace(s[i])
    ensures r == [] || !IsSpace(r[|r| - 1])
  {
    if s != [] && IsSpace(s[|s| - 1]) then RStrip(s[..|s| - 1]) else s
  }

  /** A string with no whitespace at either end: what s.strip() returns. */
  predicate IsStripped(s: string) {
    s == [] || (!IsSpace(s[0]) && !IsSpace(s[|s| - 1]))
  }

  /** r is s with i whitespace characters dropped at the front and all
      characters after r, whitespace too, dropped at the back. */
  predicate TrimmedAt(s: string, r: string, i: nat) {
    && i + |r| <= |s| && r == s[i..i + |r|]
    && (forall k :: 0 <= k < i ==> IsSpace(s[k]))
    && (forall k :: i + |r| <= k < |s| ==> IsSpace(s[k]))
  }

  /** s.strip(): drops whitespace at both ends. The result has no whitespace
      at its ends, and a stripped string is left as it is. */
  function Strip(s: string): (r: string)
    ensures IsStripped(r)
    ensures IsStripped(s) ==> r == s
  {
    var t := RStrip(s);
    var r := LStrip(t);
    assert IsStripped(s) ==> t == s;
    assert r != [] ==> r == t[|t| - |r|..] && r[|r| - 1] == t[|t| - 1];
    r
  }

  /** What s.strip() keeps: s with a run of whitespace cut from each end, every
      other character kept in place. */
  lemma {:induction false} StripTrims(s: string)
    ensures exists i :: TrimmedAt(s, Strip(s), i)
  {
    var t := RStrip(s);
    var r := LStrip(t);
    TrimmedByParts(s, t, r);
    assert Strip(s) == r;
    assert TrimmedAt(s, Strip(s), |t| - |r|);
  }

  /** A prefix t of s followed only by whitespace, and a suffix r of t preceded
      only by whitespace, leave r as s trimmed at both ends. */
  lemma {:induction false} TrimmedByParts(s: string, t: string, r: string)
    requires |t| <= |s| && t == s[..|t|]
    requires forall k :: |t| <= k < |s| ==> IsSpace(s[k])
    requires |r| <= |t| && r == t[|t| - |r|..]
    requires forall k :: 0 <= k < |t| - |r| ==> IsSpace(t[k])
    ensures TrimmedAt(s, r, |t| - |r|)
  {
    var i := |t| - |r|;
    assert r == s[i..i + |r|];
    assert forall k :: 0 <= k < i ==> IsSpace(s[k]) by {
      assert forall k :: 0 <= k < |t| ==> t[k] == s[k];
    }
  }

  /** Stripping adds no character. */
  lemma {:induction false} StripKeepsAbsence(s: string, c: char)
    requires c !in s
    ensures c !in Strip(s)
  {
    var t := RStrip(s);
    var r := LStrip(t);
    assert forall j :: 0 <= j < |t| ==> t[j] == s[j];
    assert forall j :: 0 <= j < |r| ==> r[j] == t[|t| - |r| + j];
  }

  // ---- Decimal digits ----

  predicate IsDigit(c: char) {
    '0' <= c <= '9'
  }

  predicate AllDigits(s: string) {
    forall i :: 0 <= i < |s| ==> IsDigit(s[i])
  }

  function DigitValue(c: char): (d: nat)
    requires IsDigit(c)
    ensures d < 10
  {
    c as int - '0' as int
  }

  function DigitChar(d: nat): (c: char)
    requires d < 10
    ensures IsDigit(c) && DigitValue(c) == d
  {
    ('0' as int + d) as char
  }

  /** The number a string of decimal digits denotes (most significant first). */
  function DigitsValue(s: string): nat
    requires AllDigits(s)
  {
    if s == [] then 0 else 10 * DigitsValue(s[..|s| - 1]) + DigitValue(s[|s| - 1])
  }

  function Pow10(n: nat): (p: nat)
    ensures p >= 1
  {
    if n == 0 then 1 else 10 * Pow10(n - 1)
  }

  /** The shortest decimal numeral of n, as str(n) gives it. */
  function NatToDigits(n: nat): (s: string)
    ensures |s| >= 1 && AllDigits(s)
    ensures (|s| == 1 || s[0] != '0')
    ensures DigitsValue(s) == n
  {
    if n < 10 then [DigitChar(n)]
    else
      var s := NatToDigits(n / 10) + [DigitChar(n % 10)];
      assert s[..|s| - 1] == NatToDigits(n / 10);
      s
  }

  /** Exactly w digits of n, zero-padded on the left; n must fit in w digits. */
  function FixedDigits(n: nat, w: nat): (s: string)
    requires n < Pow10(w)
    ensures |s| == w && AllDigits(s)
    ensures DigitsValue(s) == n
  {
    if w == 0 then []
    else
      var s := FixedDigits(n / 10, w - 1) + [DigitChar(n % 10)];
      assert s[..|s| - 1] == FixedDigits(n / 10, w - 1);
      s
  }

  /** Writing out the value of a w-digit string in w digits gives the string back,
      leading zeros included. */
  lemma {:induction false} FixedDigitsOfValue(s: string)
    requires AllDigits(s)
    ensures DigitsValue(s) < Pow10(|s|)
    ensures FixedDigits(DigitsValue(s), |s|) == s
  {
    if s != [] {
      var p := s[..|s| - 1];
      FixedDigitsOfValue(p);
      var n := DigitsValue(s);
      assert n / 10 == DigitsValue(p) && n % 10 == DigitValue(s[|s| - 1]);
      assert s == p + [s[|s| - 1]];
    }
  }

  /** f"{n:0{w}d}": the decimal numeral of n, zero-padded on the left to width w,
      the sign counting towards the width; a wider number is written in full. */
  function FormatInt(n: int, w: nat): (s: string)
    ensures |s| >= w
  {
    if n < 0 then "-" + FormatNat(-n, if w > 0 then w - 1 else 0)
    else FormatNat(n, w)
  }

  function FormatNat(n: nat, w: nat): (s: string)
    ensures AllDigits(s) && DigitsValue(s) == n
    ensures |s| >= w
  {
    if w > 0 && n < Pow10(w) then FixedDigits(n, w)
    else
      var d := NatToDigits(n);
      assert |d| >= w by { NumeralLength(n, w); }
      d
  }

  /** What f"{n:0{w}d}" writes: the digits of |n|, after a '-' when n is
      negative; exactly w characters when a natural n fits in w digits, and
      otherwise no leading zero. */
  lemma {:induction false} FormatIntDigits(n: int, w: nat)
    ensures n >= 0 ==> AllDigits(FormatInt(n, w)) && DigitsValue(FormatInt(n, w)) == n
    ensures n < 0 ==> var s := FormatInt(n, w);
      |s| >= 2 && s[0] == '-' && AllDigits(s[1..]) && DigitsValue(s[1..]) == -n
    ensures 0 <= n < Pow10(w) && w > 0 ==> |FormatInt(n, w)| == w
    ensures |FormatInt(n, w)| > w && n >= 0 ==> |FormatInt(n, w)| == 1 || FormatInt(n, w)[0] != '0'
  {
    if n < 0 {
      var d := FormatNat(-n, if w > 0 then w - 1 else 0);
      assert FormatInt(n, w) == "-" + d;
      assert ("-" + d)[1..] == d;
      assert |d| >= 1 by { NatToDigitsOrFixed(-n, if w > 0 then w - 1 else 0); }
    } else {
      NatToDigitsOrFixed(n, w);
    }
  }

  /** f"{n:0{w}d}" of a natural n is its w-digit form when it fits and its
      shortest numeral otherwise. */
  lemma {:induction false} NatToDigitsOrFixed(n: nat, w: nat)
    ensures w > 0 && n < Pow10(w) ==> FormatNat(n, w) == FixedDigits(n, w)
    ensures !(w > 0 && n < Pow10(w)) ==> FormatNat(n, w) == NatToDigits(n)
    ensures |FormatNat(n, w)| >= 1
  {
  }

  /** The numeral of a number with exactly w digits is its w-digit form. */
  lemma {:induction false} NatToDigitsFixed(n: nat, w: nat)
    requires w >= 1 && Pow10(w - 1) <= n < Pow10(w)
    ensures NatToDigits(n) == FixedDigits(n, w)
  {
    if w > 1 {
      NatToDigitsFixed(n / 10, w - 1);
    }
  }

  /** A number that fits in w >= 1 digits has a numeral at most w long. */
  lemma {:induction false} NumeralShort(n: nat, w: nat)
    requires w >= 1 && n < Pow10(w)
    ensures |NatToDigits(n)| <= w
  {
    if n >= 10 {
      NumeralShort(n / 10, w - 1);
    }
  }

  /** A number that does not fit in w digits has a numeral longer than w. */
  lemma {:induction false} NumeralLength(n: nat, w: nat)
    requires w == 0 || n >= Pow10(w)
    ensures |NatToDigits(n)| >= w
  {
    if w > 1 {
      NumeralLength(n / 10, w - 1);
    }
  }
}
