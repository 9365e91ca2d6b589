/** The string operations the panels use: `replace(/\D/g, '')`, `trim`, `padStart`, number
    rendering with `toString` and `toFixed`, and the decimal reading that inverts them. */
module Text {
  import Lists

  predicate IsDigit(c: char) { '0' <= c <= '9' }

  predicate AllDigits(s: string) { forall i :: 0 <= i < |s| ==> IsDigit(s[i]) }

  /** JavaScript's `trim` whitespace, restricted to the characters an input field can hold here. */
  predicate IsSpace(c: char) { c == ' ' || c == '\t' || c == '\n' || c == '\r' }

  function StartsWith(s: string, prefix: string): bool
  {
    |prefix| <= |s| && s[..|prefix|] == prefix
  }

  /** `s.replace(/\D/g, '')`: the digits of `s`, in order. */
  function Digits(s: string): (r: string)
    ensures AllDigits(r)
    ensures |r| <= |s|
    ensures AllDigits(s) ==> r == s
  {
    if s == [] then ""
    else if IsDigit(s[0]) then [s[0]] + Digits(s[1..])
    else Digits(s[1..])
  }

  /** Exactly the non-digits are dropped: every digit keeps all its occurrences, no other
      character survives, and the digits keep their order. */
  lemma {:induction false} DigitsSpec(s: string)
    ensures forall c :: multiset(Digits(s))[c] == if IsDigit(c) then multiset(s)[c] else 0
    ensures Lists.IsSubsequence(Digits(s), s)
  {
    if s != [] {
      DigitsSpec(s[1..]);
      assert s == [s[0]] + s[1..];
      Lists.SubsequenceCons(Digits(s[1..]), s[0], s[1..]);
    }
  }

  /** Removing non-digits commutes with concatenation. */
  lemma {:induction false} DigitsAppend(a: string, b: string)
    ensures Digits(a + b) == Digits(a) + Digits(b)
  {
    if a == [] {
      assert a + b == b;
    } else {
      assert (a + b)[0] == a[0];
      assert (a + b)[1..] == a[1..] + b;
      DigitsAppend(a[1..], b);
    }
  }

  /** `s.trim()`: leading and trailing whitespace removed. */
  function Trim(s: string): (r: string)
    ensures |r| <= |s|
    ensures r != [] ==> !IsSpace(r[0]) && !IsSpace(r[|r| - 1])
    ensures exists i :: (0 <= i <= |s| - |r| && r == s[i..][..|r|]
      && (forall k :: 0 <= k < i ==> IsSpace(s[k]))
      && (forall k :: |r| <= k < |s| - i ==> IsSpace(s[i..][k])))
  {
    var t := TrimStart(s);
    var r := TrimEnd(t);
    var i := |s| - |t|;
    assert s[i..] == t;
    r
  }

  function TrimStart(s: string): (r: string)
    ensures |r| <= |s| && (r != [] ==> !IsSpace(r[0]))
    ensures r == s[|s| - |r|..]
    ensures forall k :: 0 <= k < |s| - |r| ==> IsSpace(s[k])
  {
    if s != [] && IsSpace(s[0]) then TrimStart(s[1..]) else s
  }

  function TrimEnd(s: string): (r: string)
    ensures |r| <= |s| && (r != [] ==> !IsSpace(r[|r| - 1]))
    ensures r == s[..|r|]
    ensures forall k :: |r| <= k < |s| ==> IsSpace(s[k])
  {
    if s != [] && IsSpace(s[|s| - 1]) then TrimEnd(s[..|s| - 1]) else s
  }

  /** A string with no whitespace at either end is its own trim. */
  lemma TrimNoSpace(s: string)
    requires s == [] || (!IsSpace(s[0]) && !IsSpace(s[|s| - 1]))
    ensures Trim(s) == s
  {
  }

  function DigitChar(d: nat): (c: char)
    requires d < 10
    ensures IsDigit(c)
  {
    ('0' as int + d) as char
  }

  function DigitValue(c: char): nat
    requires IsDigit(c)
  {
    c as int - '0' as int
  }

  /** `n.toString()` for a non-negative integer: its shortest decimal numeral. */
  function DecimalString(n: nat): (r: string)
    ensures |r| >= 1 && AllDigits(r)
    ensures |r| == 1 || r[0] != '0'
    decreases n
  {
    if n < 10 then [DigitChar(n)] else DecimalString(n / 10) + [DigitChar(n % 10)]
  }

  /** The number a string of decimal digits denotes (leading zeros allowed). */
  function DecimalValue(s: string): nat
    requires AllDigits(s)
  {
    if s == [] then 0 else DecimalValue(s[..|s| - 1]) * 10 + DigitValue(s[|s| - 1])
  }

  /** Reading back a rendered number gives the number. */
  lemma {:induction false} DecimalRoundTrip(n: nat)
    ensures DecimalValue(DecimalString(n)) == n
    decreases n
  {
    var s := DecimalString(n);
    if n >= 10 {
      DecimalRoundTrip(n / 10);
      assert s[..|s| - 1] == DecimalString(n / 10);
    }
  }

  /** `s.padStart(width, '0')`. */
  function PadZeros(s: string, width: nat): (r: string)
    ensures |r| == if |s| >= width then |s| else width
    ensures r[|r| - |s|..] == s
    ensures forall i :: 0 <= i < |r| - |s| ==> r[i] == '0'
  {
    if |s| >= width then s else Zeros(width - |s|) + s
  }

  /** Leading zeros do not change the value of a numeral. */
  lemma PadZerosValue(s: string, width: nat)
    requires AllDigits(s)
    ensures AllDigits(PadZeros(s, width))
    ensures DecimalValue(PadZeros(s, width)) == DecimalValue(s)
  {
    if |s| < width {
      ZerosValue(width - |s|, s);
    }
  }

  lemma {:induction false} ZerosValue(k: nat, s: string)
    requires AllDigits(s)
    ensures AllDigits(Zeros(k) + s) && DecimalValue(Zeros(k) + s) == DecimalValue(s)
    decreases k
  {
    if k > 0 {
      ZerosValue(k - 1, s);
      assert Zeros(k) + s == "0" + (Zeros(k - 1) + s);
      LeadingZeroValue(Zeros(k - 1) + s);
    } else {
      assert Zeros(k) + s == s;
    }
  }

  lemma {:induction false} LeadingZeroValue(s: string)
    requires AllDigits(s)
    ensures AllDigits("0" + s) && DecimalValue("0" + s) == DecimalValue(s)
    decreases |s|
  {
    if s != [] {
      var t := "0" + s;
      assert t[..|t| - 1] == "0" + s[..|s| - 1];
      LeadingZeroValue(s[..|s| - 1]);
    }
  }

  function Pow10(k: nat): (r: nat)
    ensures r >= 1
  {
    if k == 0 then 1 else 10 * Pow10(k - 1)
  }

  /** `(units / 10^places).toFixed(places)` for an amount held exactly in minor units. */
  function Fixed(units: nat, places: nat): string
  {
    var p := Pow10(places);
    NatDivision(units, p);
    DecimalString(units / p) + "." + PadZeros(DecimalString(units % p), places)
  }

  lemma NatDivision(n: nat, p: nat)
    requires p >= 1
    ensures n / p >= 0 && 0 <= n % p < p
  {
  }

  /** A run of `places` zeros. */
  function Zeros(places: nat): (r: string)
    ensures |r| == places && forall i :: 0 <= i < places ==> r[i] == '0'
  {
    seq(places, _ => '0')
  }

  /** A two-digit number renders as its tens digit then its units digit. */
  lemma TwoDigits(n: nat)
    requires 10 <= n < 100
    ensures DecimalString(n) == [DigitChar(n / 10), DigitChar(n % 10)]
  {
  }

  /** Dividing an exact multiple gives the multiplier back, with nothing left over. */
  lemma ExactDivision(n: nat, p: nat)
    requires p >= 1
    ensures n * p / p == n && n * p % p == 0
  {
    var q, r := n * p / p, n * p % p;
    assert p * (n - q) == r;
    if n - q >= 1 {
      MultipleAtLeast(p, n - q);
    }
  }

  lemma {:induction false} MultipleAtLeast(p: nat, k: int)
    requires k >= 1
    ensures p * k >= p
    decreases k
  {
    if k > 1 {
      MultipleAtLeast(p, k - 1);
      assert p * k == p * (k - 1) + p;
    }
  }

  /** A whole amount of major units renders as its numeral followed by `places` zeros. */
  lemma FixedWhole(units: nat, n: nat, places: nat)
    requires places >= 1 && units == n * Pow10(places)
    ensures Fixed(units, places) == DecimalString(n) + "." + Zeros(places)
  {
    var p := Pow10(places);
    ExactDivision(n, p);
    assert DecimalString(0) == "0";
    var f := PadZeros("0", places);
    assert f == Zeros(places - 1) + "0";
    assert f == Zeros(places);
  }
}
