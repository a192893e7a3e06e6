/**
 Decimal amounts as strings and as integers of the smallest unit: stroops (seven digits) for USDC,
 cents (two) for lira. `ToUnits` and `FromUnits` are the pairs toStroops/fromStroops and
 toCents/fromCents; `stroopsToAmount` is FromUnits at seven digits.
 */
module Amounts {
  import opened Prelude

  predicate IsDigit(c: char) {
    '0' <= c <= '9'
  }

  predicate AllDigits(s: string) {
    forall i | 0 <= i < |s| :: IsDigit(s[i])
  }

  function Value(c: char): (v: nat)
    requires IsDigit(c)
    ensures v < 10
  {
    c as int - '0' as int
  }

  /** BigInt of a digit string; the empty string is zero. */
  function Nat(s: string): nat
    requires AllDigits(s)
  {
    if s == "" then 0 else 10 * Nat(s[..|s| - 1]) + Value(s[|s| - 1])
  }

  /** The decimal form of a bigint. */
  function Digits(n: nat): (s: string)
    ensures s != "" && AllDigits(s)
  {
    var last := [('0' as int + n % 10) as char];
    if n < 10 then last else Digits(n / 10) + last
  }

  function Zeros(k: nat): (s: string)
    ensures |s| == k && AllDigits(s)
  {
    seq(k, _ => '0')
  }

  function PadStart(s: string, width: nat): string {
    if |s| >= width then s else Zeros(width - |s|) + s
  }

  /** The index of the first dot, or the length. */
  function Dot(s: string): (i: nat)
    ensures i <= |s|
  {
    if s == "" || s[0] == '.' then 0 else 1 + Dot(s[1..])
  }

  function Whole(s: string): string {
    s[..Dot(s)]
  }

  /** What stands between the first dot and the second; nothing when there is no dot. */
  function Frac(s: string): string {
    if Dot(s) == |s| then "" else var rest := s[Dot(s) + 1..]; rest[..Dot(rest)]
  }

  /** The fraction filled with zeros or cut to a number of digits. */
  function Fixed(f: string, digits: nat): (g: string)
    ensures |g| == digits
    ensures AllDigits(f) ==> AllDigits(g)
  {
    (f + Zeros(digits))[..digits]
  }

  /** `scale` is ten to the `digits`. None stands for the SyntaxError BigInt throws on anything but digits. */
  function ToUnits(s: string, digits: nat, scale: nat): Option<nat> {
    if AllDigits(Whole(s)) && AllDigits(Fixed(Frac(s), digits))
        then Some(Nat(Whole(s)) * scale + Nat(Fixed(Frac(s), digits)))
    else None
  }

  function FromUnits(units: nat, digits: nat, scale: nat): string
    requires scale > 0
  {
    Digits(units / scale) + "." + PadStart(Digits(units % scale), digits)
  }

  function ToStroops(s: string): Option<nat> { ToUnits(s, 7, 10_000_000) }

  function FromStroops(x: nat): string { FromUnits(x, 7, 10_000_000) }

  function ToCents(s: string): Option<nat> { ToUnits(s, 2, 100) }

  function FromCents(x: nat): string { FromUnits(x, 2, 100) }

  // --- digits -----------------------------------------------------------------------------------

  lemma {:induction false} NatOfDigits(n: nat)
    ensures Nat(Digits(n)) == n
  {
    var s := Digits(n);
    if n >= 10 {
      assert s[..|s| - 1] == Digits(n / 10);
      NatOfDigits(n / 10);
    }
  }

  lemma {:induction false} NatAfterZeros(k: nat, s: string)
    requires AllDigits(s)
    ensures AllDigits(Zeros(k) + s) && Nat(Zeros(k) + s) == Nat(s)
    decreases k + |s|
  {
    var t := Zeros(k) + s;
    if s != "" {
      assert t[..|t| - 1] == Zeros(k) + s[..|s| - 1];
      NatAfterZeros(k, s[..|s| - 1]);
    } else if k > 0 {
      assert t[..|t| - 1] == Zeros(k - 1) + "";
      NatAfterZeros(k - 1, "");
    }
  }

  lemma {:induction false} DotAt(s: string, n: nat)
    requires n < |s| && AllDigits(s[..n]) && s[n] == '.'
    ensures Dot(s) == n
  {
    if n > 0 {
      assert IsDigit(s[..n][0]);
      assert s[1..][..n - 1] == s[..n][1..];
      DotAt(s[1..], n - 1);
    }
  }

  lemma {:induction false} NoDot(s: string)
    requires AllDigits(s)
    ensures Dot(s) == |s|
  {
    if s != "" {
      assert IsDigit(s[0]);
      NoDot(s[1..]);
    }
  }

  /** An amount as people write it: the dot only when something follows it. */
  function Written(w: string, f: string): string {
    if f == "" then w else w + "." + f
  }

  lemma Parts(w: string, f: string)
    requires AllDigits(w) && AllDigits(f)
    ensures Whole(w + "." + f) == w && Frac(w + "." + f) == f
    ensures Whole(Written(w, f)) == w && Frac(Written(w, f)) == f
  {
    NoDot(w);
    var s := w + "." + f;
    assert s[..|w|] == w && s[|w| + 1..] == f;
    DotAt(s, |w|);
    NoDot(f);
  }

  lemma {:induction false} FirstDot(s: string, rest: string)
    requires forall i | 0 <= i < |s| :: s[i] != '.'
    ensures Dot(s + "." + rest) == |s| && Dot(s) == |s|
    decreases |s|
  {
    if s == "" {
      assert (s + "." + rest)[0] == '.';
    } else {
      FirstDot(s[1..], rest);
      assert (s + "." + rest)[1..] == s[1..] + "." + rest;
    }
  }

  /** What follows a second dot is not read. */
  lemma OnlyTwoPartsAreRead(w: string, f: string, more: string, digits: nat, scale: nat)
    requires forall i | 0 <= i < |w| :: w[i] != '.'
    requires forall i | 0 <= i < |f| :: f[i] != '.'
    ensures ToUnits(w + "." + (f + "." + more), digits, scale) == ToUnits(w + "." + f, digits, scale)
  {
    FirstDot(w, f + "." + more);
    FirstDot(w, f);
    FirstDot(f, more);
    var s, t := w + "." + (f + "." + more), w + "." + f;
    assert s[..|w|] == w && t[..|w|] == w && s[|w| + 1..] == f + "." + more && t[|w| + 1..] == f;
    assert (f + "." + more)[..|f|] == f && f[..|f|] == f;
    assert Whole(s) == w == Whole(t) && Frac(s) == f == Frac(t);
  }

  /** Anything but digits in a part that is read makes no amount. */
  lemma WhenNoAmount(w: string, f: string, digits: nat, scale: nat)
    requires forall i | 0 <= i < |w| :: w[i] != '.'
    requires forall i | 0 <= i < |f| :: f[i] != '.'
    ensures ToUnits(w + "." + f, digits, scale).Some? <==>
            AllDigits(w) && forall i | 0 <= i < |f| && i < digits :: IsDigit(f[i])
  {
    FirstDot(w, f);
    FirstDot(f, "");
    var s := w + "." + f;
    assert s[..|w|] == w && s[|w| + 1..] == f;
    assert Whole(s) == w && Frac(s) == f by { assert f[..|f|] == f; }
    var g := Fixed(f, digits);
    assert forall i | 0 <= i < digits :: g[i] == if i < |f| then f[i] else Zeros(digits)[i - |f|];
    if AllDigits(g) { forall i | 0 <= i < |f| && i < digits ensures IsDigit(f[i]) { assert g[i] == f[i]; } }
  }

  // --- round trip -------------------------------------------------------------------------------

  lemma PaddedFraction(n: nat, digits: nat)
    requires |Digits(n)| <= digits
    ensures var f := PadStart(Digits(n), digits); AllDigits(f) && Nat(f) == n && Fixed(f, digits) == f
  {
    var d := Digits(n);
    assert PadStart(d, digits) == Zeros(digits - |d|) + d;
    NatAfterZeros(digits - |d|, d);
    NatOfDigits(n);
  }

  /** A whole part and a padded fraction read back as what they were printed from. */
  lemma ReadBack(q: nat, r: nat, digits: nat, scale: nat)
    requires |Digits(r)| <= digits
    ensures ToUnits(Digits(q) + "." + PadStart(Digits(r), digits), digits, scale) == Some(q * scale + r)
  {
    PaddedFraction(r, digits);
    NatOfDigits(q);
    Parts(Digits(q), PadStart(Digits(r), digits));
  }

  lemma StroopsRoundTrip(x: nat)
    ensures ToStroops(FromStroops(x)) == Some(x)
  {
    SevenDecimals();
    DigitsLength(x % 10_000_000, 7);
    ReadBack(x / 10_000_000, x % 10_000_000, 7, 10_000_000);
  }

  lemma CentsRoundTrip(x: nat)
    ensures ToCents(FromCents(x)) == Some(x)
  {
    SevenDecimals();
    DigitsLength(x % 100, 2);
    ReadBack(x / 100, x % 100, 2, 100);
  }

  /** A printed amount has exactly its decimals, behind a whole part without leading zeros. */
  lemma PrintedForm(x: nat)
    ensures exists w, f :: FromStroops(x) == w + "." + f && Plain(w) && AllDigits(f) && |f| == 7
    ensures exists w, f :: FromCents(x) == w + "." + f && Plain(w) && AllDigits(f) && |f| == 2
  {
    SevenDecimals();
    DigitsLength(x % 10_000_000, 7);
    DigitsLength(x % 100, 2);
    DigitsArePlain(x / 10_000_000);
    DigitsArePlain(x / 100);
    PaddedFraction(x % 10_000_000, 7);
    PaddedFraction(x % 100, 2);
    var f, g := PadStart(Digits(x % 10_000_000), 7), PadStart(Digits(x % 100), 2);
    assert FromStroops(x) == Digits(x / 10_000_000) + "." + f && |f| == 7;
    assert FromCents(x) == Digits(x / 100) + "." + g && |g| == 2;
  }

  predicate Plain(w: string) {
    w != "" && AllDigits(w) && (w[0] == '0' ==> w == "0")
  }

  lemma {:induction false} DigitsArePlain(n: nat)
    ensures Plain(Digits(n)) && (n > 0 ==> Digits(n)[0] != '0')
  {
    if n >= 10 { DigitsArePlain(n / 10); }
  }

  function Pow10(k: nat): (p: nat)
    ensures p > 0
  {
    if k == 0 then 1 else 10 * Pow10(k - 1)
  }

  lemma SevenDecimals()
    ensures Pow10(2) == 100 && Pow10(7) == 10_000_000
  {
    assert Pow10(2) == 10 * Pow10(1) && Pow10(1) == 10 * Pow10(0);
    assert Pow10(4) == 10 * Pow10(3) && Pow10(3) == 10 * Pow10(2);
    assert Pow10(6) == 10 * Pow10(5) && Pow10(5) == 10 * Pow10(4);
  }

  lemma {:induction false} DigitsLength(n: nat, k: nat)
    requires n < Pow10(k) && k > 0
    ensures |Digits(n)| <= k
  {
    if n >= 10 { DigitsLength(n / 10, k - 1); }
  }

  // --- meaning ----------------------------------------------------------------------------------

  /** The number a fraction part stands for: 0.f */
  ghost function FracValue(f: string): real
    requires AllDigits(f)
  {
    if f == "" then 0.0 else (Value(f[0]) as real + FracValue(f[1..])) / 10.0
  }

  /** The number "w.f" stands for. */
  ghost function Decimal(w: string, f: string): real
    requires AllDigits(w) && AllDigits(f)
  {
    Nat(w) as real + FracValue(f)
  }

  lemma TimesTen(v: nat, p: nat)
    ensures 10 * (v * p) == v * (10 * p)
  {
  }

  lemma {:induction false} NatHead(s: string)
    requires AllDigits(s) && s != ""
    ensures Nat(s) == Value(s[0]) * Pow10(|s| - 1) + Nat(s[1..])
  {
    if |s| > 1 {
      var u := s[..|s| - 1];
      var v, p := Value(s[0]), Pow10(|s| - 2);
      assert u[1..] == s[1..][..|s| - 2] && u[0] == s[0];
      NatHead(u);
      assert Nat(s) == 10 * (v * p + Nat(u[1..])) + Value(s[|s| - 1]);
      assert Nat(s[1..]) == 10 * Nat(u[1..]) + Value(s[|s| - 1]);
      TimesTen(v, p);
    }
  }

  /** `n` is the floor of v * p, and equal to it when `exact`. */
  ghost predicate Floors(n: nat, v: real, p: nat, exact: bool) {
    && n as real <= v * (p as real) < n as real + 1.0
    && (exact ==> n as real == v * (p as real))
  }

  lemma {:induction false} FixedValue(f: string, digits: nat)
    requires AllDigits(f)
    ensures Floors(Nat(Fixed(f, digits)), FracValue(f), Pow10(digits), |f| <= digits)
    decreases digits
  {
    if f == "" {
      assert Fixed(f, digits) == Zeros(digits) + "";
      NatAfterZeros(digits, "");
    } else if digits == 0 {
      FracValueBound(f);
      assert Fixed(f, 0) == "";
    } else {
      FixedHead(f, digits);
      FixedValue(f[1..], digits - 1);
      ScaleStep(FracValue(f[1..]), Value(f[0]), Pow10(digits - 1), Nat(Fixed(f[1..], digits - 1)), |f| <= digits);
    }
  }

  lemma FixedHead(f: string, digits: nat)
    requires AllDigits(f) && f != "" && digits > 0
    ensures Nat(Fixed(f, digits)) == Value(f[0]) * Pow10(digits - 1) + Nat(Fixed(f[1..], digits - 1))
  {
    assert Fixed(f, digits)[1..] == Fixed(f[1..], digits - 1);
    NatHead(Fixed(f, digits));
  }

  lemma ScaleStep(rest: real, c: nat, p: nat, tail: nat, exact: bool)
    requires Floors(tail, rest, p, exact)
    ensures Floors(c * p + tail, (c as real + rest) / 10.0, 10 * p, exact)
  {
    var v := (c as real + rest) / 10.0;
    assert v * ((10 * p) as real) == (c * p) as real + rest * (p as real);
  }

  lemma {:induction false} FracValueBound(f: string)
    requires AllDigits(f)
    ensures 0.0 <= FracValue(f) < 1.0
  {
    if f != "" { FracValueBound(f[1..]); }
  }

  /** Reading a digit string is the floor of its value in stroops, exact when no digit is cut off. */
  lemma ToStroopsIsFloor(w: string, f: string)
    requires AllDigits(w) && AllDigits(f)
    ensures var r := ToStroops(Written(w, f));
            && r.Some? && r.value as real <= Decimal(w, f) * 10_000_000.0 < r.value as real + 1.0
            && (|f| <= 7 ==> r.value as real == Decimal(w, f) * 10_000_000.0)
  {
    Parts(w, f);
    FixedValue(f, 7);
    SevenDecimals();
  }

  /** A withdrawal amount in the form the API accepts: digits, then nothing or one to seven decimals. */
  predicate Accepted(w: string, f: string) {
    AllDigits(w) && AllDigits(f) && w != "" && |f| <= 7
  }

  /**
   The amount typed by the user, the amount in the record, the amount of the bridge plan and the
   amount of the pre-authorized payment are one and the same number of stroops, exactly.
   */
  lemma AmountSurvivesThePipeline(w: string, f: string)
    requires Accepted(w, f)
    ensures var typed := ToStroops(Written(w, f));
            && typed.Some? && typed.value as real == Decimal(w, f) * 10_000_000.0
            && var record := FromStroops(typed.value);
               && ToStroops(record) == typed
               && FromStroops(ToStroops(record).value) == record
  {
    ToStroopsIsFloor(w, f);
    StroopsRoundTrip(ToStroops(Written(w, f)).value);
  }
}
