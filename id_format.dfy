/** The sensor and slot identifiers of the fleet, `IOT-{k:03d}` and
    `lot-{k:03d}`: a number written in decimal and left-padded with zeros to
    at least three digits. Reading the digits back recovers the number, so
    distinct numbers give distinct identifiers. */
module IdFormat {

  predicate IsDigit(c: char) {
    '0' <= c <= '9'
  }

  predicate AllDigits(s: string) {
    forall i | 0 <= i < |s| :: IsDigit(s[i])
  }

  function DigitChar(d: nat): (c: char)
    requires d < 10
    ensures IsDigit(c) && c as int - '0' as int == d
  {
    ('0' as int + d) as char
  }

  /** Decimal digits of `n`, most significant first, without leading zeros. */
  function Digits(n: nat): (s: string)
    ensures 1 <= |s| && AllDigits(s)
    ensures |s| > 1 ==> s[0] != '0'
    decreases n
  {
    if n < 10 then [DigitChar(n)] else Digits(n / 10) + [DigitChar(n % 10)]
  }

  function Zeros(k: nat): (s: string)
    ensures |s| == k && AllDigits(s)
  {
    seq(k, _ => '0')
  }

  /** Python's `f"{n:03d}"` for a non-negative `n`. */
  function Pad3(n: nat): (s: string)
    ensures 3 <= |s| && AllDigits(s)
    ensures |s| > 3 ==> s[0] != '0'
  {
    var d := Digits(n);
    if |d| >= 3 then d else Zeros(3 - |d|) + d
  }

  /** Below 1000 the padded form is exactly three characters wide. */
  lemma Pad3Width(n: nat)
    requires n < 1000
    ensures |Pad3(n)| == 3
  {
    assert |Digits(n / 100)| == 1;
    assert |Digits(n / 10)| <= 2;
  }

  /** The number a string of decimal digits denotes; leading zeros are allowed. */
  function ValueOf(s: string): nat
    requires AllDigits(s)
  {
    if s == [] then 0 else 10 * ValueOf(s[..|s| - 1]) + (s[|s| - 1] as int - '0' as int)
  }

  lemma {:induction false} ValueOfDigits(n: nat)
    ensures ValueOf(Digits(n)) == n
    decreases n
  {
    if n >= 10 {
      var d := Digits(n);
      assert d[..|d| - 1] == Digits(n / 10);
      ValueOfDigits(n / 10);
    }
  }

  lemma {:induction false} ValueOfZeros(k: nat)
    ensures ValueOf(Zeros(k)) == 0
  {
    if k > 0 {
      assert Zeros(k)[..k - 1] == Zeros(k - 1);
      ValueOfZeros(k - 1);
    }
  }

  lemma {:induction false} ValueOfLeadingZeros(k: nat, s: string)
    requires AllDigits(s)
    ensures ValueOf(Zeros(k) + s) == ValueOf(s)
  {
    if s == [] {
      assert Zeros(k) + s == Zeros(k);
      ValueOfZeros(k);
    } else {
      var t := Zeros(k) + s;
      assert t[..|t| - 1] == Zeros(k) + s[..|s| - 1];
      ValueOfLeadingZeros(k, s[..|s| - 1]);
    }
  }

  /** Padding never changes the number the digits denote. */
  lemma Pad3RoundTrip(n: nat)
    ensures ValueOf(Pad3(n)) == n
  {
    ValueOfDigits(n);
    var d := Digits(n);
    if |d| < 3 {
      ValueOfLeadingZeros(3 - |d|, d);
    }
  }

  /** The identifier of the `k`-th sensor (1-based), `IOT-{k:03d}`. */
  function SensorId(k: nat): string {
    "IOT-" + Pad3(k)
  }

  /** The identifier of the `k`-th parking slot (1-based), `lot-{k:03d}`. */
  function SlotId(k: nat): string {
    "lot-" + Pad3(k)
  }

  lemma SensorIdInjective(a: nat, b: nat)
    ensures SensorId(a) == SensorId(b) <==> a == b
  {
    if SensorId(a) == SensorId(b) {
      assert Pad3(a) == SensorId(a)[4..] == SensorId(b)[4..] == Pad3(b);
      Pad3RoundTrip(a);
      Pad3RoundTrip(b);
    }
  }

  lemma SlotIdInjective(a: nat, b: nat)
    ensures SlotId(a) == SlotId(b) <==> a == b
  {
    if SlotId(a) == SlotId(b) {
      assert Pad3(a) == SlotId(a)[4..] == SlotId(b)[4..] == Pad3(b);
      Pad3RoundTrip(a);
      Pad3RoundTrip(b);
    }
  }

  /** Identifiers never contain a double quote, so they can be embedded in
      the quoted ledger parameter string unambiguously. */
  lemma IdsHaveNoQuote(k: nat)
    ensures '"' !in SensorId(k) && '"' !in SlotId(k)
  {
    var p := Pad3(k);
    assert forall i | 0 <= i < |p| :: p[i] != '"';
    assert SensorId(k) == "IOT-" + p && SlotId(k) == "lot-" + p;
  }
}
