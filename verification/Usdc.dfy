/** Decimal text for token amounts: `usdcAtomic` of src/client.ts and `formatAtomic` of src/api/checkout-model.ts. */
module Usdc {
  import opened Results

  predicate IsDigit(c: char) { '0' <= c <= '9' }

  predicate Digits(s: string) { forall c <- s :: IsDigit(c) }

  type Numeral = s: string | Digits(s)

  /** `BigInt` of a digit string; the empty string is 0. */
  function Value(s: Numeral): nat {
    if s == "" then 0
    else
      assert IsDigit(s[|s| - 1]);
      10 * Value(s[..|s| - 1]) + (s[|s| - 1] as int - '0' as int)
  }

  /** `toString` of a non-negative BigInt. */
  function Decimal(n: nat): (r: Numeral)
    ensures r != "" && (|r| > 1 ==> r[0] != '0')
    ensures n > 0 ==> r[0] != '0'
    ensures Value(r) == n
  {
    var digit := [('0' as int + n % 10) as char];
    if n < 10 then digit
    else
      var r := Decimal(n / 10) + digit;
      assert r[..|r| - 1] == Decimal(n / 10);
      r
  }

  /** The atomic amounts that the API exchanges: no sign, no leading zero, not zero. */
  predicate Canonical(s: string) { Digits(s) && s != "" && s[0] != '0' }

  function Zeros(n: int): (r: Numeral)
    ensures |r| == if n > 0 then n else 0
    ensures forall i | 0 <= i < |r| :: r[i] == '0'
    decreases n
  {
    if n <= 0 then "" else Zeros(n - 1) + "0"
  }

  function PadStart(s: string, n: nat): string { Zeros(n - |s|) + s }
  function PadEnd(s: string, n: nat): string { s + Zeros(n - |s|) }

  function TrimZeros(s: string): (r: string)
    ensures r <= s && (r != "" ==> r[|r| - 1] != '0')
  {
    if s != "" && s[|s| - 1] == '0' then TrimZeros(s[..|s| - 1]) else s
  }

  /** `formatAtomic` */
  function FormatAtomic(value: string, decimals: nat): string {
    var text := PadStart(value, decimals + 1);
    var split := |text| - decimals;
    if decimals == 0 then text
    else text[..split] + "." + PadEnd(TrimZeros(text[split..]), if decimals < 2 then decimals else 2)
  }

  /** The part before the first dot, and the part after it if there is one. */
  function SplitDot(s: string): (r: (string, Option<string>))
    ensures r.1.None? ==> r.0 == s
    ensures r.1.Some? ==> s == r.0 + "." + r.1.value
    ensures '.' !in r.0
  {
    if s == "" then ("", None)
    else if s[0] == '.' then ("", Some(s[1..]))
    else var rest := SplitDot(s[1..]); ([s[0]] + rest.0, rest.1)
  }

  /** The regular expression: 0 or a number without leading zero, then optionally one to six more digits. */
  predicate WellFormed(s: string) {
    var (whole, fraction) := SplitDot(s);
    && Digits(whole) && whole != "" && (|whole| > 1 ==> whole[0] != '0')
    && (fraction.Some? ==> Digits(fraction.value) && 1 <= |fraction.value| <= 6)
  }

  datatype AmountError = NotDecimal | NotPositive

  /** `usdcAtomic` */
  function UsdcAtomic(amount: string): Result<string, AmountError> {
    if !WellFormed(amount) then Thrown(NotDecimal)
    else
      var (whole, fraction) := SplitDot(amount);
      var atomic := Value(whole) * 1_000_000 + Value(PadEnd(if fraction.Some? then fraction.value else "", 6));
      if atomic <= 0 then Thrown(NotPositive) else Ok(Decimal(atomic))
  }

  // ---- Positional notation ----------------------------------------------------------------------

  function Pow10(n: nat): nat { if n == 0 then 1 else 10 * Pow10(n - 1) }

  lemma DigitsConcat(a: string, b: string)
    ensures Digits(a + b) <==> Digits(a) && Digits(b)
  {
    assert forall i | 0 <= i < |a| :: (a + b)[i] == a[i];
    assert forall i | 0 <= i < |b| :: (a + b)[|a| + i] == b[i];
  }

  lemma Shift(x: nat, p: nat, v: nat, d: nat)
    ensures 10 * (x * p + v) + d == x * (10 * p) + (10 * v + d)
  {
  }

  lemma ValueSnoc(s: Numeral, c: char)
    requires IsDigit(c)
    ensures Digits(s + [c]) && Value(s + [c]) == 10 * Value(s) + (c as int - '0' as int)
  {
    DigitsConcat(s, [c]);
    assert (s + [c])[..|s|] == s;
  }

  lemma {:induction false} ValueOfConcat(a: Numeral, b: Numeral)
    ensures Digits(a + b) && Value(a + b) == Value(a) * Pow10(|b|) + Value(b)
  {
    DigitsConcat(a, b);
    if b == "" {
      assert a + b == a;
    } else {
      var c, last := b[..|b| - 1], b[|b| - 1];
      assert b == c + [last] && a + b == (a + c) + [last];
      DigitsConcat(c, [last]);
      assert IsDigit([last][0]);
      hide Value;
      ValueOfConcat(a, c);
      ValueSnoc(a + c, last);
      ValueSnoc(c, last);
      Shift(Value(a), Pow10(|c|), Value(c), last as int - '0' as int);
      assert Pow10(|b|) == 10 * Pow10(|c|);
    }
  }

  lemma {:induction false} ValueOfZeros(s: Numeral)
    requires forall c <- s :: c == '0'
    ensures Value(s) == 0
  {
    if s != "" {
      var init := s[..|s| - 1];
      forall i | 0 <= i < |init| ensures init[i] == '0' { assert s[i] in s; }
      assert s[|s| - 1] in s;
      ValueOfZeros(init);
    }
  }

  lemma {:induction false} PositiveValue(s: string)
    requires Canonical(s)
    ensures Value(s) > 0
  {
    assert IsDigit(s[|s| - 1]);
    if |s| > 1 {
      assert forall c <- s[..|s| - 1] :: c in s;
      PositiveValue(s[..|s| - 1]);
    }
  }

  /** A number has one numeral without leading zeros. */
  lemma {:induction false} DecimalOfValue(s: string)
    requires Canonical(s)
    ensures Decimal(Value(s)) == s
  {
    var last := |s| - 1;
    assert s == s[..last] + [s[last]];
    assert IsDigit(s[last]);
    if last > 0 {
      PositiveValue(s[..last]);
      DecimalOfValue(s[..last]);
      assert Value(s) / 10 == Value(s[..last]);
    } else {
      assert s[..last] == "";
    }
  }

  lemma {:induction false} TrimmedTail(s: string)
    ensures s == TrimZeros(s) + Zeros(|s| - |TrimZeros(s)|)
  {
    if s != "" && s[|s| - 1] == '0' {
      var init := s[..|s| - 1];
      TrimmedTail(init);
      assert s == init + "0";
      assert Zeros(|init| - |TrimZeros(s)|) + "0" == Zeros(|s| - |TrimZeros(s)|);
    } else {
      assert s + Zeros(0) == s;
    }
  }

  lemma {:induction false} SplitAtDot(whole: string, fraction: string)
    requires '.' !in whole
    ensures SplitDot(whole + "." + fraction) == (whole, Some(fraction))
  {
    var s := whole + "." + fraction;
    if whole == "" {
      assert s[1..] == fraction;
    } else {
      assert s[1..] == whole[1..] + "." + fraction;
      assert whole[0] in whole && forall c <- whole[1..] :: c in whole;
      SplitAtDot(whole[1..], fraction);
      assert [whole[0]] + whole[1..] == whole;
    }
  }

  // ---- Round trips ------------------------------------------------------------------------------

  /** Trimming zeros and then padding again restores six digits. */
  lemma TrimThenPad(fraction: Numeral) returns (printed: string)
    requires |fraction| == 6
    ensures printed == PadEnd(TrimZeros(fraction), 2)
    ensures Digits(printed) && 2 <= |printed| <= 6 && PadEnd(printed, 6) == fraction
    ensures |printed| > 2 ==> printed[|printed| - 1] != '0'
  {
    hide TrimZeros, Digits, Zeros;
    var trimmed := TrimZeros(fraction);
    TrimmedTail(fraction);
    DigitsConcat(trimmed, Zeros(6 - |trimmed|));
    DigitsConcat(trimmed, Zeros(2 - |trimmed|));
    printed := trimmed + Zeros(2 - |trimmed|);
    ZerosAdd(2 - |trimmed|, 6 - |printed|);
    assert printed + Zeros(6 - |printed|) == trimmed + (Zeros(2 - |trimmed|) + Zeros(6 - |printed|));
  }

  lemma ZerosAdd(a: int, b: int)
    ensures Zeros(a) + Zeros(b) == Zeros((if a > 0 then a else 0) + if b > 0 then b else 0)
  {
    hide Zeros;
  }

  /** The part before the dot is a numeral without leading zeros. */
  lemma WholePart(v: string)
    requires Canonical(v)
    ensures var text := PadStart(v, 7);
            && |text| >= 7 && Digits(text)
            && var whole := text[..|text| - 6];
               Digits(whole) && whole != "" && (|whole| > 1 ==> whole[0] != '0')
  {
    var text := PadStart(v, 7);
    var whole := text[..|text| - 6];
    assert forall i | 0 <= i < |text| :: IsDigit(text[i]);
    assert forall i | 0 <= i < |whole| :: whole[i] == text[i];
    if |v| > 6 { assert text == v; }
  }

  /** The two parts that `FormatAtomic` prints with six decimals. */
  lemma FormatParts(v: string) returns (whole: string, fraction: string, printed: string)
    requires Canonical(v)
    ensures FormatAtomic(v, 6) == whole + "." + printed
    ensures whole + fraction == PadStart(v, 7) && |fraction| == 6
    ensures Digits(whole) && whole != "" && (|whole| > 1 ==> whole[0] != '0')
    ensures Digits(fraction) && Digits(printed) && 2 <= |printed| <= 6
    ensures PadEnd(printed, 6) == fraction && (|printed| > 2 ==> printed[|printed| - 1] != '0')
  {
    hide Zeros, TrimZeros;
    var text := PadStart(v, 7);
    WholePart(v);
    hide PadStart;
    whole, fraction := text[..|text| - 6], text[|text| - 6..];
    assert forall i | 0 <= i < 6 :: fraction[i] == text[|text| - 6 + i];
    hide PadEnd;
    printed := TrimThenPad(fraction);
  }

  /** Printing an atomic amount with six decimals and parsing it again gives the same text, at any length. */
  lemma FormatThenParse(v: string)
    requires Canonical(v)
    ensures UsdcAtomic(FormatAtomic(v, 6)) == Ok(v)
  {
    hide Value, Pow10, Zeros, FormatAtomic, TrimZeros, SplitDot, Decimal;
    var whole, fraction, printed := FormatParts(v);
    assert '.' !in whole;
    SplitAtDot(whole, printed);
    ValueOfConcat(whole, fraction);
    var zeros := Zeros(7 - |v|);
    ValueOfConcat(zeros, v);
    ValueOfZeros(zeros);
    PowSix(6);
    PositiveValue(v);
    DecimalOfValue(v);
  }

  /** The atomic amount before printing. */
  lemma AtomicValue(whole: Numeral, digits: Numeral)
    requires |digits| <= 6
    ensures var atomic := Value(whole) * 1_000_000 + Value(PadEnd(digits, 6));
            && atomic * Pow10(|digits|) == Value(whole + digits) * 1_000_000
            && (atomic > 0 <==> (exists c <- whole :: c != '0') || exists c <- digits :: c != '0')
  {
    hide Value, Pow10, Zeros, Digits;
    var zeros := Zeros(6 - |digits|);
    var p, q := Pow10(|digits|), Pow10(6 - |digits|);
    ValueOfConcat(whole, digits);
    ValueOfConcat(digits, zeros);
    ValueOfZeros(zeros);
    PowSix(|digits|);
    PowPositive(6 - |digits|);
    ZeroOrNot(whole);
    ZeroOrNot(digits);
    Scale(Value(whole), Value(digits), p, q);
    ProductPositive(Value(digits), q);
  }

  lemma ProductPositive(x: nat, q: nat)
    requires q > 0
    ensures x * q > 0 <==> x > 0
    ensures x * q >= 0
  {
  }

  lemma {:induction false} PowPositive(n: nat)
    ensures Pow10(n) > 0
  {
    if n > 0 { PowPositive(n - 1); }
  }

  lemma SameDigits(amount: string, whole: Numeral, fraction: Option<Numeral>)
    requires amount == if fraction.Some? then whole + "." + fraction.value else whole
    ensures var digits := if fraction.Some? then fraction.value else "";
            (exists c <- amount :: c != '0' && c != '.') <==>
                (exists c <- whole :: c != '0') || exists c <- digits :: c != '0'
  {
    var digits := if fraction.Some? then fraction.value else "";
    assert forall c <- whole :: c in amount && c != '.';
    assert forall c <- digits :: c in amount && c != '.';
    assert forall c <- amount :: c in whole || c in digits || c == '.';
  }

  /** A canonical amount is printed as a number without leading zeros and at least two decimals, without zeros at the
      end beyond those, and is worth as much in millionths. */
  lemma FormattedAmount(v: string) returns (whole: string, decimals: string)
    requires Canonical(v)
    ensures FormatAtomic(v, 6) == whole + "." + decimals && Digits(whole) && Digits(decimals)
    ensures whole != "" && (|whole| > 1 ==> whole[0] != '0')
    ensures 2 <= |decimals| <= 6 && (|decimals| > 2 ==> decimals[|decimals| - 1] != '0')
    ensures Digits(PadEnd(decimals, 6)) && Value(whole) * 1_000_000 + Value(PadEnd(decimals, 6)) == Value(v)
  {
    hide Value, Pow10, Zeros, FormatAtomic, TrimZeros;
    var fraction;
    whole, fraction, decimals := FormatParts(v);
    ValueOfConcat(whole, fraction);
    var zeros := Zeros(7 - |v|);
    ValueOfConcat(zeros, v);
    ValueOfZeros(zeros);
    PowSix(6);
  }

  /** A decimal number: without a sign or leading zeros, with at most six decimals and no dot without one. */
  ghost predicate Reads(amount: string, whole: string, decimals: Option<string>) {
    && amount == whole + (if decimals.Some? then "." + decimals.value else "")
    && whole != "" && (forall c <- whole :: '0' <= c <= '9') && (whole[0] == '0' ==> whole == "0")
    && (decimals.Some? ==> 1 <= |decimals.value| <= 6 && forall c <- decimals.value :: '0' <= c <= '9')
  }

  lemma WellFormedIff(amount: string)
    ensures WellFormed(amount) <==> exists whole, decimals :: Reads(amount, whole, decimals)
  {
    if WellFormed(amount) {
      var (whole, decimals) := SplitDot(amount);
      assert Reads(amount, whole, decimals) by {
        if decimals.Some? { assert amount == whole + ("." + decimals.value); } else { assert amount == whole + ""; }
      }
    }
    if whole, decimals :| Reads(amount, whole, decimals) {
      hide SplitDot;
      if decimals.Some? {
        assert amount == whole + "." + decimals.value;
        SplitAtDot(whole, decimals.value);
      } else {
        assert amount == whole;
        NoDot(whole);
      }
    }
  }

  lemma {:induction false} NoDot(s: string)
    requires '.' !in s
    ensures SplitDot(s) == (s, None)
  {
    if s != "" {
      assert forall c <- s[1..] :: c in s;
      NoDot(s[1..]);
      assert [s[0]] + s[1..] == s;
    }
  }

  /** What is refused: a text that is no decimal number as not decimal, and zero as not positive. */
  lemma RefusedIff(amount: string)
    ensures UsdcAtomic(amount) == Thrown(NotDecimal) <==> forall whole, decimals :: !Reads(amount, whole, decimals)
    ensures UsdcAtomic(amount) == Thrown(NotPositive)
       <==> (exists whole, decimals :: Reads(amount, whole, decimals)) && forall c <- amount :: c == '0' || c == '.'
  {
    WellFormedIff(amount);
    ParsedExactly(amount);
    hide WellFormed, Reads, Value, Decimal, Zeros, SplitDot;
  }

  /** Parsing accepts exactly the well-formed texts with a digit other than zero, and reads them exactly: the result
      is canonical and nothing is rounded. */
  lemma ParsedExactly(amount: string)
    ensures UsdcAtomic(amount).Ok? <==>
              WellFormed(amount) && exists c <- amount :: c != '0' && c != '.'
    ensures UsdcAtomic(amount).Ok? ==>
              var (whole, fraction) := SplitDot(amount);
              var digits := if fraction.Some? then fraction.value else "";
              && Canonical(UsdcAtomic(amount).value)
              && Value(UsdcAtomic(amount).value) * Pow10(|digits|) == Value(whole + digits) * 1_000_000
  {
    hide Value, Pow10, Zeros, SplitDot, Decimal;
    var (whole, fraction) := SplitDot(amount);
    if WellFormed(amount) {
      var digits := if fraction.Some? then fraction.value else "";
      hide Digits, PadEnd;
      AtomicValue(whole, digits);
      SameDigits(amount, whole, fraction);
      var atomic := Value(whole) * 1_000_000 + Value(PadEnd(digits, 6));
      if atomic > 0 { assert Canonical(Decimal(atomic)) && Value(Decimal(atomic)) == atomic; }
    }
  }

  lemma PowSix(n: nat)
    requires n <= 6
    ensures Pow10(n) * Pow10(6 - n) == 1_000_000
    ensures Pow10(6) == 1_000_000
  {
    assert Pow10(1) == 10 && Pow10(2) == 100 && Pow10(3) == 1000;
    assert Pow10(4) == 10 * Pow10(3) && Pow10(5) == 10 * Pow10(4) && Pow10(6) == 10 * Pow10(5);
  }

  lemma Scale(whole: nat, digits: nat, p: nat, q: nat)
    requires p * q == 1_000_000
    ensures (whole * 1_000_000 + digits * q) * p == (whole * p + digits) * 1_000_000
  {
    calc {
      (whole * 1_000_000 + digits * q) * p;
      whole * 1_000_000 * p + digits * (q * p);
      (whole * p + digits) * 1_000_000;
    }
  }

  lemma {:induction false} ZeroOrNot(s: Numeral)
    ensures Value(s) > 0 <==> exists c <- s :: c != '0'
  {
    if s != "" {
      var last := |s| - 1;
      ZeroOrNot(s[..last]);
      assert IsDigit(s[last]);
      if s[last] != '0' {
        assert s[last] in s;
      } else {
        assert forall c <- s | c != '0' :: c in s[..last];
        assert forall c <- s[..last] :: c in s;
      }
    }
  }
}
