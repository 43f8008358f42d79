/** Decimal integers as text: the unrolled positional parser in fixed-width arithmetic, and printing. */
module DecimalText {

  /** A C++ `char` of eight bits. */
  newtype Char = x: int | -128 <= x < 128

  type Text = seq<Char>

  const ZERO: Char := 48
  const MINUS: Char := 45

  datatype Width = W8 | W16 | W32 | W64

  function Modulus(w: Width): (m: nat)
    ensures m > 1
  {
    match w
    case W8 => 0x100
    case W16 => 0x1_0000
    case W32 => 0x1_0000_0000
    case W64 => 0x1_0000_0000_0000_0000
  }

  /** The longest text accepted. */
  function MaxLength(w: Width): nat {
    match w
    case W8 => 3
    case W16 => 5
    case W32 => 10
    case W64 => 20
  }

  predicate IsDigit(c: Char) {
    '0' as int <= c as int <= '9' as int
  }

  function DigitOf(c: Char): int {
    c as int - ZERO as int
  }

  // ---- the parser ----

  datatype Parsed = Value(value: int) | OutOfRange | RuntimeError | Undefined

  /** The unsigned number of a width that a number is converted to. */
  function Wrap(x: int, w: Width): (r: nat)
    ensures r < Modulus(w)
  {
    match w
    case W8 => x % 0x100
    case W16 => x % 0x1_0000
    case W32 => x % 0x1_0000_0000
    case W64 => x % 0x1_0000_0000_0000_0000
  }

  function Pow10(n: nat): nat {
    if n > 0 then 10 * Pow10(n - 1) else 1
  }

  /** One step of the parser for each character of the text. */
  function Accumulate(result: nat, str: Text, w: Width, validate: bool): Parsed
    requires str != []
    decreases |str|
  {
    var weight := Wrap(Pow10(|str| - 1), w);
    if validate && !IsDigit(str[0]) then OutOfRange
    else
      var result' := Wrap(result + DigitOf(str[0]) * weight, w);
      if |str| == 1 then Value(result') else Accumulate(result', str[1..], w, validate)
  }

  function ToUnsigned(str: Text, w: Width, validate: bool): Parsed {
    if 1 <= |str| <= MaxLength(w) then Accumulate(0, str, w, validate) else RuntimeError
  }

  /** Conversion of an unsigned number to the signed type of the same width. */
  function Signed(n: int, w: Width): int {
    var n := Wrap(n, w);
    if n < Modulus(w) / 2 then n else n - Modulus(w)
  }

  /** `result * -1` is computed in `int` for the narrower types and converted back; for the wider
      ones it is undefined if it overflows. */
  function Negated(n: int, w: Width): Parsed {
    if (w.W32? || w.W64?) && n == -(Modulus(w) / 2) then Undefined else Value(Signed(-n, w))
  }

  /** The length of a lone or leading minus sign is taken off before the digits are looked at, and an
      empty text is no number either way. */
  function ToSigned(str: Text, w: Width, validate: bool): Parsed {
    if str != [] && str[0] == MINUS then
      var r := ToUnsigned(str[1..], w, validate);
      if r.Value? then Negated(Signed(r.value, w), w) else r
    else
      var r := ToUnsigned(str, w, validate);
      if r.Value? then Value(Signed(r.value, w)) else r
  }

  // ---- what it computes ----

  /** The number a text of digits stands for, read from the left. Other characters count as what their
      code gives. */
  function Horner(str: Text): int {
    if str == [] then 0 else Horner(str[..|str| - 1]) * 10 + DigitOf(str[|str| - 1])
  }

  function Positional(str: Text): int {
    if str == [] then 0 else DigitOf(str[0]) * Pow10(|str| - 1) + Positional(str[1..])
  }

  lemma {:induction false} PositionalSnoc(str: Text, c: Char)
    ensures Positional(str + [c]) == Positional(str) * 10 + DigitOf(c)
  {
    if str == [] {
      assert (str + [c])[1..] == [];
    } else {
      assert (str + [c])[1..] == str[1..] + [c];
      PositionalSnoc(str[1..], c);
      assert Pow10(|str|) == 10 * Pow10(|str| - 1);
      Distribute(DigitOf(str[0]), Pow10(|str| - 1));
    }
  }

  lemma Distribute(d: int, p: int)
    ensures d * (10 * p) == (d * p) * 10
  {
  }

  lemma {:induction false} PositionalIsHorner(str: Text)
    ensures Positional(str) == Horner(str)
  {
    if str != [] {
      var front, last := str[..|str| - 1], str[|str| - 1];
      assert str == front + [last];
      PositionalIsHorner(front);
      PositionalSnoc(front, last);
    }
  }

  function Quotient(x: int, w: Width): int {
    match w
    case W8 => x / 0x100
    case W16 => x / 0x1_0000
    case W32 => x / 0x1_0000_0000
    case W64 => x / 0x1_0000_0000_0000_0000
  }

  lemma WrapQuotient(x: int, w: Width)
    ensures x == Quotient(x, w) * Modulus(w) + Wrap(x, w)
  {
  }

  lemma Multiple(k: int, w: Width)
    requires k * Modulus(w) < Modulus(w) && 0 < (k + 1) * Modulus(w)
    ensures k == 0
  {
    match w
    case W8 =>
    case W16 =>
    case W32 =>
    case W64 =>
  }

  /** Numbers that differ by a multiple of the modulus are the same in fixed width. */
  lemma WrapSame(x: int, y: int, k: int, w: Width)
    requires x == y + k * Modulus(w)
    ensures Wrap(x, w) == Wrap(y, w)
  {
    WrapQuotient(x, w);
    WrapQuotient(y, w);
    var q, m := Quotient(x, w) - Quotient(y, w) - k, Modulus(w);
    assert q * m == Quotient(x, w) * m - Quotient(y, w) * m - k * m;
    Multiple(q, w);
  }

  lemma WrapSum(x: int, y: int, w: Width)
    ensures Wrap(Wrap(x, w) + y, w) == Wrap(x + y, w)
  {
    WrapQuotient(x, w);
    WrapSame(x + y, Wrap(x, w) + y, Quotient(x, w), w);
  }

  lemma WrapIs(x: int, w: Width)
    ensures Wrap(x, w) == x <==> 0 <= x < Modulus(w)
  {
  }

  lemma {:induction false} WeightFits(n: nat, w: Width)
    requires n < MaxLength(w)
    ensures 0 < Pow10(n) < Modulus(w)
  {
    Powers();
    Pow10Mono(n, MaxLength(w) - 1);
  }

  lemma Powers()
    ensures Pow10(2) == 100 && Pow10(3) == 1_000
    ensures Pow10(4) == 10_000 && Pow10(5) == 100_000
    ensures Pow10(9) == 1_000_000_000 && Pow10(10) == 10_000_000_000
    ensures Pow10(19) == 10_000_000_000_000_000_000 && Pow10(20) == 100_000_000_000_000_000_000
  {
  }

  lemma {:induction false} Pow10Mono(a: nat, b: nat)
    requires a <= b
    ensures 0 < Pow10(a) <= Pow10(b)
  {
    if a < b {
      Pow10Mono(a, b - 1);
    } else if a > 0 {
      Pow10Mono(a - 1, b - 1);
    }
  }

  /** The unrolled parser computes the number modulo the width; with `validate` it instead fails
      exactly when there is a character that is not a digit. */
  lemma {:induction false} AccumulateIsPositional(result: nat, str: Text, w: Width, validate: bool)
    requires 1 <= |str| <= MaxLength(w)
    ensures Accumulate(result, str, w, validate)
         == if validate && exists c | c in str :: !IsDigit(c) then OutOfRange
            else Value(Wrap(result + Positional(str), w))
    decreases |str|
  {
    WeightFits(|str| - 1, w);
    WrapIs(Pow10(|str| - 1), w);
    var next := result + DigitOf(str[0]) * Pow10(|str| - 1);
    assert forall c | c in str :: c == str[0] || c in str[1..];
    if |str| > 1 {
      AccumulateIsPositional(Wrap(next, w), str[1..], w, validate);
      WrapSum(next, Positional(str[1..]), w);
    }
  }

  predicate AllDigits(str: Text) {
    forall k | 0 <= k < |str| :: IsDigit(str[k])
  }

  lemma UnsignedMeaning(str: Text, w: Width, validate: bool)
    ensures ToUnsigned(str, w, validate)
         == if !(1 <= |str| <= MaxLength(w)) then RuntimeError
            else if validate && !AllDigits(str) then OutOfRange
            else Value(Wrap(Horner(str), w))
    ensures 1 <= |str| <= MaxLength(w) && (validate ==> AllDigits(str)) ==>
              (ToUnsigned(str, w, validate) == Value(Horner(str)) <==> 0 <= Horner(str) < Modulus(w))
  {
    if 1 <= |str| <= MaxLength(w) {
      AccumulateIsPositional(0, str, w, validate);
      PositionalIsHorner(str);
      assert AllDigits(str) <==> !exists c | c in str :: !IsDigit(c);
      WrapIs(Horner(str), w);
    }
  }

  predicate Wide(w: Width) {
    w.W32? || w.W64?
  }

  function Half(w: Width): (h: int)
    ensures 0 < h && 2 * h == Modulus(w)
  {
    Modulus(w) / 2
  }

  /** `Signed` is the only number of the signed type that differs by a multiple of the modulus. */
  lemma SignedMeaning(n: int, w: Width)
    ensures -Half(w) <= Signed(n, w) < Half(w) && Wrap(Signed(n, w), w) == Wrap(n, w)
    ensures Signed(n, w) == n <==> -Half(w) <= n < Half(w)
  {
    var k := SignedQuotient(n, w);
    WrapSame(n, Signed(n, w), k, w);
    if -Half(w) <= n < Half(w) {
      Multiple(k, w);
    }
  }

  /** How many times the modulus `Signed` takes away. */
  lemma SignedQuotient(n: int, w: Width) returns (k: int)
    ensures n == Signed(n, w) + k * Modulus(w)
  {
    WrapQuotient(n, w);
    k := Quotient(n, w) + if Wrap(n, w) < Half(w) then 0 else 1;
  }

  lemma NegatedMeaning(n: int, w: Width)
    ensures Negated(Signed(n, w), w) == if Wide(w) && Wrap(n, w) == Half(w) then Undefined else Value(Signed(-n, w))
  {
    WrapOfSigned(n, w);
    assert Signed(n, w) == -Half(w) <==> Wrap(n, w) == Half(w);
  }

  lemma WrapOfSigned(n: int, w: Width)
    ensures Wrap(-Signed(n, w), w) == Wrap(-n, w)
  {
    var k := SignedQuotient(n, w);
    WrapSame(-Signed(n, w), -n, k, w);
  }

  predicate IsNegative(str: Text) {
    str != [] && str[0] == MINUS
  }

  function DigitsOf(str: Text): Text {
    if IsNegative(str) then str[1..] else str
  }

  /** The number a text with an optional minus sign stands for. */
  function Number(str: Text): int {
    if IsNegative(str) then -Horner(str[1..]) else Horner(str)
  }

  /** The least number of a signed type that can be read. */
  function Least(w: Width): int {
    if Wide(w) then -Half(w) + 1 else -Half(w)
  }

  lemma SignedParsing(str: Text, w: Width, validate: bool)
    ensures ToSigned(str, w, validate)
         == if !(1 <= |DigitsOf(str)| <= MaxLength(w)) then RuntimeError
            else if validate && !AllDigits(DigitsOf(str)) then OutOfRange
            else if IsNegative(str) && Wide(w) && Wrap(Number(str), w) == Half(w) then Undefined
            else Value(Signed(Number(str), w))
  {
    var digits := DigitsOf(str);
    UnsignedMeaning(digits, w, validate);
    var h := Horner(digits);
    SignedOfWrap(h, w);
    NegatedMeaning(h, w);
    WrapOfNegative(h, w);
  }

  lemma SignedOfWrap(n: int, w: Width)
    ensures Signed(Wrap(n, w), w) == Signed(n, w)
  {
    WrapIs(Wrap(n, w), w);
  }

  lemma WrapOfNegative(n: int, w: Width)
    ensures Wrap(-n, w) == Half(w) <==> Wrap(n, w) == Half(w)
  {
    HalfOfNegative(n, w);
    HalfOfNegative(-n, w);
  }

  lemma HalfOfNegative(n: int, w: Width)
    ensures Wrap(n, w) == Half(w) ==> Wrap(-n, w) == Half(w)
  {
    if Wrap(n, w) == Half(w) {
      WrapQuotient(n, w);
      WrapSame(-n, Half(w), -Quotient(n, w) - 1, w);
      WrapIs(Half(w), w);
    }
  }

  /** A signed number is read exactly when it is in the range of its type, except that a negative text
      cannot give the least number of the wider types. */
  lemma SignedExactness(str: Text, w: Width, validate: bool)
    requires 1 <= |DigitsOf(str)| <= MaxLength(w) && (validate ==> AllDigits(DigitsOf(str)))
    ensures ToSigned(str, w, validate) == Value(Number(str))
       <==> -Half(w) <= Number(str) < Half(w) && !(IsNegative(str) && Wide(w) && Number(str) == -Half(w))
  {
    SignedParsing(str, w, validate);
    SignedMeaning(Number(str), w);
    WrapOfNegative(Number(str), w);
    if -Half(w) <= Number(str) < Half(w) {
      OnlyTheLeast(Number(str), w);
    }
  }

  lemma OnlyTheLeast(n: int, w: Width)
    requires -Half(w) <= n < Half(w)
    ensures Wrap(n, w) == Half(w) <==> n == -Half(w)
  {
    WrapSame(n + Modulus(w), n, 1, w);
    WrapIs(n, w);
    WrapIs(n + Modulus(w), w);
  }

  // ---- printing ----

  function Digit(n: nat): (c: Char)
    requires n < 10
    ensures IsDigit(c) && DigitOf(c) == n
  {
    (ZERO as int + n) as Char
  }

  function PrintNat(n: nat): Text {
    if n < 10 then [Digit(n)] else PrintNat(n / 10) + [Digit(n % 10)]
  }

  function Print(n: int): Text {
    if n < 0 then [MINUS] + PrintNat(-n) else PrintNat(n)
  }

  lemma HornerSnoc(str: Text, c: Char)
    ensures Horner(str + [c]) == Horner(str) * 10 + DigitOf(c)
  {
    assert (str + [c])[..|str|] == str;
  }

  lemma {:induction false} PrintedDigits(n: nat)
    ensures PrintNat(n) != [] && AllDigits(PrintNat(n)) && Horner(PrintNat(n)) == n
  {
    if n >= 10 {
      PrintedDigits(n / 10);
      HornerSnoc(PrintNat(n / 10), Digit(n % 10));
    } else {
      HornerSnoc([], Digit(n));
    }
  }

  lemma {:induction false} PrintedLength(n: nat, length: nat)
    requires length > 0 && n < Pow10(length)
    ensures |PrintNat(n)| <= length
  {
    if n >= 10 {
      assert Pow10(length) == 10 * Pow10(length - 1);
      PrintedLength(n / 10, length - 1);
    }
  }

  /** No text is longer than its width allows. */
  lemma PrintFits(n: nat, w: Width)
    requires n < Modulus(w)
    ensures 1 <= |PrintNat(n)| <= MaxLength(w)
  {
    PrintedDigits(n);
    Powers();
    PrintedLength(n, MaxLength(w));
  }

  /** Reading what was printed gives every unsigned number back. */
  lemma UnsignedRoundTrip(n: nat, w: Width, validate: bool)
    requires n < Modulus(w)
    ensures ToUnsigned(Print(n), w, validate) == Value(n)
  {
    PrintFits(n, w);
    PrintedDigits(n);
    UnsignedMeaning(PrintNat(n), w, validate);
  }

  /** It gives every signed number back but the least of the wider types. */
  lemma SignedRoundTrip(n: int, w: Width, validate: bool)
    requires -Half(w) <= n < Half(w)
    ensures ToSigned(Print(n), w, validate) == Value(n) <==> n >= Least(w)
    ensures n < Least(w) ==> ToSigned(Print(n), w, validate) == Undefined
  {
    var digits := PrintNat(if n < 0 then -n else n);
    PrintFits(if n < 0 then -n else n, w);
    PrintedDigits(if n < 0 then -n else n);
    assert Print(n) == if n < 0 then [MINUS] + digits else digits;
    assert DigitsOf(Print(n)) == digits && IsNegative(Print(n)) == (n < 0) && Number(Print(n)) == n;
    SignedExactness(Print(n), w, validate);
    SignedParsing(Print(n), w, validate);
    OnlyTheLeast(n, w);
  }

  /** A digit is added to a printed number at its end. */
  lemma PrintNext(n: nat, d: nat)
    requires n > 0 && d < 10
    ensures PrintNat(n * 10 + d) == PrintNat(n) + [Digit(d)]
  {
    assert (n * 10 + d) / 10 == n && (n * 10 + d) % 10 == d;
  }

  lemma DigitBack(c: Char)
    requires IsDigit(c)
    ensures 0 <= DigitOf(c) < 10 && Digit(DigitOf(c)) == c
    ensures DigitOf(c) == 0 <==> c == ZERO
  {
  }

  /** Printing what was read gives back the text, if it has no leading zero. */
  lemma {:induction false} PrintedBack(str: Text)
    requires str != [] && AllDigits(str) && (|str| > 1 ==> str[0] != ZERO)
    ensures Horner(str) >= (if str[0] != ZERO then 1 else 0) && PrintNat(Horner(str)) == str
    decreases |str|
  {
    var front, last := str[..|str| - 1], str[|str| - 1];
    assert str == front + [last] && IsDigit(last);
    HornerSnoc(front, last);
    DigitBack(last);
    if front == [] {
      assert Horner(front) == 0 && str == [last];
    } else {
      assert front[0] == str[0];
      PrintedBack(front);
      PrintNext(Horner(front), DigitOf(last));
    }
  }
}
