/** Which field types may be read into which buffers, and what promotion means for the values. */
module FieldCompatibility {

  datatype FieldType =
    | Tiny | Short | Int24 | Long | LongLong | Float | Double
    | Decimal | NewDecimal | Time | Date | Datetime | Timestamp | Year
    | String | VarString | Enum | Set | Bit
    | Blob | TinyBlob | MediumBlob | LongBlob | Geometry | Null

  datatype Mode = Disabled | Strict | Same | ArithmeticPromotions | ArithmeticConversions

  /** Types with the same internal representation have the same number. */
  function GetSameTypeId(t: FieldType): nat {
    match t
    case Short | Year => 0
    case Int24 | Long => 1
    case Datetime | Timestamp => 2
    case Enum => 3
    case Set => 4
    case TinyBlob | MediumBlob | LongBlob | Blob | VarString | String => 5
    case Geometry => 11
    case Decimal => 12
    case Tiny => 13
    case LongLong => 14
    case Float => 15
    case Double => 16
    case NewDecimal => 17
    case Time => 18
    case Date => 19
    case Bit => 20
    case Null => 21
  }

  predicate FieldTypeHasSign(t: FieldType) {
    match t
    case Tiny | Short | Int24 | Long | LongLong => true
    case _ => false
  }

  predicate FieldSignsMatch(from: FieldType, fromUnsigned: bool, to: FieldType, toUnsigned: bool) {
    fromUnsigned == toUnsigned || !(FieldTypeHasSign(from) || FieldTypeHasSign(to))
  }

  predicate IsStrict(from: FieldType, fromUnsigned: bool, to: FieldType, toUnsigned: bool) {
    from == to && FieldSignsMatch(from, fromUnsigned, to, toUnsigned)
  }

  predicate IsSame(from: FieldType, fromUnsigned: bool, to: FieldType, toUnsigned: bool) {
    if !FieldSignsMatch(from, fromUnsigned, to, toUnsigned) then false
    else if from == to then true
    else GetSameTypeId(from) == GetSameTypeId(to)
  }

  predicate IsPromotion(from: FieldType, fromUnsigned: bool, to: FieldType, toUnsigned: bool) {
    if !fromUnsigned && toUnsigned && FieldTypeHasSign(from) && FieldTypeHasSign(to) then false
    else
      match from
      case Tiny =>
        (match to
         case Tiny => fromUnsigned == toUnsigned
         case Short | Int24 | Long | LongLong | Float | Double => true
         case _ => false)
      case Short =>
        (match to
         case Short => fromUnsigned == toUnsigned
         case Int24 | Long | LongLong | Float | Double => true
         case _ => false)
      case Int24 | Long =>
        (match to
         case Int24 | Long => fromUnsigned == toUnsigned
         case LongLong | Double => true
         case _ => false)
      case LongLong =>
        (match to
         case LongLong => fromUnsigned == toUnsigned
         case _ => false)
      case Float =>
        (match to
         case Float | Double => true
         case _ => false)
      case Double =>
        (match to
         case Double => true
         case _ => false)
      case _ => IsSame(from, fromUnsigned, to, toUnsigned)
  }

  predicate IsNumeric(t: FieldType) {
    match t
    case Tiny | Short | Int24 | Long | LongLong | Float | Double => true
    case _ => false
  }

  predicate IsConversion(from: FieldType, fromUnsigned: bool, to: FieldType, toUnsigned: bool) {
    match from
    case Tiny | Short | Int24 | Long | LongLong | Float | Double => IsNumeric(to)
    case _ => IsSame(from, fromUnsigned, to, toUnsigned)
  }

  predicate IsCompatible(mode: Mode, from: FieldType, fromUnsigned: bool, to: FieldType, toUnsigned: bool) {
    match mode
    case Disabled => true
    case Strict => IsStrict(from, fromUnsigned, to, toUnsigned)
    case Same => IsSame(from, fromUnsigned, to, toUnsigned)
    case ArithmeticPromotions => IsPromotion(from, fromUnsigned, to, toUnsigned)
    case ArithmeticConversions => IsConversion(from, fromUnsigned, to, toUnsigned)
  }

  // ---- what promotion means ----

  function Pow2(n: nat): (p: int)
    ensures p > 0
  {
    if n == 0 then 1 else 2 * Pow2(n - 1)
  }

  /** Bits of the client's buffer for an integer type; medium integers are kept in 32 bits. */
  function Bits(t: FieldType): nat
    requires FieldTypeHasSign(t)
  {
    match t
    case Tiny => 8
    case Short => 16
    case Int24 => 32
    case Long => 32
    case LongLong => 64
  }

  /** Half the number of values of an integer type. */
  function Half(t: FieldType): (h: int)
    requires FieldTypeHasSign(t)
    ensures h > 0
  {
    match t
    case Tiny => 0x80
    case Short => 0x8000
    case Int24 => 0x8000_0000
    case Long => 0x8000_0000
    case LongLong => 0x8000_0000_0000_0000
  }

  lemma HalfIsPower(t: FieldType)
    requires FieldTypeHasSign(t)
    ensures 2 * Half(t) == Pow2(Bits(t))
  {
    Powers();
  }

  predicate Scaled(x: int, p: nat, m: int, e: nat) {
    -Pow2(p) < m < Pow2(p) && x == m * Pow2(e)
  }

  /** A whole number that is a significand of at most `p` bits times a power of two. */
  ghost predicate Representable(x: int, p: nat) {
    exists m: int, e: nat :: Scaled(x, p, m, e)
  }

  /** The whole numbers that a buffer of a numeric type holds exactly; exponents are not bounded. */
  ghost predicate CanHold(t: FieldType, isUnsigned: bool, x: int)
    requires IsNumeric(t)
  {
    match t
    case Float => Representable(x, 24)
    case Double => Representable(x, 53)
    case _ =>
      if isUnsigned then 0 <= x < 2 * Half(t) else -Half(t) <= x < Half(t)
  }

  lemma {:induction false} Pow2Sum(a: nat, b: nat)
    ensures Pow2(a + b) == Pow2(a) * Pow2(b)
  {
    if a > 0 {
      Pow2Sum(a - 1, b);
    }
  }

  lemma Powers()
    ensures Pow2(7) == 0x80 && Pow2(8) == 0x100 && Pow2(15) == 0x8000 && Pow2(16) == 0x1_0000
    ensures Pow2(24) == 0x100_0000 && Pow2(31) == 0x8000_0000 && Pow2(32) == 0x1_0000_0000
    ensures Pow2(53) == 0x20_0000_0000_0000 && Pow2(63) == 0x8000_0000_0000_0000 && Pow2(64) == 0x1_0000_0000_0000_0000
  {
    assert Pow2(21) == 0x20_0000 && Pow2(31) == 0x8000_0000 && Pow2(32) == 0x1_0000_0000;
    Pow2Sum(32, 21);
    Pow2Sum(32, 31);
    Pow2Sum(32, 32);
  }

  lemma SmallIsRepresentable(x: int, p: nat)
    requires -Pow2(p) < x < Pow2(p)
    ensures Representable(x, p)
  {
    assert Pow2(0) == 1;
    assert Scaled(x, p, x, 0);
  }

  lemma PowerIsRepresentable(n: nat, p: nat)
    requires p > 0
    ensures Representable(Pow2(n), p)
  {
    assert Pow2(p) == 2 * Pow2(p - 1);
    assert Scaled(Pow2(n), p, 1, n);
  }

  /** An odd number needs all its bits. */
  lemma OddIsNotRepresentable(x: int, p: nat)
    requires x % 2 == 1 && x >= Pow2(p)
    ensures !Representable(x, p)
  {
    forall m: int, e: nat | Scaled(x, p, m, e) ensures x == m {
      ScaledIsEven(x, p, m, e);
    }
  }

  lemma ScaledIsEven(x: int, p: nat, m: int, e: nat)
    requires Scaled(x, p, m, e)
    ensures x == m || x % 2 == 0
  {
    if e == 0 {
      assert Pow2(0) == 1;
    } else {
      Twice(m, Pow2(e - 1));
    }
  }

  lemma Twice(m: int, k: int)
    ensures m * (2 * k) == 2 * (m * k)
  {
  }

  lemma WiderSignificand(x: int, p: nat, q: nat)
    requires p <= q && Representable(x, p)
    ensures Representable(x, q)
  {
    var m: int, e: nat :| Scaled(x, p, m, e);
    Pow2Mono(p, q);
    assert Scaled(x, q, m, e);
  }

  lemma {:induction false} Pow2Mono(a: nat, b: nat)
    requires a <= b
    ensures Pow2(a) <= Pow2(b)
  {
    if a < b {
      Pow2Mono(a, b - 1);
    }
  }

  /** A number the first type holds and the second does not. */
  function Witness(from: FieldType, fromUnsigned: bool, to: FieldType, toUnsigned: bool): int
    requires IsNumeric(from) && IsNumeric(to)
  {
    if to.Float? then Pow2(24) + 1
    else if to.Double? then Pow2(53) + 1
    else if from.Float? || from.Double? then Pow2(64)
    else if !fromUnsigned && toUnsigned then -1
    else if fromUnsigned then 2 * Half(from) - 1
    else Half(from) - 1
  }

  lemma PromotionHolds(from: FieldType, fromUnsigned: bool, to: FieldType, toUnsigned: bool, x: int)
    requires IsNumeric(from) && IsNumeric(to) && IsPromotion(from, fromUnsigned, to, toUnsigned)
    requires CanHold(from, fromUnsigned, x)
    ensures CanHold(to, toUnsigned, x)
  {
    Powers();
    if from.Float? {
      WiderSignificand(x, 24, 53);
    } else if to.Float? {
      SmallIsRepresentable(x, 24);
    } else if to.Double? && !from.Double? {
      SmallIsRepresentable(x, 53);
    }
  }

  /** The witness is held by the first type and not by the second. */
  ghost predicate Loses(from: FieldType, fromUnsigned: bool, to: FieldType, toUnsigned: bool)
    requires IsNumeric(from) && IsNumeric(to)
  {
    var x := Witness(from, fromUnsigned, to, toUnsigned);
    CanHold(from, fromUnsigned, x) && !CanHold(to, toUnsigned, x)
  }

  lemma FloatLoses(from: FieldType, fromUnsigned: bool, toUnsigned: bool)
    requires IsNumeric(from) && !IsPromotion(from, fromUnsigned, Float, toUnsigned)
    ensures Loses(from, fromUnsigned, Float, toUnsigned)
  {
    Powers();
    OddIsNotRepresentable(Pow2(24) + 1, 24);
    SmallIsRepresentable(Pow2(24) + 1, 53);
  }

  lemma DoubleLoses(from: FieldType, fromUnsigned: bool, toUnsigned: bool)
    requires IsNumeric(from) && !IsPromotion(from, fromUnsigned, Double, toUnsigned)
    ensures Loses(from, fromUnsigned, Double, toUnsigned)
  {
    Powers();
    OddIsNotRepresentable(Pow2(53) + 1, 53);
  }

  lemma HalfIsSmall(t: FieldType)
    requires FieldTypeHasSign(t)
    ensures 2 * Half(t) <= Pow2(64)
  {
    Powers();
  }

  lemma FloatsAreLarge(from: FieldType, fromUnsigned: bool, to: FieldType, toUnsigned: bool)
    requires (from.Float? || from.Double?) && FieldTypeHasSign(to)
    ensures Loses(from, fromUnsigned, to, toUnsigned)
  {
    PowerIsRepresentable(64, if from.Float? then 24 else 53);
    HalfIsSmall(to);
  }

  lemma IntegerLoses(from: FieldType, fromUnsigned: bool, to: FieldType, toUnsigned: bool)
    requires FieldTypeHasSign(from) && FieldTypeHasSign(to) && !IsPromotion(from, fromUnsigned, to, toUnsigned)
    ensures Loses(from, fromUnsigned, to, toUnsigned)
  {
  }

  lemma WitnessShows(from: FieldType, fromUnsigned: bool, to: FieldType, toUnsigned: bool)
    requires IsNumeric(from) && IsNumeric(to) && !IsPromotion(from, fromUnsigned, to, toUnsigned)
    ensures Loses(from, fromUnsigned, to, toUnsigned)
  {
    if to.Float? {
      FloatLoses(from, fromUnsigned, toUnsigned);
    } else if to.Double? {
      DoubleLoses(from, fromUnsigned, toUnsigned);
    } else if from.Float? || from.Double? {
      FloatsAreLarge(from, fromUnsigned, to, toUnsigned);
    } else {
      IntegerLoses(from, fromUnsigned, to, toUnsigned);
    }
  }

  /** Between numeric types, a promotion is allowed exactly when no value can be lost. */
  lemma PromotionMeaning(from: FieldType, fromUnsigned: bool, to: FieldType, toUnsigned: bool)
    requires IsNumeric(from) && IsNumeric(to)
    ensures IsPromotion(from, fromUnsigned, to, toUnsigned)
       <==> forall x :: CanHold(from, fromUnsigned, x) ==> CanHold(to, toUnsigned, x)
  {
    if IsPromotion(from, fromUnsigned, to, toUnsigned) {
      forall x | CanHold(from, fromUnsigned, x)
        ensures CanHold(to, toUnsigned, x)
      {
        PromotionHolds(from, fromUnsigned, to, toUnsigned, x);
      }
    } else {
      WitnessShows(from, fromUnsigned, to, toUnsigned);
    }
  }

  // ---- how the modes relate ----

  /** The modes in the order of their documentation, from the narrowest to the one that checks nothing. */
  function Laxness(mode: Mode): nat {
    match mode
    case Strict => 0
    case Same => 1
    case ArithmeticPromotions => 2
    case ArithmeticConversions => 3
    case Disabled => 4
  }

  lemma StrictNests(from: FieldType, fromUnsigned: bool, to: FieldType, toUnsigned: bool)
    requires IsStrict(from, fromUnsigned, to, toUnsigned)
    ensures IsSame(from, fromUnsigned, to, toUnsigned) && !(from.Short? && to.Year?)
  {
  }

  lemma SameNests(from: FieldType, fromUnsigned: bool, to: FieldType, toUnsigned: bool)
    requires IsSame(from, fromUnsigned, to, toUnsigned)
    ensures IsPromotion(from, fromUnsigned, to, toUnsigned) <==> !(from.Short? && to.Year?)
    ensures IsConversion(from, fromUnsigned, to, toUnsigned) <==> !(from.Short? && to.Year?)
  {
  }

  lemma PromotionNests(from: FieldType, fromUnsigned: bool, to: FieldType, toUnsigned: bool)
    requires IsPromotion(from, fromUnsigned, to, toUnsigned)
    ensures IsConversion(from, fromUnsigned, to, toUnsigned)
  {
  }

  /** A laxer mode accepts what a stricter one accepts, with one exception: years share the
      representation of short integers, but short integers are neither promoted nor converted to years. */
  lemma ModesNest(strict: Mode, lax: Mode, from: FieldType, fromUnsigned: bool, to: FieldType, toUnsigned: bool)
    requires Laxness(strict) <= Laxness(lax) && IsCompatible(strict, from, fromUnsigned, to, toUnsigned)
    ensures IsCompatible(lax, from, fromUnsigned, to, toUnsigned)
       <==> !(strict.Same? && (lax.ArithmeticPromotions? || lax.ArithmeticConversions?) && from.Short? && to.Year?)
  {
    match strict
    case Strict =>
      StrictNests(from, fromUnsigned, to, toUnsigned);
      SameNests(from, fromUnsigned, to, toUnsigned);
    case Same => SameNests(from, fromUnsigned, to, toUnsigned);
    case ArithmeticPromotions => PromotionNests(from, fromUnsigned, to, toUnsigned);
    case _ =>
  }
}
