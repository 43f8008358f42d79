/** Validating the columns of a result against the buffers bound for them. */
module ResultValidation {
  import opened FieldCompatibility
  import opened Wrappers

  /** The type code of a buffer may be none of the field types. */
  datatype Binding = Binding(isBound: bool, fieldType: Option<FieldType>, isUnsigned: bool, hasNullFlag: bool)

  datatype Column = Column(fieldType: FieldType, isUnsigned: bool, isNullable: bool)

  datatype Settings = Settings(validateMode: Mode, warnMode: Mode, ignoreNullable: bool)

  datatype Fault = Unbound | NotAFieldType | Endless | Incompatible | NullableIntoNonNullable

  datatype Warning = TypesDiffer(index: nat) | MayBeNull(index: nat)

  datatype Outcome =
    | Passed
    | Failed(index: nat, fault: Fault)  // with `Endless`, the loop never leaves this index
    | CountMismatch(bindings: nat, columns: nat, excessive: seq<(FieldType, bool)>)
    | ExcessNotAFieldType

  predicate Compatible(mode: Mode, b: Binding, c: Column)
    requires b.fieldType.Some?
  {
    IsCompatible(mode, c.fieldType, c.isUnsigned, b.fieldType.value, b.isUnsigned)
  }

  predicate Misses(mode: Mode, b: Binding, c: Column) {
    b.fieldType.Some? && !Compatible(mode, b, c)
  }

  predicate LosesNull(v: Settings, b: Binding, c: Column) {
    c.isNullable && !b.hasNullFlag && !v.ignoreNullable
  }

  /** What is wrong with a pair, if anything. */
  function FaultOf(v: Settings, b: Binding, c: Column): Option<Fault> {
    if !b.isBound then Some(Unbound)
    else if b.fieldType.None? then Some(NotAFieldType)
    else if b.fieldType == Some(Null) then Some(Endless)
    else if !Compatible(v.validateMode, b, c) then Some(Incompatible)
    else if LosesNull(v, b, c) && v.validateMode != Disabled then Some(NullableIntoNonNullable)
    else None
  }

  /** Bound, compatible and null-safe. */
  predicate Accepted(v: Settings, b: Binding, c: Column) {
    && b.isBound
    && b.fieldType.Some? && b.fieldType != Some(Null)
    && Compatible(v.validateMode, b, c)
    && (v.validateMode != Disabled ==> !c.isNullable || b.hasNullFlag || v.ignoreNullable)
  }

  /** The warnings a pair gives before its nullability can fail. */
  function TypeWarning(v: Settings, b: Binding, c: Column, i: nat): seq<Warning> {
    if Misses(v.warnMode, b, c) then [TypesDiffer(i)] else []
  }

  function WarningsOf(v: Settings, b: Binding, c: Column, i: nat): seq<Warning> {
    TypeWarning(v, b, c, i) + if LosesNull(v, b, c) then [MayBeNull(i)] else []
  }

  /** Those of a pair that may be at fault: the types are compared before the loss of null values. */
  function RoundWarnings(v: Settings, b: Binding, c: Column, i: nat): seq<Warning> {
    match FaultOf(v, b, c)
    case None => WarningsOf(v, b, c, i)
    case Some(fault) => if fault == NullableIntoNonNullable then TypeWarning(v, b, c, i) else []
  }

  /** The warnings of the first `n` pairs. */
  function Warnings(v: Settings, bs: seq<Binding>, cs: seq<Column>, n: nat): seq<Warning>
    requires n <= |bs| && n <= |cs|
  {
    if n == 0 then [] else Warnings(v, bs, cs, n - 1) + WarningsOf(v, bs[n - 1], cs[n - 1], n - 1)
  }

  function Pairs(bs: seq<Binding>, cs: seq<Column>): (n: nat)
    ensures n <= |bs| && n <= |cs| && (n == |bs| || n == |cs|)
  {
    if |bs| <= |cs| then |bs| else |cs|
  }

  /** The first pair from `i` on with a fault. */
  function FirstFault(v: Settings, bs: seq<Binding>, cs: seq<Column>, i: nat): (r: Option<nat>)
    requires i <= Pairs(bs, cs)
    ensures r.Some? ==> i <= r.value < Pairs(bs, cs) && FaultOf(v, bs[r.value], cs[r.value]).Some?
    decreases Pairs(bs, cs) - i
  {
    if i == Pairs(bs, cs) then None
    else if FaultOf(v, bs[i], cs[i]).Some? then Some(i)
    else FirstFault(v, bs, cs, i + 1)
  }

  /** A pair has no fault exactly when it is accepted. */
  lemma FaultMeaning(v: Settings, b: Binding, c: Column)
    ensures FaultOf(v, b, c).None? <==> Accepted(v, b, c)
  {
  }

  lemma {:induction false} FirstFaultMeaning(v: Settings, bs: seq<Binding>, cs: seq<Column>, i: nat)
    requires i <= Pairs(bs, cs)
    ensures var r := FirstFault(v, bs, cs, i);
            && (r.Some? ==> !Accepted(v, bs[r.value], cs[r.value]))
            && forall k | i <= k < (if r.Some? then r.value else Pairs(bs, cs)) :: Accepted(v, bs[k], cs[k])
    decreases Pairs(bs, cs) - i
  {
    if i < Pairs(bs, cs) {
      FaultMeaning(v, bs[i], cs[i]);
      FirstFaultMeaning(v, bs, cs, i + 1);
    }
  }

  /** The excess of one list over the other, if all its types are known. */
  function Excess(types: seq<(Option<FieldType>, bool)>): (r: Option<seq<(FieldType, bool)>>)
    ensures r.None? <==> exists k :: 0 <= k < |types| && types[k].0.None?
    ensures r.Some? ==>
              && |r.value| == |types|
              && forall k | 0 <= k < |types| :: types[k] == (Some(r.value[k].0), r.value[k].1)
  {
    if types == [] then Some([])
    else
      var front, last := Excess(types[..|types| - 1]), types[|types| - 1];
      if front.None? || last.0.None? then None else Some(front.value + [(last.0.value, last.1)])
  }

  function BindingTypes(bs: seq<Binding>): (r: seq<(Option<FieldType>, bool)>)
    ensures |r| == |bs|
  {
    seq(|bs|, i requires 0 <= i < |bs| => (bs[i].fieldType, bs[i].isUnsigned))
  }

  function ColumnTypes(cs: seq<Column>): (r: seq<(Option<FieldType>, bool)>)
    ensures |r| == |cs|
  {
    seq(|cs|, i requires 0 <= i < |cs| => (Some(cs[i].fieldType), cs[i].isUnsigned))
  }

  function Mismatch(bindings: nat, columns: nat, types: seq<(Option<FieldType>, bool)>): Outcome {
    match Excess(types)
    case None => ExcessNotAFieldType
    case Some(excessive) => CountMismatch(bindings, columns, excessive)
  }

  predicate IsOff(v: Settings) {
    v.validateMode == Disabled && v.warnMode == Disabled
  }

  /** What comes of comparing the lists. */
  function Comparison(v: Settings, bs: seq<Binding>, cs: seq<Column>): Outcome {
    var n := Pairs(bs, cs);
    match FirstFault(v, bs, cs, 0)
    case Some(i) => Failed(i, FaultOf(v, bs[i], cs[i]).value)
    case None =>
      if n < |bs| then Mismatch(|bs|, n, BindingTypes(bs[n..]))
      else if n < |cs| then Mismatch(n, |cs|, ColumnTypes(cs[n..]))
      else Passed
  }

  /** The warnings given: those of the pairs before the first fault, and of the faulty pair. */
  function Logged(v: Settings, bs: seq<Binding>, cs: seq<Column>): seq<Warning> {
    match FirstFault(v, bs, cs, 0)
    case None => Warnings(v, bs, cs, Pairs(bs, cs))
    case Some(i) => Warnings(v, bs, cs, i) + RoundWarnings(v, bs[i], cs[i], i)
  }

  /** The outcome of a validation; with both modes off nothing is compared. */
  function Validation(v: Settings, bs: seq<Binding>, cs: seq<Column>): Outcome {
    if IsOff(v) then Passed else Comparison(v, bs, cs)
  }

  /** The warnings of a validation. */
  function Log(v: Settings, bs: seq<Binding>, cs: seq<Column>): seq<Warning> {
    if IsOff(v) then [] else Logged(v, bs, cs)
  }

  class Statement {
    const settings: Settings
    var logged: seq<Warning>

    constructor (settings: Settings)
      ensures this.settings == settings && logged == []
    {
      this.settings, logged := settings, [];
    }

    /** One round of the loop; without a fault the caller moves on. */
    method ValidatePair(binding: Binding, column: Column, index: nat) returns (fault: Option<Fault>)
      modifies this`logged
      ensures fault == FaultOf(settings, binding, column)
      ensures logged == old(logged) + RoundWarnings(settings, binding, column, index)
    {
      if !binding.isBound {
        return Some(Unbound);
      }
      if binding.fieldType.None? {
        return Some(NotAFieldType);
      }
      if binding.fieldType == Some(Null) {
        return Some(Endless);  // the next round would be this one again
      }
      if !Compatible(settings.validateMode, binding, column) {
        return Some(Incompatible);
      }
      if !Compatible(settings.warnMode, binding, column) {
        logged := logged + [TypesDiffer(index)];
      }
      if column.isNullable && !binding.hasNullFlag && !settings.ignoreNullable {
        if settings.validateMode != Disabled {
          return Some(NullableIntoNonNullable);
        } else {
          logged := logged + [MayBeNull(index)];
        }
      }
      fault := None;
    }

    method ValidateResultMetadata(bs: seq<Binding>, cs: seq<Column>) returns (r: Outcome)
      modifies this`logged
      ensures r == Validation(settings, bs, cs)
      ensures logged == old(logged) + Log(settings, bs, cs)
    {
      if settings.validateMode == Disabled && settings.warnMode == Disabled {
        return Passed;
      }
      var index := 0;
      while index != |bs| && index != |cs|
        invariant index <= Pairs(bs, cs)
        invariant FirstFault(settings, bs, cs, 0) == FirstFault(settings, bs, cs, index)
        invariant logged == old(logged) + Warnings(settings, bs, cs, index)
        decreases Pairs(bs, cs) - index
      {
        var fault := ValidatePair(bs[index], cs[index], index);
        if fault.Some? {
          return Failed(index, fault.value);
        }
        index := index + 1;
      }
      if index != |bs| {
        r := Mismatch(|bs|, index, BindingTypes(bs[index..]));
      } else if index != |cs| {
        r := Mismatch(index, |cs|, ColumnTypes(cs[index..]));
      } else {
        r := Passed;
      }
    }
  }

  // ---- when it passes, fails and ends ----

  /** Validation passes exactly when it is off, or the lists are equally long and every pair is accepted. */
  lemma PassesIff(v: Settings, bs: seq<Binding>, cs: seq<Column>)
    ensures Validation(v, bs, cs) == Passed
       <==> IsOff(v) || (|bs| == |cs| && forall k | 0 <= k < |bs| :: Accepted(v, bs[k], cs[k]))
  {
    FirstFaultMeaning(v, bs, cs, 0);
  }

  /** The loop gets to this pair: all before it are accepted. */
  ghost predicate Reached(v: Settings, bs: seq<Binding>, cs: seq<Column>, i: nat) {
    !IsOff(v) && i < Pairs(bs, cs) && forall k | 0 <= k < i :: Accepted(v, bs[k], cs[k])
  }

  /** It fails at an index exactly when that is the first pair that is not accepted. */
  lemma FailsAtLeast(v: Settings, bs: seq<Binding>, cs: seq<Column>, i: nat)
    ensures Validation(v, bs, cs).Failed? && Validation(v, bs, cs).index == i
       <==> Reached(v, bs, cs, i) && !Accepted(v, bs[i], cs[i])
  {
    FirstFaultMeaning(v, bs, cs, 0);
  }

  // ---- the warnings ----

  /** How often a warning is given. */
  function Times(ws: seq<Warning>, w: Warning): nat {
    multiset(ws)[w]
  }

  lemma TimesConcat(a: seq<Warning>, b: seq<Warning>, w: Warning)
    ensures Times(a + b, w) == Times(a, w) + Times(b, w)
  {
  }

  lemma TimesIf(there: bool, given: Warning, w: Warning)
    ensures Times(if there then [given] else [], w) == if there && given == w then 1 else 0
  {
  }

  lemma RoundCounts(v: Settings, b: Binding, c: Column, n: nat, i: nat)
    ensures var ws := RoundWarnings(v, b, c, n);
            && Times(ws, TypesDiffer(i))
               == (if i == n && TypesAreCompared(v, b, c) && Misses(v.warnMode, b, c) then 1 else 0)
            && Times(ws, MayBeNull(i)) == (if i == n && Accepted(v, b, c) && LosesNull(v, b, c) then 1 else 0)
  {
    PairCounts(v, b, c, n, TypesDiffer(i));
    PairCounts(v, b, c, n, MayBeNull(i));
    TimesIf(Misses(v.warnMode, b, c), TypesDiffer(n), TypesDiffer(i));
    TimesIf(Misses(v.warnMode, b, c), TypesDiffer(n), MayBeNull(i));
  }

  lemma PairCounts(v: Settings, b: Binding, c: Column, n: nat, w: Warning)
    ensures Times(WarningsOf(v, b, c, n), w) == if w.index == n && Warrants(v, b, c, w) then 1 else 0
  {
    TimesConcat(TypeWarning(v, b, c, n), if LosesNull(v, b, c) then [MayBeNull(n)] else [], w);
    TimesIf(Misses(v.warnMode, b, c), TypesDiffer(n), w);
    TimesIf(LosesNull(v, b, c), MayBeNull(n), w);
  }

  /** A pair whose types pass the validation, whatever becomes of null values. */
  predicate TypesAreCompared(v: Settings, b: Binding, c: Column) {
    b.isBound && b.fieldType.Some? && b.fieldType != Some(Null) && Compatible(v.validateMode, b, c)
  }

  /** A pair that gives a warning when it is passed over. */
  predicate Warrants(v: Settings, b: Binding, c: Column, w: Warning) {
    match w
    case TypesDiffer(_) => Misses(v.warnMode, b, c)
    case MayBeNull(_) => LosesNull(v, b, c)
  }

  function Flat(rounds: seq<seq<Warning>>): seq<Warning> {
    if rounds == [] then [] else Flat(rounds[..|rounds| - 1]) + rounds[|rounds| - 1]
  }

  /** A warning that only one round gives. */
  lemma {:induction false} FlatCounts(rounds: seq<seq<Warning>>, w: Warning, i: nat)
    requires forall k | 0 <= k < |rounds| && k != i :: Times(rounds[k], w) == 0
    ensures Times(Flat(rounds), w) == if i < |rounds| then Times(rounds[i], w) else 0
  {
    if rounds != [] {
      FlatCounts(rounds[..|rounds| - 1], w, i);
      TimesConcat(Flat(rounds[..|rounds| - 1]), rounds[|rounds| - 1], w);
    }
  }

  function Rounds(v: Settings, bs: seq<Binding>, cs: seq<Column>, n: nat): (rounds: seq<seq<Warning>>)
    requires n <= |bs| && n <= |cs|
    ensures |rounds| == n
  {
    seq(n, k requires 0 <= k < n => WarningsOf(v, bs[k], cs[k], k))
  }

  lemma {:induction false} WarningsAreFlat(v: Settings, bs: seq<Binding>, cs: seq<Column>, n: nat)
    requires n <= |bs| && n <= |cs|
    ensures Warnings(v, bs, cs, n) == Flat(Rounds(v, bs, cs, n))
  {
    if n > 0 {
      WarningsAreFlat(v, bs, cs, n - 1);
      assert Rounds(v, bs, cs, n)[..n - 1] == Rounds(v, bs, cs, n - 1);
    }
  }

  lemma PrefixCounts(v: Settings, bs: seq<Binding>, cs: seq<Column>, n: nat, w: Warning)
    requires n <= Pairs(bs, cs)
    ensures Times(Warnings(v, bs, cs, n), w) == if w.index < n && Warrants(v, bs[w.index], cs[w.index], w) then 1 else 0
  {
    var rounds := Rounds(v, bs, cs, n);
    forall k | 0 <= k < n
      ensures Times(rounds[k], w) == if k == w.index && Warrants(v, bs[w.index], cs[w.index], w) then 1 else 0
    {
      PairCounts(v, bs[k], cs[k], k, w);
    }
    FlatCounts(rounds, w, w.index);
    WarningsAreFlat(v, bs, cs, n);
  }

  /** The whole log. Each warning is in it at most once: one about types exactly for the pairs reached that
      pass the validation mode and miss the warning mode, the failing pair included; one about null values
      exactly for the pairs that may lose them and are accepted, the validation being off. */
  lemma WarnedPairs(v: Settings, bs: seq<Binding>, cs: seq<Column>, i: nat)
    ensures Times(Log(v, bs, cs), TypesDiffer(i))
         == if Reached(v, bs, cs, i) && TypesAreCompared(v, bs[i], cs[i]) && Misses(v.warnMode, bs[i], cs[i])
            then 1 else 0
    ensures Times(Log(v, bs, cs), MayBeNull(i))
         == if Reached(v, bs, cs, i) && Accepted(v, bs[i], cs[i]) && LosesNull(v, bs[i], cs[i]) then 1 else 0
  {
    if !IsOff(v) {
      FirstFaultMeaning(v, bs, cs, 0);
      var first := FirstFault(v, bs, cs, 0);
      if first.Some? {
        var at := first.value;
        PrefixCounts(v, bs, cs, at, TypesDiffer(i));
        PrefixCounts(v, bs, cs, at, MayBeNull(i));
        RoundCounts(v, bs[at], cs[at], at, i);
        TimesConcat(Warnings(v, bs, cs, at), RoundWarnings(v, bs[at], cs[at], at), TypesDiffer(i));
        TimesConcat(Warnings(v, bs, cs, at), RoundWarnings(v, bs[at], cs[at], at), MayBeNull(i));
      } else {
        PrefixCounts(v, bs, cs, Pairs(bs, cs), TypesDiffer(i));
        PrefixCounts(v, bs, cs, Pairs(bs, cs), MayBeNull(i));
      }
    }
  }

  // ---- the loop, step by step ----

  /** The loop's state, or how it was left: by a failure or by its condition. */
  datatype Loop = At(index: nat) | Left(index: nat, fault: Option<Fault>)

  /** One evaluation of the loop's condition and body; a null binding continues without moving on. */
  function Step(v: Settings, bs: seq<Binding>, cs: seq<Column>, s: Loop): Loop {
    if s.Left? then s
    else if s.index >= |bs| || s.index >= |cs| then Left(s.index, None)
    else
      match FaultOf(v, bs[s.index], cs[s.index])
      case None => At(s.index + 1)
      case Some(Endless) => s
      case Some(fault) => Left(s.index, Some(fault))
  }

  function Steps(v: Settings, bs: seq<Binding>, cs: seq<Column>, n: nat): Loop {
    if n == 0 then (if IsOff(v) then Left(0, None) else At(0)) else Step(v, bs, cs, Steps(v, bs, cs, n - 1))
  }

  lemma {:induction false} StepsAccepted(v: Settings, bs: seq<Binding>, cs: seq<Column>, n: nat)
    requires !IsOff(v) && n <= Pairs(bs, cs) && forall k | 0 <= k < n :: Accepted(v, bs[k], cs[k])
    ensures Steps(v, bs, cs, n) == At(n)
  {
    if n > 0 {
      StepsAccepted(v, bs, cs, n - 1);
      FaultMeaning(v, bs[n - 1], cs[n - 1]);
    }
  }

  lemma {:induction false} StepsStay(v: Settings, bs: seq<Binding>, cs: seq<Column>, m: nat, n: nat)
    requires m <= n && Step(v, bs, cs, Steps(v, bs, cs, m)) == Steps(v, bs, cs, m)
    ensures Steps(v, bs, cs, n) == Steps(v, bs, cs, m)
  {
    if m < n {
      StepsStay(v, bs, cs, m, n - 1);
    }
  }

  /** A null binding that the loop gets to. */
  ghost predicate MeetsNull(v: Settings, bs: seq<Binding>, cs: seq<Column>, i: nat) {
    Reached(v, bs, cs, i) && bs[i].isBound && bs[i].fieldType == Some(Null)
  }

  lemma NullHolds(v: Settings, bs: seq<Binding>, cs: seq<Column>, i: nat, n: nat)
    requires MeetsNull(v, bs, cs, i)
    ensures !Steps(v, bs, cs, n).Left?
  {
    StepsAccepted(v, bs, cs, if n < i then n else i);
    if n > i {
      StepsStay(v, bs, cs, i, n);
    }
  }

  lemma {:induction false} OffIsLeft(v: Settings, bs: seq<Binding>, cs: seq<Column>, n: nat)
    requires IsOff(v)
    ensures Steps(v, bs, cs, n).Left?
  {
    if n > 0 {
      OffIsLeft(v, bs, cs, n - 1);
    }
  }

  /** Validation ends exactly when there is no bound null binding all before which are accepted. */
  lemma EndsIff(v: Settings, bs: seq<Binding>, cs: seq<Column>)
    ensures (exists n: nat :: Steps(v, bs, cs, n).Left?) <==> !exists i: nat :: MeetsNull(v, bs, cs, i)
  {
    if i: nat :| MeetsNull(v, bs, cs, i) {
      forall n: nat ensures !Steps(v, bs, cs, n).Left? {
        NullHolds(v, bs, cs, i, n);
      }
    } else if IsOff(v) {
      OffIsLeft(v, bs, cs, |bs|);
    } else {
      LeavesAt(v, bs, cs);
    }
  }

  lemma LeavesAt(v: Settings, bs: seq<Binding>, cs: seq<Column>)
    requires !IsOff(v) && forall i: nat :: !MeetsNull(v, bs, cs, i)
    ensures exists n: nat :: Steps(v, bs, cs, n).Left?
  {
    FirstFaultMeaning(v, bs, cs, 0);
    var first := FirstFault(v, bs, cs, 0);
    var at := if first.Some? then first.value else Pairs(bs, cs);
    StepsAccepted(v, bs, cs, at);
    if first.Some? {
      assert Reached(v, bs, cs, at) && !MeetsNull(v, bs, cs, at);
      assert FaultOf(v, bs[at], cs[at]) != Some(Endless);
    }
    var n := at + 1;
    assert Steps(v, bs, cs, n) == Step(v, bs, cs, At(at));
    assert Steps(v, bs, cs, n).Left?;
  }
}
