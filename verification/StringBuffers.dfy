/** String data of a fixed capacity, and numbers on their way through it. */
module StringBuffers {
  import opened DecimalText
  import opened Wrappers

  /** A buffer of fixed capacity with a terminating byte. */
  class StringData {
    const capacity: nat
    const bytes: array<Char>
    var itemsCount: nat

    ghost predicate Valid()
      reads this
    {
      bytes.Length == capacity + 1 && itemsCount <= capacity
    }

    ghost function Contents(): Text
      reads this, bytes
      requires Valid()
    {
      bytes[..itemsCount]
    }

    constructor (capacity: nat)
      ensures Valid() && fresh(bytes) && this.capacity == capacity && Contents() == []
    {
      this.capacity, itemsCount := capacity, 0;
      bytes := new Char[capacity + 1](_ => 0);
    }

    /** Construction from a number fails exactly when its text is longer than the buffer. */
    static method FromNumber(capacity: nat, value: int) returns (r: Option<StringData>)
      ensures r.None? <==> |Print(value)| > capacity
      ensures r.Some? ==> fresh(r.value) && fresh(r.value.bytes) && r.value.Valid()
      ensures r.Some? ==> r.value.capacity == capacity && r.value.Contents() == Print(value)
    {
      var s := Print(value);
      if |s| > capacity {
        return None;
      }
      var data := new StringData(capacity);
      var i := 0;
      while i < |s|
        invariant i <= |s| && data.bytes[..i] == s[..i]
        invariant data.Valid() && fresh(data) && fresh(data.bytes) && data.capacity == capacity
      {
        data.bytes[i] := s[i];
        i := i + 1;
      }
      data.itemsCount := |s|;
      r := Some(data);
    }

    function Length(): nat
      reads this
    {
      itemsCount
    }

    /** Conversion to the integer type of a width and signedness. A text of an accepted length becomes
        a number of that type even if it is not one itself; the number it stands for is the result
        exactly when it is in the range of the type and not, written with a minus sign, the least number
        of a wider type, which is undefined. */
    method To(w: Width, isSigned: bool) returns (r: Parsed)
      requires Valid()
      ensures r == if isSigned then ToSigned(Contents(), w, false) else ToUnsigned(Contents(), w, false)
      ensures var text := Contents();
              var length := if isSigned then |DigitsOf(text)| else |text|;
              r == RuntimeError <==> !(1 <= length <= MaxLength(w))
      ensures r != OutOfRange
      ensures r == Undefined ==> isSigned && IsNegative(Contents()) && Wide(w)
      ensures r.Value? && !isSigned ==>
                && 0 <= r.value < Modulus(w)
                && (r.value == Horner(Contents()) <==> 0 <= Horner(Contents()) < Modulus(w))
      ensures r.Value? && isSigned ==> -Half(w) <= r.value < Half(w)
      ensures isSigned && r != RuntimeError ==>
                var n := Number(Contents());
                r == Value(n) <==> -Half(w) <= n < Half(w) && !(IsNegative(Contents()) && Wide(w) && n == -Half(w))
    {
      UnsignedMeaning(Contents(), w, false);
      SignedParsing(Contents(), w, false);
      SignedMeaning(Number(Contents()), w);
      if 1 <= |DigitsOf(Contents())| <= MaxLength(w) {
        SignedExactness(Contents(), w, false);
      }
      if isSigned {
        r := ToSigned(bytes[..itemsCount], w, false);
      } else {
        r := ToUnsigned(bytes[..itemsCount], w, false);
      }
    }
  }

  /** A number of any type survives the way through a buffer that is large enough, except for the
      least of the wider signed types. */
  method ThroughBuffer(capacity: nat, n: int, w: Width, isSigned: bool) returns (r: Option<Parsed>)
    requires if isSigned then -Half(w) <= n < Half(w) else 0 <= n < Modulus(w)
    ensures r.None? <==> |Print(n)| > capacity
    ensures r.Some? ==> (r.value == Value(n) <==> !isSigned || n >= Least(w))
  {
    var data := StringData.FromNumber(capacity, n);
    if data.None? {
      return None;
    }
    var parsed := data.value.To(w, isSigned);
    if isSigned {
      SignedRoundTrip(n, w, false);
    } else {
      UnsignedRoundTrip(n, w, false);
    }
    r := Some(parsed);
  }
}
