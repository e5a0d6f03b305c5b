/** The small part of the Java platform the type machinery relies on:
    nullable references, exceptions, 32-bit `int` arithmetic, class
    descriptors and the decimal rendering of `int`. */
module Jvm {

  /** A nullable reference: `None` is Java's `null`. */
  datatype Option<+T> = None | Some(value: T)

  /** The exceptions the modelled code throws (their messages are not modelled). */
  datatype Exception = IllegalArgument | NullPointer | ClassCast | IndexOutOfBounds

  /** The outcome of a Java call that returns a value or throws. */
  datatype Result<+T> = Ok(value: T) | Throws(exc: Exception) {
    predicate IsFailure() { Throws? }

    function PropagateFailure<U>(): Result<U>
      requires Throws?
    {
      Throws(exc)
    }

    function Extract(): T
      requires Ok?
    {
      value
    }
  }

  /** The argument of `equals(Object o)`: null, an object of the receiver's
      own runtime class, or an object of some other class. */
  datatype Ref<+T> = Null | SameClass(obj: T) | OtherClass(id: nat)

  // ---------------------------------------------------------------------
  // 32-bit int
  // ---------------------------------------------------------------------

  newtype int32 = x: int | -0x8000_0000 <= x < 0x8000_0000

  /** Two's-complement wrap-around of an unbounded result into an `int`. */
  function Wrap32(x: int): (r: int32)
    ensures (r as int - x) % 0x1_0000_0000 == 0
    ensures -0x8000_0000 <= x < 0x8000_0000 ==> r as int == x
  {
    ((x + 0x8000_0000) % 0x1_0000_0000 - 0x8000_0000) as int32
  }

  /** `Boolean.hashCode`. */
  function BooleanHash(b: bool): int32 {
    if b then 1231 else 1237
  }

  /** `String.valueOf(boolean)`. */
  function BooleanToString(b: bool): string {
    if b then "true" else "false"
  }

  // ---------------------------------------------------------------------
  // Class descriptors
  // ---------------------------------------------------------------------

  /** A `java.lang.Class`, described by what reflection reports about it:
      a named class (possibly primitive, an interface, nested in an
      enclosing class) or the array class of a component class. */
  datatype JClass =
    | Named(name: string, primitive: bool, isInterface: bool, enclosing: Option<JClass>)
    | ArrayOf(component: JClass)
  {
    predicate IsArray() { ArrayOf? }

    predicate IsPrimitive() { Named? && primitive }

    /** `Class.getComponentType`: null for a class that is not an array. */
    function ComponentType(): (r: Option<JClass>)
      ensures r.Some? <==> IsArray()
    {
      if ArrayOf? then Some(component) else None
    }

    /** `Class.getEnclosingClass`: array classes have none. */
    function EnclosingClass(): Option<JClass> {
      if Named? then enclosing else None
    }

    /** `Class.getName`: array classes use the JVM's descriptor form. */
    function GetName(): string
      decreases this, 0
    {
      match this
      case Named(n, _, _, _) => n
      case ArrayOf(c) => "[" + c.Descriptor()
    }

    /** The field descriptor of this class as an array component. */
    function Descriptor(): string
      decreases this, 1
    {
      match this
      case ArrayOf(_) => GetName()
      case Named(n, p, _, _) => if p then PrimitiveDescriptor(n) else "L" + n + ";"
    }

    /** `Class.toString`. */
    function ToString(): string {
      (if IsPrimitive() then "" else if Named? && isInterface then "interface " else "class ") + GetName()
    }
  }

  function PrimitiveDescriptor(name: string): string {
    if name == "boolean" then "Z"
    else if name == "byte" then "B"
    else if name == "char" then "C"
    else if name == "short" then "S"
    else if name == "int" then "I"
    else if name == "long" then "J"
    else if name == "float" then "F"
    else if name == "double" then "D"
    else if name == "void" then "V"
    else name
  }

  const ObjectClass: JClass := Named("java.lang.Object", false, false, None)

  /** `void.class`, the one class `Array.newInstance` refuses as a component. */
  predicate IsVoid(c: JClass) {
    c.Named? && c.primitive && c.name == "void"
  }

  /** `String.valueOf(Object)` for a nullable class reference. */
  function NullableClassToString(c: Option<JClass>): string {
    if c.Some? then c.value.ToString() else "null"
  }

  // ---------------------------------------------------------------------
  // Strings
  // ---------------------------------------------------------------------

  /** The parts with `sep` between consecutive ones (what a `StringBuilder`
      loop or `Arrays.toString` produces between its brackets). */
  function Join(parts: seq<string>, sep: string): string {
    if |parts| == 0 then ""
    else if |parts| == 1 then parts[0]
    else Join(parts[..|parts| - 1], sep) + sep + parts[|parts| - 1]
  }

  /** `s.endsWith(suffix)`. */
  predicate EndsWith(s: string, suffix: string) {
    |suffix| <= |s| && s[|s| - |suffix|..] == suffix
  }

  lemma ConcatEndsWith(head: string, tail: string, suffix: string)
    requires EndsWith(tail, suffix)
    ensures EndsWith(head + tail, suffix)
  {
  }

  predicate IsDigit(c: char) { '0' <= c <= '9' }

  predicate AllDigits(s: string) {
    forall i :: 0 <= i < |s| ==> IsDigit(s[i])
  }

  function DigitChar(d: int): (c: char)
    requires 0 <= d < 10
    ensures IsDigit(c) && c as int - '0' as int == d
  {
    ('0' as int + d) as char
  }

  /** The decimal digits of `n`, most significant first, without leading zeros. */
  function NatToDecimal(n: nat): (s: string)
    ensures |s| > 0 && AllDigits(s)
    ensures |s| > 1 ==> s[0] != '0'
  {
    if n < 10 then [DigitChar(n)] else NatToDecimal(n / 10) + [DigitChar(n % 10)]
  }

  /** The number a string of decimal digits denotes. */
  function DecimalValue(s: string): nat
    requires AllDigits(s)
  {
    if s == [] then 0 else 10 * DecimalValue(s[..|s| - 1]) + (s[|s| - 1] as int - '0' as int)
  }

  lemma {:induction false} DecimalRoundTrip(n: nat)
    ensures DecimalValue(NatToDecimal(n)) == n
  {
    if n >= 10 {
      DecimalRoundTrip(n / 10);
      var s := NatToDecimal(n);
      assert s[..|s| - 1] == NatToDecimal(n / 10);
    }
  }

  /** `Integer.toString(int)`: a minus sign for negatives, then the digits. */
  function IntToString(i: int32): (s: string)
    ensures |s| > 0
  {
    if i < 0 then "-" + NatToDecimal(-(i as int)) else NatToDecimal(i as int)
  }

  /** Reads back what `IntToString` writes: an optional minus sign followed
      by at least one digit. */
  function ParseInt(s: string): Option<int> {
    if |s| > 0 && AllDigits(s) then Some(DecimalValue(s))
    else if |s| > 1 && s[0] == '-' && AllDigits(s[1..]) then Some(0 - DecimalValue(s[1..]) as int)
    else None
  }

  lemma IntToStringRoundTrip(i: int32)
    ensures ParseInt(IntToString(i)) == Some(i as int)
  {
    if i < 0 {
      var s := IntToString(i);
      DecimalRoundTrip(-(i as int));
      assert s[1..] == NatToDecimal(-(i as int));
      assert !IsDigit(s[0]);
    } else {
      DecimalRoundTrip(i as int);
    }
  }

  /** Distinct ints print differently. */
  lemma IntToStringInjective(i: int32, j: int32)
    ensures IntToString(i) == IntToString(j) <==> i == j
  {
    if IntToString(i) == IntToString(j) {
      IntToStringRoundTrip(i);
      IntToStringRoundTrip(j);
    }
  }
}
