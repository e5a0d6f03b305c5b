/** `StatusCodeImpl`: the annotation value carrying an HTTP status code as a
    Java `int`. */
module StatusCodes {
  import opened Jvm

  /** The single final field. */
  datatype StatusCode = StatusCode(value: int32)

  /** The constructor stores the value as given. */
  function NewStatusCode(value: int32): StatusCode {
    StatusCode(value)
  }

  function Value(s: StatusCode): int32 { s.value }

  /** `value()` hands back exactly what the constructor was given. */
  lemma ValueEchoesConstructor(value: int32)
    ensures Value(NewStatusCode(value)) == value
  {
  }

  /** `equals`: false for null and for another runtime class, otherwise the
      values are compared. The identity shortcut is covered by reflexivity. */
  function Equals(s: StatusCode, o: Ref<StatusCode>): (r: bool)
    ensures r ==> o.SameClass?
  {
    match o
    case Null => false
    case OtherClass(_) => false
    case SameClass(that) => s.value == that.value
  }

  /** `equals` is an equivalence, holds exactly between equal values and
      refuses everything else. */
  lemma EqualsIsValueEquality(a: StatusCode, b: StatusCode, c: StatusCode)
    ensures Equals(a, SameClass(b)) <==> a == b
    ensures Equals(a, SameClass(a))
    ensures Equals(a, SameClass(b)) ==> Equals(b, SameClass(a))
    ensures Equals(a, SameClass(b)) && Equals(b, SameClass(c)) ==> Equals(a, SameClass(c))
    ensures !Equals(a, Null)
    ensures forall id :: !Equals(a, OtherClass(id))
  {
  }

  /** `hashCode`: `Objects.hash(value)`, that is `31 * 1 + value` in 32-bit
      arithmetic. */
  function HashCode(s: StatusCode): int32 {
    Wrap32(31 + s.value as int)
  }

  /** The hash depends on the value alone, and distinct values hash
      differently: adding 31 modulo 2^32 is one-to-one on `int`. */
  lemma HashCodeMatchesEquals(a: StatusCode, b: StatusCode)
    ensures HashCode(a) == HashCode(b) <==> Equals(a, SameClass(b))
  {
  }

  /** `toString`: `StatusCode{value=N}` with `N` in decimal. */
  function ToString(s: StatusCode): string {
    "StatusCode{value=" + IntToString(s.value) + "}"
  }

  /** Reads a status code back from its text. */
  function Parse(text: string): Option<StatusCode> {
    var prefix := "StatusCode{value=";
    if |text| > |prefix| && text[..|prefix|] == prefix && text[|text| - 1] == '}' then
      match ParseInt(text[|prefix|..|text| - 1])
      case Some(n) => if -0x8000_0000 <= n < 0x8000_0000 then Some(StatusCode(n as int32)) else None
      case None => None
    else None
  }

  /** The text determines the status code: `toString` then `Parse` gives
      the same code back. */
  lemma ToStringRoundTrip(s: StatusCode)
    ensures Parse(ToString(s)) == Some(s)
  {
    var prefix := "StatusCode{value=";
    var digits := IntToString(s.value);
    var text := ToString(s);
    assert text == prefix + digits + "}";
    assert text[..|prefix|] == prefix;
    assert text[|prefix|..|text| - 1] == digits;
    IntToStringRoundTrip(s.value);
  }

  /** Two status codes print alike exactly when they are equal. */
  lemma ToStringMatchesEquals(a: StatusCode, b: StatusCode)
    ensures ToString(a) == ToString(b) <==> Equals(a, SameClass(b))
  {
    var prefix := "StatusCode{value=";
    if ToString(a) == ToString(b) {
      assert ToString(a)[|prefix|..|ToString(a)| - 1] == IntToString(a.value);
      assert ToString(b)[|prefix|..|ToString(b)| - 1] == IntToString(b.value);
    }
    IntToStringInjective(a.value, b.value);
  }
}
