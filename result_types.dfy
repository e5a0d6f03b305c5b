/** `ResultTypeImpl`: the annotation value that describes a result type as
    an owner class, a raw class, nested type arguments and an array flag. */
module ResultTypes {
  import opened Jvm

  /** The four final fields. Owner and raw type are nullable classes; a type
      argument slot is null or another `ResultTypeImpl`. */
  datatype ResultType = ResultType(
    ownerType: Option<JClass>,
    rawType: Option<JClass>,
    typeArgs: seq<Option<ResultType>>,
    isArray: bool)

  /** The constructor stores its arguments as given. */
  function NewResultType(ownerType: Option<JClass>, rawType: Option<JClass>, typeArgs: seq<Option<ResultType>>, isArray: bool): ResultType {
    ResultType(ownerType, rawType, typeArgs, isArray)
  }

  function OwnerType(t: ResultType): Option<JClass> { t.ownerType }

  function RawType(t: ResultType): Option<JClass> { t.rawType }

  function IsArray(t: ResultType): bool { t.isArray }

  /** The accessors hand back exactly what the constructor was given. */
  lemma AccessorsEchoConstructor(ownerType: Option<JClass>, rawType: Option<JClass>, typeArgs: seq<Option<ResultType>>, isArray: bool)
    ensures OwnerType(NewResultType(ownerType, rawType, typeArgs, isArray)) == ownerType
    ensures RawType(NewResultType(ownerType, rawType, typeArgs, isArray)) == rawType
    ensures IsArray(NewResultType(ownerType, rawType, typeArgs, isArray)) == isArray
  {
  }

  /** `typeArgs()`: a clone of the stored array, so writes through the
      result never reach the stored arguments. */
  method TypeArgs(t: ResultType) returns (a: array<Option<ResultType>>)
    ensures fresh(a)
    ensures a[..] == t.typeArgs
  {
    a := new Option<ResultType>[|t.typeArgs|](i requires 0 <= i < |t.typeArgs| => t.typeArgs[i]);
  }

  // ---------------------------------------------------------------------
  // equals
  // ---------------------------------------------------------------------

  /** `equals`: false for null and for another runtime class; otherwise the
      flag, both classes (`Objects.equals`, classes compare by identity) and
      the arguments (`Arrays.equals`, slot by slot with `Objects.equals`)
      must agree. The identity shortcut is covered by reflexivity. */
  function Equals(t: ResultType, o: Ref<ResultType>): (r: bool)
    decreases t
    ensures r ==> o.SameClass? && |o.obj.typeArgs| == |t.typeArgs|
  {
    match o
    case Null => false
    case OtherClass(_) => false
    case SameClass(that) =>
      && t.isArray == that.isArray
      && t.ownerType == that.ownerType
      && t.rawType == that.rawType
      && |t.typeArgs| == |that.typeArgs|
      && forall i :: 0 <= i < |t.typeArgs| ==>
           || (t.typeArgs[i].None? && that.typeArgs[i].None?)
           || (t.typeArgs[i].Some? && that.typeArgs[i].Some?
               && Equals(t.typeArgs[i].value, SameClass(that.typeArgs[i].value)))
  }

  /** Two `ResultTypeImpl`s are equal exactly when they hold the same
      fields, all the way down the nested type arguments. */
  lemma {:induction false} EqualsIsFieldEquality(t: ResultType, that: ResultType)
    ensures Equals(t, SameClass(that)) <==> t == that
    decreases t
  {
    if |t.typeArgs| == |that.typeArgs| {
      forall i | 0 <= i < |t.typeArgs| && t.typeArgs[i].Some? && that.typeArgs[i].Some?
        ensures Equals(t.typeArgs[i].value, SameClass(that.typeArgs[i].value)) <==> t.typeArgs[i] == that.typeArgs[i]
      {
        EqualsIsFieldEquality(t.typeArgs[i].value, that.typeArgs[i].value);
      }
      if Equals(t, SameClass(that)) {
        assert t.typeArgs == that.typeArgs;
      }
    }
  }

  /** `equals` is an equivalence on `ResultTypeImpl`s and refuses everything else. */
  lemma EqualsIsEquivalence(a: ResultType, b: ResultType, c: ResultType)
    ensures Equals(a, SameClass(a))
    ensures Equals(a, SameClass(b)) ==> Equals(b, SameClass(a))
    ensures Equals(a, SameClass(b)) && Equals(b, SameClass(c)) ==> Equals(a, SameClass(c))
    ensures !Equals(a, Null)
    ensures forall id :: !Equals(a, OtherClass(id))
  {
    EqualsIsFieldEquality(a, a);
    EqualsIsFieldEquality(a, b);
    EqualsIsFieldEquality(b, a);
    EqualsIsFieldEquality(b, c);
    EqualsIsFieldEquality(a, c);
  }

  // ---------------------------------------------------------------------
  // hashCode
  // ---------------------------------------------------------------------

  /** `Arrays.hashCode` of the element hashes: start at 1, then
      `31 * result + h` per element, in 32-bit arithmetic. */
  function ArrayHash(hashes: seq<int32>): int32 {
    if hashes == [] then 1
    else Wrap32(31 * ArrayHash(hashes[..|hashes| - 1]) as int + hashes[|hashes| - 1] as int)
  }

  /** `Objects.hashCode` of a nullable class; `Class.hashCode` is identity
      based and is passed in as `classHash`. */
  function ClassHash(c: Option<JClass>, classHash: JClass -> int32): int32 {
    if c.Some? then classHash(c.value) else 0
  }

  /** `hashCode`: `Objects.hash(ownerType, rawType, isArray)`, times 31, plus
      `Arrays.hashCode(typeArgs)`. */
  function HashCode(t: ResultType, classHash: JClass -> int32): int32
    decreases t
  {
    var fields := ArrayHash([ClassHash(t.ownerType, classHash), ClassHash(t.rawType, classHash), BooleanHash(t.isArray)]);
    var args := seq(|t.typeArgs|, i requires 0 <= i < |t.typeArgs| =>
      if t.typeArgs[i].Some? then HashCode(t.typeArgs[i].value, classHash) else 0);
    Wrap32(31 * fields as int + ArrayHash(args) as int)
  }

  /** Equal `ResultTypeImpl`s hash alike, whatever the class hashes are. */
  lemma HashCodeAgreesWithEquals(t: ResultType, that: ResultType, classHash: JClass -> int32)
    requires Equals(t, SameClass(that))
    ensures HashCode(t, classHash) == HashCode(that, classHash)
  {
    EqualsIsFieldEquality(t, that);
  }

  // ---------------------------------------------------------------------
  // toString
  // ---------------------------------------------------------------------

  /** `toString`: `ResultType{ownerType=…, rawType=…, typeArgs=[…], isArray=…}`,
      classes as `Class.toString` (or `null`) and the arguments as
      `Arrays.toString` writes them. */
  function ToString(t: ResultType): (s: string)
    decreases t, 2
  {
    FieldsText(t) + BooleanToString(t.isArray) + "}"
  }

  /** Everything up to and including `isArray=`. */
  function FieldsText(t: ResultType): (s: string)
    decreases t, 1
  {
    "ResultType{ownerType=" + (NullableClassToString(t.ownerType)
      + ", rawType=" + NullableClassToString(t.rawType)
      + ", typeArgs=" + "[" + Join(ArgumentTexts(t), ", ") + "]"
      + ", isArray=")
  }

  /** The text of each type argument slot, as `Arrays.toString` writes it. */
  function ArgumentTexts(t: ResultType): seq<string>
    decreases t, 0
  {
    seq(|t.typeArgs|, i requires 0 <= i < |t.typeArgs| =>
      if t.typeArgs[i].Some? then ToString(t.typeArgs[i].value) else "null")
  }

  /** The text opens with `ResultType{ownerType=` and closes with the array
      flag: it ends in `true}` exactly when the type is an array. */
  lemma ToStringFrame(t: ResultType)
    ensures "ResultType{ownerType=" <= ToString(t)
    ensures EndsWith(ToString(t), "true}") <==> t.isArray
  {
    var flag := BooleanToString(t.isArray) + "}";
    assert ToString(t) == FieldsText(t) + flag;
    if t.isArray {
      ConcatEndsWith(FieldsText(t), flag, "true}");
    } else {
      ConcatEndsWith(FieldsText(t), flag, "alse}");
      assert "alse}"[0] != "true}"[0];
    }
  }

  /** The four fields appear in declaration order: both classes as
      `Class.toString` writes them (or `null`), the arguments between
      brackets and separated by `, `, each nested argument by its own
      `toString` and each null slot as `null`, and last the flag. */
  lemma ToStringFields(t: ResultType)
    ensures ToString(t) == "ResultType{ownerType=" + (NullableClassToString(t.ownerType)
      + ", rawType=" + NullableClassToString(t.rawType)
      + ", typeArgs=" + "[" + Join(ArgumentTexts(t), ", ") + "]"
      + ", isArray=") + BooleanToString(t.isArray) + "}"
    ensures |ArgumentTexts(t)| == |t.typeArgs|
    ensures forall i :: 0 <= i < |t.typeArgs| ==>
      ArgumentTexts(t)[i] == if t.typeArgs[i].Some? then ToString(t.typeArgs[i].value) else "null"
  {
  }
}
