/** `Util`: canonical forms of types and the three helper classes that hold
    them (`ParameterizedTypeImpl`, `GenericArrayTypeImpl`,
    `WildcardTypeImpl`): their constructors' checks, their accessors and
    their `toString`. */
module Util {
  import opened Jvm
  import opened Reflect
  import opened Types

  /** `checkNotPrimitive`: primitive classes are refused. */
  function CheckNotPrimitive(t: Type): (r: Result<()>)
    ensures r.Ok? <==> !IsPrimitiveClass(t)
    ensures r.Throws? ==> r.exc == IllegalArgument
  {
    if IsPrimitiveClass(t) then Throws(IllegalArgument) else Ok(())
  }

  // ---------------------------------------------------------------------
  // canonicalize and the helper constructors
  // ---------------------------------------------------------------------

  /** `canonicalize`: array classes become `GenericArrayTypeImpl`, foreign
      reflect types are rebuilt through the helper constructors (which may
      refuse them), and everything else is returned as it is.

      For an array class the source builds `new GenericArrayTypeImpl(
      canonicalize(component))`, whose constructor canonicalizes again; the
      second pass is the identity on a canonical type, so it is left out
      here and `CanonicalizeArrayClass` shows the two agree. */
  function Canonicalize(t: Type): (r: Result<Type>)
    decreases Size(t), 0
    ensures r.Ok? ==> TopCanonical(r.value)
    ensures r.Ok? ==> (IsPrimitiveClass(r.value) <==> IsPrimitiveClass(t))
    ensures TopCanonical(t) ==> r == Ok(t)
    ensures t.ClassType? ==> r.Ok?
    ensures WellFormed(t) && r.Ok? ==> Canonical(r.value)
    ensures t.ForeignParameterized? ==> r == (LiftSize(t.args); NewParameterized(t.owner, t.raw, Lift(t.args)))
    ensures t.ForeignGenericArray? ==> r == NewGenericArray(t.component)
    ensures t.ForeignWildcard? ==> r == (LiftSize(t.uppers); LiftSize(t.lowers); NewWildcard(Lift(t.uppers), Lift(t.lowers)))
  {
    match t
    case ClassType(c) =>
      if c.IsArray() then
        Ok(GenericArrayImpl(Canonicalize(ClassType(c.component)).value))
      else
        Ok(t)
    case ForeignParameterized(o, raw, args) =>
      LiftSize(args);
      NewParameterized(o, raw, Lift(args))
    case ForeignGenericArray(comp) =>
      NewGenericArray(comp)
    case ForeignWildcard(us, ls) =>
      LiftSize(us);
      LiftSize(ls);
      NewWildcard(Lift(us), Lift(ls))
    case _ =>
      Ok(t)
  }

  /** One slot of the `ParameterizedTypeImpl` constructor's loop: `null` is
      refused, then primitives, then the argument is canonicalized. */
  function CanonicalizeArgument(a: Option<Type>): (r: Result<Type>)
    decreases OptSize(a), 1
    ensures a.None? ==> r == Throws(NullPointer)
    ensures a.Some? ==> r == (if IsPrimitiveClass(a.value) then Throws(IllegalArgument) else Canonicalize(a.value))
    ensures r.Ok? ==> TopCanonical(r.value) && !IsPrimitiveClass(r.value)
    ensures r.Ok? && WellFormed(a.value) ==> Canonical(r.value)
  {
    if a.None? then Throws(NullPointer)
    else
      var _ :- CheckNotPrimitive(a.value);
      Canonicalize(a.value)
  }

  /** The whole loop, first argument first. */
  function CanonicalizeArguments(args: seq<Option<Type>>): (r: Result<seq<Type>>)
    decreases OptSeqSize(args), 2
    ensures r.Ok? ==> |r.value| == |args|
    ensures r.Ok? ==> forall i :: 0 <= i < |args| ==>
      && args[i].Some? && TopCanonical(r.value[i]) && !IsPrimitiveClass(r.value[i])
      && (WellFormed(args[i].value) ==> Canonical(r.value[i]))
  {
    if args == [] then Ok([])
    else
      var head :- CanonicalizeArgument(args[0]);
      var tail :- CanonicalizeArguments(args[1..]);
      Ok([head] + tail)
  }

  /** The owner check of the `ParameterizedTypeImpl` constructor: when the
      raw type is a class, an owner is required exactly when the class has an
      enclosing class, and the owner must then erase to that class. */
  function OwnerCheck(owner: Option<Type>, raw: Type): (r: Result<()>)
    ensures r.Ok? <==>
      || !raw.ClassType?
      || (owner.None? && raw.cls.EnclosingClass().None?)
      || (owner.Some? && raw.cls.EnclosingClass().Some? && GetRawType(owner) == Ok(raw.cls.EnclosingClass().value))
    ensures raw.ClassType? && owner.Some? && raw.cls.EnclosingClass().None? ==> r == Throws(IllegalArgument)
    ensures raw.ClassType? && owner.None? && raw.cls.EnclosingClass().Some? ==> r == Throws(IllegalArgument)
    ensures (&& raw.ClassType? && owner.Some? && raw.cls.EnclosingClass().Some?
             && GetRawType(owner).Ok? && GetRawType(owner).value != raw.cls.EnclosingClass().value)
            ==> r == Throws(IllegalArgument)
    ensures (&& raw.ClassType? && owner.Some? && raw.cls.EnclosingClass().Some?
             && GetRawType(owner).Throws?)
            ==> r == Throws(GetRawType(owner).exc)
  {
    if raw.ClassType? then
      var enclosing := raw.cls.EnclosingClass();
      if owner.Some? then
        if enclosing.None? then Throws(IllegalArgument)
        else
          var ownerRaw :- GetRawType(owner);
          if ownerRaw != enclosing.value then Throws(IllegalArgument) else Ok(())
      else if enclosing.Some? then Throws(IllegalArgument)
      else Ok(())
    else Ok(())
  }

  /** `new ParameterizedTypeImpl(ownerType, rawType, typeArguments)`:
      the owner check, then canonical copies of owner, raw type and
      arguments. */
  function NewParameterized(owner: Option<Type>, raw: Type, args: seq<Option<Type>>): (r: Result<Type>)
    decreases OptSize(owner) + Size(raw) + OptSeqSize(args), 3
    ensures OwnerCheck(owner, raw).Throws? ==> r == Throws(OwnerCheck(owner, raw).exc)
    ensures r.Ok? ==> OwnerCheck(owner, raw).Ok? && r.value.ParameterizedImpl?
    ensures r.Ok? ==> (r.value.owner.Some? <==> owner.Some?)
    ensures r.Ok? ==> CanonicalizeArguments(args) == Ok(r.value.args)
    ensures r.Ok? && (owner.Some? ==> WellFormed(owner.value)) && WellFormed(raw) && WellFormedArgs(args)
            ==> Canonical(r.value)
  {
    var _ :- OwnerCheck(owner, raw);
    var o :- if owner.None? then Ok(None) else (var x :- Canonicalize(owner.value); Ok(Some(x)));
    var rw :- Canonicalize(raw);
    var a :- CanonicalizeArguments(args);
    Ok(ParameterizedImpl(o, rw, a))
  }

  /** The constructor stores the canonical forms of owner and raw type, and
      it succeeds whenever the owner check passes and owner, raw type and
      every argument canonicalize. */
  lemma NewParameterizedStoresCanonicalForms(owner: Option<Type>, raw: Type, args: seq<Option<Type>>)
    ensures var r := NewParameterized(owner, raw, args);
      r.Ok? ==> (owner.Some? ==> Canonicalize(owner.value) == Ok(r.value.owner.value))
                && Canonicalize(raw) == Ok(r.value.raw)
    ensures (&& OwnerCheck(owner, raw).Ok?
             && (owner.Some? ==> Canonicalize(owner.value).Ok?)
             && Canonicalize(raw).Ok?
             && CanonicalizeArguments(args).Ok?) ==> NewParameterized(owner, raw, args).Ok?
  {
  }

  /** `new GenericArrayTypeImpl(componentType)`. */
  function NewGenericArray(comp: Type): (r: Result<Type>)
    decreases Size(comp), 1
    ensures r.Ok? ==> r.value.GenericArrayImpl? && Canonicalize(comp) == Ok(r.value.component)
    ensures r.Throws? ==> Canonicalize(comp).Throws?
    ensures r.Ok? && WellFormed(comp) ==> Canonical(r.value)
  {
    var c :- Canonicalize(comp);
    Ok(GenericArrayImpl(c))
  }

  /** `new WildcardTypeImpl(upperBounds, lowerBounds)`: at most one lower
      bound, exactly one upper bound; with a lower bound the upper bound must
      be `Object`; the kept bound must not be null or primitive. */
  function NewWildcard(us: seq<Option<Type>>, ls: seq<Option<Type>>): (r: Result<Type>)
    decreases OptSeqSize(us) + OptSeqSize(ls), 3
    ensures |ls| > 1 || |us| != 1 ==> r == Throws(IllegalArgument)
    ensures r.Ok? ==> r.value.WildcardImpl? && !IsPrimitiveClass(r.value.upper)
    ensures r.Ok? ==> (r.value.lower.Some? <==> |ls| == 1)
    ensures r.Ok? && |ls| == 1 ==>
      && us[0] == Some(ClassType(ObjectClass))
      && r.value.upper == ClassType(ObjectClass)
      && ls[0].Some? && !IsPrimitiveClass(ls[0].value)
      && Canonicalize(ls[0].value) == Ok(r.value.lower.value)
    ensures r.Ok? && |ls| == 0 ==> us[0].Some? && Canonicalize(us[0].value) == Ok(r.value.upper)
    ensures |ls| == 1 && |us| == 1 && ls[0].None? ==> r == Throws(NullPointer)
    ensures |ls| == 0 && |us| == 1 && us[0].None? ==> r == Throws(NullPointer)
    ensures |ls| == 1 && |us| == 1 && ls[0].Some? && IsPrimitiveClass(ls[0].value) ==> r == Throws(IllegalArgument)
    ensures (|ls| == 1 && |us| == 1 && ls[0].Some? && !IsPrimitiveClass(ls[0].value)
             && us[0] != Some(ClassType(ObjectClass))) ==> r == Throws(IllegalArgument)
    ensures |ls| == 0 && |us| == 1 && us[0].Some? && IsPrimitiveClass(us[0].value) ==> r == Throws(IllegalArgument)
    ensures (|ls| == 1 && |us| == 1 && us[0] == Some(ClassType(ObjectClass)) && ls[0].Some?
             && !IsPrimitiveClass(ls[0].value) && Canonicalize(ls[0].value).Ok?) ==> r.Ok?
    ensures (|ls| == 0 && |us| == 1 && us[0].Some? && !IsPrimitiveClass(us[0].value)
             && Canonicalize(us[0].value).Ok?) ==> r.Ok?
    ensures r.Ok? && (forall i :: 0 <= i < |us| ==> us[i].Some? ==> WellFormed(us[i].value))
            && (forall i :: 0 <= i < |ls| ==> ls[i].Some? ==> WellFormed(ls[i].value))
            ==> Canonical(r.value)
  {
    if |ls| > 1 then Throws(IllegalArgument)
    else if |us| != 1 then Throws(IllegalArgument)
    else if |ls| == 1 then
      if ls[0].None? then Throws(NullPointer)
      else
        var _ :- CheckNotPrimitive(ls[0].value);
        if us[0] != Some(ClassType(ObjectClass)) then Throws(IllegalArgument)
        else
          var lower :- Canonicalize(ls[0].value);
          Ok(WildcardImpl(ClassType(ObjectClass), Some(lower)))
    else
      if us[0].None? then Throws(NullPointer)
      else
        var _ :- CheckNotPrimitive(us[0].value);
        var upper :- Canonicalize(us[0].value);
        Ok(WildcardImpl(upper, None))
  }

  // ---------------------------------------------------------------------
  // The constructor's loop, as the source runs it
  // ---------------------------------------------------------------------

  /** The `ParameterizedTypeImpl` constructor: the owner check, canonical
      owner and raw type, then the arguments (see `CopyArguments`). */
  method ConstructParameterized(owner: Option<Type>, raw: Type, typeArguments: array<Option<Type>>)
    returns (r: Result<Type>)
    ensures r == NewParameterized(owner, raw, typeArguments[..])
  {
    var check := OwnerCheck(owner, raw);
    if check.Throws? {
      return Throws(check.exc);
    }
    var o: Option<Type> := None;
    if owner.Some? {
      var co := Canonicalize(owner.value);
      if co.Throws? {
        return Throws(co.exc);
      }
      o := Some(co.value);
    }
    var cr := Canonicalize(raw);
    if cr.Throws? {
      return Throws(cr.exc);
    }
    var args := CopyArguments(typeArguments);
    if args.Throws? {
      return Throws(args.exc);
    }
    r := Ok(ParameterizedImpl(o, cr.value, args.value));
  }

  /** The constructor's loop: it clones the argument array and rewrites each
      slot of the clone with its canonical form, refusing the first null or
      primitive argument. The caller's array is not touched. */
  method CopyArguments(typeArguments: array<Option<Type>>) returns (r: Result<seq<Type>>)
    ensures r == CanonicalizeArguments(typeArguments[..])
  {
    ghost var args := typeArguments[..];
    var copy := new Option<Type>[typeArguments.Length](i requires 0 <= i < typeArguments.Length reads typeArguments => typeArguments[i]);
    var t := 0;
    while t < copy.Length
      invariant 0 <= t <= copy.Length == |args|
      invariant forall k :: t <= k < copy.Length ==> copy[k] == args[k]
      invariant forall k :: 0 <= k < t ==> CanonicalizeArgument(args[k]).Ok?
      invariant forall k :: 0 <= k < t ==> copy[k] == Some(CanonicalizeArgument(args[k]).value)
    {
      if copy[t].None? {
        ArgumentsFirstFailure(args, t);
        return Throws(NullPointer);
      }
      var notPrimitive := CheckNotPrimitive(copy[t].value);
      if notPrimitive.Throws? {
        ArgumentsFirstFailure(args, t);
        return Throws(notPrimitive.exc);
      }
      var c := Canonicalize(copy[t].value);
      if c.Throws? {
        ArgumentsFirstFailure(args, t);
        return Throws(c.exc);
      }
      copy[t] := Some(c.value);
      t := t + 1;
    }
    ArgumentsAllOk(args);
    var values := copy[..];
    r := Ok(seq(|values|, i requires 0 <= i < |values| && values[i].Some? => values[i].value));
    assert r.value == CanonicalizeArguments(args).value;
  }

  /** Arguments are checked in order: when every one is accepted, the
      stored arguments are their canonical forms, position by position. */
  lemma {:induction false} ArgumentsAllOk(args: seq<Option<Type>>)
    requires forall i :: 0 <= i < |args| ==> CanonicalizeArgument(args[i]).Ok?
    ensures CanonicalizeArguments(args).Ok?
    ensures forall i :: 0 <= i < |args| ==>
      CanonicalizeArguments(args).value[i] == CanonicalizeArgument(args[i]).value
  {
    if args != [] {
      assert forall i :: 0 <= i < |args| - 1 ==> args[1..][i] == args[i + 1];
      ArgumentsAllOk(args[1..]);
      var head := CanonicalizeArgument(args[0]).value;
      var rest := CanonicalizeArguments(args[1..]).value;
      assert CanonicalizeArguments(args) == Ok([head] + rest);
      forall i | 0 <= i < |args|
        ensures CanonicalizeArguments(args).value[i] == CanonicalizeArgument(args[i]).value
      {
        if i > 0 {
          assert ([head] + rest)[i] == rest[i - 1];
          assert args[1..][i - 1] == args[i];
        }
      }
    }
  }

  /** ...and the first refused argument decides the exception. */
  lemma {:induction false} ArgumentsFirstFailure(args: seq<Option<Type>>, t: nat)
    requires t < |args|
    requires forall i :: 0 <= i < t ==> CanonicalizeArgument(args[i]).Ok?
    requires CanonicalizeArgument(args[t]).Throws?
    ensures CanonicalizeArguments(args) == Throws(CanonicalizeArgument(args[t]).exc)
  {
    if t > 0 {
      ArgumentsFirstFailure(args[1..], t - 1);
    }
  }

  // ---------------------------------------------------------------------
  // removeSubtypeWildcard
  // ---------------------------------------------------------------------

  /** `removeSubtypeWildcard`: `? extends X` becomes `X`; other types and
      wildcards with a lower bound are kept; a wildcard without lower bound
      whose upper bounds are not exactly one is refused. */
  function RemoveSubtypeWildcard(t: Type): (r: Result<Type>)
    ensures !IsWildcard(t) ==> r == Ok(t)
    ensures IsWildcard(t) && LowerBounds(t) != [] ==> r == Ok(t)
    ensures IsWildcard(t) && LowerBounds(t) == [] && |UpperBounds(t)| != 1 ==> r == Throws(IllegalArgument)
    ensures IsWildcard(t) && LowerBounds(t) == [] && |UpperBounds(t)| == 1 ==> r == Ok(UpperBounds(t)[0])
  {
    if !IsWildcard(t) then Ok(t)
    else if |LowerBounds(t)| != 0 then Ok(t)
    else if |UpperBounds(t)| != 1 then Throws(IllegalArgument)
    else Ok(UpperBounds(t)[0])
  }

  // ---------------------------------------------------------------------
  // Properties of canonicalize
  // ---------------------------------------------------------------------

  /** Canonicalizing twice is canonicalizing once. */
  lemma CanonicalizeIdempotent(t: Type)
    requires Canonicalize(t).Ok?
    ensures Canonicalize(Canonicalize(t).value) == Canonicalize(t)
  {
  }

  /** Line for line what the source does with an array class: canonicalize
      the component, then hand it to the `GenericArrayTypeImpl` constructor. */
  lemma CanonicalizeArrayClass(c: JClass)
    requires c.IsArray()
    ensures Canonicalize(ClassType(c)) == NewGenericArray(Canonicalize(ClassType(c.component)).value)
  {
  }

  /** An array class and its canonical form are equal for `Types.equals`:
      the `Class`/generic-array rule exists for exactly this. */
  lemma {:induction false} ClassEqualsItsCanonicalForm(c: JClass)
    ensures TypesEquals(Some(ClassType(c)), Some(Canonicalize(ClassType(c)).value))
  {
    if c.IsArray() {
      ClassEqualsItsCanonicalForm(c.component);
      var g := Canonicalize(ClassType(c)).value;
      assert g == GenericArrayImpl(Canonicalize(ClassType(c.component)).value);
      assert EqualsByKind(ClassType(c), g);
    }
  }

  /** The promise that a type and its canonical form are equal for
      `Types.equals` holds for classes but not beyond them. A foreign
      `List<String[]>` whose argument is reported as the class `String[]`
      canonicalizes to a `ParameterizedTypeImpl` whose argument is a
      `GenericArrayTypeImpl`, and `Types.equals` compares the arguments
      with `Arrays.equals`, where `Class.equals` and
      `GenericArrayTypeImpl.equals` each refuse the other. */
  lemma CanonicalizeChangesArrayArguments()
    ensures var list := Named("java.util.List", false, true, None);
      var str := Named("java.lang.String", false, false, None);
      var p := ForeignParameterized(None, ClassType(list), [ClassType(ArrayOf(str))]);
      && Canonicalize(p) == Ok(ParameterizedImpl(None, ClassType(list), [GenericArrayImpl(ClassType(str))]))
      && !TypesEquals(Some(p), Some(Canonicalize(p).value))
  {
    var list := Named("java.util.List", false, true, None);
    var str := Named("java.lang.String", false, false, None);
    var p := ForeignParameterized(None, ClassType(list), [ClassType(ArrayOf(str))]);
    var q := ParameterizedImpl(None, ClassType(list), [GenericArrayImpl(ClassType(str))]);
    assert Canonicalize(ClassType(ArrayOf(str))) == Ok(GenericArrayImpl(ClassType(str)));
    var slots := [Some(ClassType(ArrayOf(str)))];
    assert Lift(p.args) == slots;
    assert CanonicalizeArgument(slots[0]) == Ok(GenericArrayImpl(ClassType(str)));
    assert CanonicalizeArguments(slots[1..]) == Ok([]);
    assert [GenericArrayImpl(ClassType(str))] + [] == [GenericArrayImpl(ClassType(str))];
    assert CanonicalizeArguments(slots) == Ok([GenericArrayImpl(ClassType(str))]);
    assert Canonicalize(p) == Ok(q);
    assert !ObjectEquals(ClassType(ArrayOf(str)), GenericArrayImpl(ClassType(str)));
    assert !ArraysEquals(p.args, q.args);
  }

  /** An array class: where `Types.equals` falls back on `Class.equals`,
      such a class and its canonical `GenericArrayTypeImpl` differ. */
  predicate ArrayClass(t: Type) {
    t.ClassType? && t.cls.IsArray()
  }

  /** No array class appears where `Types.equals` compares with
      `Object.equals`: as the raw type, a type argument or a bound of a
      foreign type, at any depth. */
  predicate NoArrayClassSlot(t: Type) {
    match t
    case ForeignParameterized(o, raw, args) =>
      && (o.Some? ==> NoArrayClassSlot(o.value))
      && !ArrayClass(raw) && NoArrayClassSlot(raw)
      && forall i :: 0 <= i < |args| ==> !ArrayClass(args[i]) && NoArrayClassSlot(args[i])
    case ForeignGenericArray(c) => NoArrayClassSlot(c)
    case ForeignWildcard(us, ls) =>
      && (forall i :: 0 <= i < |us| ==> !ArrayClass(us[i]) && NoArrayClassSlot(us[i]))
      && (forall i :: 0 <= i < |ls| ==> !ArrayClass(ls[i]) && NoArrayClassSlot(ls[i]))
    case _ => true
  }

  /** The source's promise that the result is functionally equal to the
      input holds for every type without an array class in such a slot:
      the input and its canonical form are `Types.equals`. */
  lemma {:induction false} CanonicalizeKeepsEquality(t: Type)
    requires NoArrayClassSlot(t) && Canonicalize(t).Ok?
    ensures TypesEquals(Some(t), Some(Canonicalize(t).value))
    decreases Size(t), 1
  {
    var c := Canonicalize(t).value;
    match t
    case ClassType(cls) =>
      ClassEqualsItsCanonicalForm(cls);
    case ForeignParameterized(o, raw, args) =>
      LiftSize(args);
      NewParameterizedStoresCanonicalForms(o, raw, Lift(args));
      if o.Some? {
        assert OptSize(o) == Size(o.value);
        CanonicalizeKeepsEquality(o.value);
      }
      SlotKeepsEquality(raw);
      ArgsKeepEquality(args);
      assert EqualsByKind(t, c);
    case ForeignGenericArray(comp) =>
      CanonicalizeKeepsEquality(comp);
      assert EqualsByKind(t, c);
    case ForeignWildcard(us, ls) =>
      LiftSize(us);
      LiftSize(ls);
      if |ls| == 1 {
        assert OptSeqSize(Lift(ls)) == Size(ls[0]) + OptSeqSize(Lift(ls)[1..]);
        SlotKeepsEquality(ls[0]);
        ArraysEqualsReflexive([ClassType(ObjectClass)]);
        assert ArraysEquals(ls, [c.lower.value]);
      } else {
        assert OptSeqSize(Lift(us)) == Size(us[0]) + OptSeqSize(Lift(us)[1..]);
        SlotKeepsEquality(us[0]);
        assert ArraysEquals(us, [c.upper]);
      }
      assert EqualsByKind(t, c);
    case _ =>
  }

  /** One slot compared with `Object.equals`: a type that is not an array
      class equals its canonical form. */
  lemma {:induction false} SlotKeepsEquality(x: Type)
    requires !ArrayClass(x) && NoArrayClassSlot(x) && Canonicalize(x).Ok?
    ensures ObjectEquals(x, Canonicalize(x).value)
    decreases Size(x), 2
  {
    if !x.ClassType? && !x.Unsupported? {
      CanonicalizeKeepsEquality(x);
    }
  }

  /** The arguments compared with `Arrays.equals`: each equals its
      canonical form, so the arrays are equal. */
  lemma {:induction false} ArgsKeepEquality(args: seq<Type>)
    requires forall i :: 0 <= i < |args| ==> !ArrayClass(args[i]) && NoArrayClassSlot(args[i])
    requires CanonicalizeArguments(Lift(args)).Ok?
    ensures ArraysEquals(args, CanonicalizeArguments(Lift(args)).value)
    decreases SeqSize(args), 3
  {
    if args != [] {
      var slots := Lift(args);
      assert slots[1..] == Lift(args[1..]);
      var head := CanonicalizeArgument(slots[0]).value;
      var rest := CanonicalizeArguments(slots[1..]).value;
      assert CanonicalizeArguments(slots) == Ok([head] + rest);
      SlotKeepsEquality(args[0]);
      ArgsKeepEquality(args[1..]);
      assert ([head] + rest)[1..] == rest;
    }
  }

  /** `getRawType` undoes `canonicalize` on every class the JVM can have. */
  lemma {:induction false} RawTypeOfCanonicalClass(c: JClass)
    requires RealClass(c)
    ensures GetRawType(Some(Canonicalize(ClassType(c)).value)) == Ok(c)
  {
    if c.IsArray() {
      RawTypeOfCanonicalClass(c.component);
      var g := Canonicalize(ClassType(c)).value;
      assert g == GenericArrayImpl(Canonicalize(ClassType(c.component)).value);
      assert RawTypeOf(g.component) == Ok(c.component);
    }
  }

  /** Two separately obtained descriptions of one type, once canonicalized,
      are equal for `Types.equals` exactly when they are the same value, so
      canonical types can serve as keys. */
  lemma CanonicalFormsCompareAsValues(a: Type, b: Type)
    requires WellFormed(a) && WellFormed(b)
    requires Canonicalize(a).Ok? && Canonicalize(b).Ok?
    ensures TypesEquals(Some(Canonicalize(a).value), Some(Canonicalize(b).value))
            <==> Canonicalize(a).value == Canonicalize(b).value
  {
    CanonicalEqualsIsIdentity(Some(Canonicalize(a).value), Some(Canonicalize(b).value));
  }

  // ---------------------------------------------------------------------
  // toString
  // ---------------------------------------------------------------------

  /** `typeToString` of a canonical type: a class prints its name, the
      helper classes print with their `toString` formats, a type variable
      prints its name and an unsupported type its own text. */
  function TypeToString(t: Type): (r: string)
    requires Canonical(t)
    ensures t.ParameterizedImpl? ==> TypeToString(t.raw) <= r
    ensures t.ParameterizedImpl? && t.args != [] ==> EndsWith(r, ">")
    ensures t.GenericArrayImpl? ==> EndsWith(r, "[]")
    ensures t.WildcardImpl? ==> "?" <= r
  {
    match t
    case ClassType(c) => c.GetName()
    case ParameterizedImpl(_, raw, args) =>
      TypeToString(raw) + (if args == [] then "" else "<" + Join(ArgumentStrings(args), ", ") + ">")
    case GenericArrayImpl(c) => TypeToString(c) + "[]"
    case WildcardImpl(u, l) =>
      if l.Some? then "? super " + TypeToString(l.value)
      else if u == ClassType(ObjectClass) then "?"
      else "? extends " + TypeToString(u)
    case TypeVariable(_, n) => n
    case Unsupported(_, text) => text
  }

  function ArgumentStrings(args: seq<Type>): (r: seq<string>)
    requires forall i :: 0 <= i < |args| ==> Canonical(args[i])
    ensures |r| == |args|
  {
    seq(|args|, i requires 0 <= i < |args| => TypeToString(args[i]))
  }

  /** `ParameterizedTypeImpl.toString`, built with a `StringBuilder` the way
      the source does: raw type, then `<`, the arguments separated by `, `,
      and `>`, or the raw type alone when there are no arguments. */
  method ParameterizedToString(p: Type) returns (s: string)
    requires p.ParameterizedImpl? && Canonical(p)
    ensures s == TypeToString(p)
  {
    var args := p.args;
    s := TypeToString(p.raw);
    if |args| == 0 {
      return;
    }
    ghost var parts := ArgumentStrings(args);
    s := s + "<" + TypeToString(args[0]);
    assert parts[..1] == [parts[0]];
    var i := 1;
    while i < |args|
      invariant 1 <= i <= |args|
      invariant s == TypeToString(p.raw) + "<" + Join(parts[..i], ", ")
    {
      s := s + ", " + TypeToString(args[i]);
      assert parts[..i + 1][..i] == parts[..i];
      i := i + 1;
    }
    assert parts[..i] == parts;
    s := s + ">";
  }
}
