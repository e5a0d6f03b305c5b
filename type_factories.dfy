/** The public factories of `Types`: parameterized types with and without an
    owner, generic arrays, and the two wildcard shorthands. Each builds one
    of the helper objects of `Util`. */
module TypeFactories {
  import opened Jvm
  import opened Reflect
  import opened Types
  import opened Util

  /** `Types.newParameterizedType`: at least one type argument, no owner. */
  function NewParameterizedType(raw: Type, typeArguments: seq<Option<Type>>): (r: Result<Type>)
    ensures typeArguments == [] ==> r == Throws(IllegalArgument)
    ensures r.Ok? ==> r.value.ParameterizedImpl? && r.value.owner.None? && |r.value.args| == |typeArguments| > 0
    ensures typeArguments != [] ==> r == NewParameterized(None, raw, typeArguments)
  {
    if |typeArguments| == 0 then Throws(IllegalArgument)
    else NewParameterized(None, raw, typeArguments)
  }

  /** `Types.newParameterizedTypeWithOwner`: at least one type argument. */
  function NewParameterizedTypeWithOwner(owner: Option<Type>, raw: Type, typeArguments: seq<Option<Type>>): (r: Result<Type>)
    ensures typeArguments == [] ==> r == Throws(IllegalArgument)
    ensures r.Ok? ==> r.value.ParameterizedImpl? && (r.value.owner.Some? <==> owner.Some?) && |r.value.args| == |typeArguments| > 0
    ensures typeArguments != [] ==> r == NewParameterized(owner, raw, typeArguments)
  {
    if |typeArguments| == 0 then Throws(IllegalArgument)
    else NewParameterized(owner, raw, typeArguments)
  }

  /** `Types.arrayOf`: a generic array of the canonical component. */
  function GenericArrayOf(componentType: Type): (r: Result<Type>)
    ensures r.Ok? <==> Canonicalize(componentType).Ok?
    ensures r.Ok? ==> r.value == GenericArrayImpl(Canonicalize(componentType).value)
  {
    NewGenericArray(componentType)
  }

  /** `Types.subtypeOf`: `? extends bound`, or the upper bounds of a wildcard
      argument; never a lower bound. */
  function SubtypeOf(bound: Option<Type>): (r: Result<Type>)
    ensures bound.None? ==> r == Throws(NullPointer)
    ensures r.Ok? ==> r.value.WildcardImpl? && r.value.lower.None?
    ensures bound.Some? && IsWildcard(bound.value) ==> r == NewWildcard(Lift(UpperBounds(bound.value)), [])
    ensures bound.Some? && !IsWildcard(bound.value) ==>
      if IsPrimitiveClass(bound.value) then r == Throws(IllegalArgument)
      else (r.Ok? <==> Canonicalize(bound.value).Ok?) && (r.Ok? ==> r.value.upper == Canonicalize(bound.value).value)
  {
    var upperBounds := if bound.Some? && IsWildcard(bound.value) then Lift(UpperBounds(bound.value)) else [bound];
    NewWildcard(upperBounds, [])
  }

  /** `Types.supertypeOf`: `? super bound`, or the lower bounds of a wildcard
      argument; the upper bound is always `Object`. */
  function SupertypeOf(bound: Option<Type>): (r: Result<Type>)
    ensures bound.None? ==> r == Throws(NullPointer)
    ensures r.Ok? ==> r.value.WildcardImpl? && r.value.upper == ClassType(ObjectClass)
    ensures bound.Some? && IsWildcard(bound.value) ==> r == NewWildcard([Some(ClassType(ObjectClass))], Lift(LowerBounds(bound.value)))
    ensures bound.Some? && !IsWildcard(bound.value) ==>
      if IsPrimitiveClass(bound.value) then r == Throws(IllegalArgument)
      else (r.Ok? <==> Canonicalize(bound.value).Ok?) && (r.Ok? ==> r.value.lower == Some(Canonicalize(bound.value).value))
  {
    var lowerBounds := if bound.Some? && IsWildcard(bound.value) then Lift(LowerBounds(bound.value)) else [bound];
    NewWildcard([Some(ClassType(ObjectClass))], lowerBounds)
  }

  // ---------------------------------------------------------------------
  // How the factories fit together
  // ---------------------------------------------------------------------

  /** `removeSubtypeWildcard` undoes `subtypeOf`: it hands back the bound, as
      canonicalized by the wildcard's constructor. */
  lemma RemoveSubtypeWildcardUndoesSubtypeOf(bound: Type)
    requires !IsWildcard(bound) && !IsPrimitiveClass(bound) && Canonicalize(bound).Ok?
    ensures SubtypeOf(Some(bound)).Ok?
    ensures RemoveSubtypeWildcard(SubtypeOf(Some(bound)).value) == Canonicalize(bound)
  {
  }

  /** `supertypeOf` wildcards are kept by `removeSubtypeWildcard`. */
  lemma RemoveSubtypeWildcardKeepsSupertypeOf(bound: Type)
    requires SupertypeOf(Some(bound)).Ok? && !IsWildcard(bound)
    ensures RemoveSubtypeWildcard(SupertypeOf(Some(bound)).value) == SupertypeOf(Some(bound))
  {
  }

  /** Applying `subtypeOf` to its own result changes nothing: the wildcard's
      single upper bound is already canonical. */
  lemma SubtypeOfIdempotent(bound: Option<Type>)
    requires SubtypeOf(bound).Ok?
    ensures SubtypeOf(Some(SubtypeOf(bound).value)) == SubtypeOf(bound)
  {
  }

  /** Likewise for `supertypeOf`. */
  lemma SupertypeOfIdempotent(bound: Option<Type>)
    requires SupertypeOf(bound).Ok?
    ensures SupertypeOf(Some(SupertypeOf(bound).value)) == SupertypeOf(bound)
  {
  }

  /** The raw type of `newParameterizedType(C, ...)` for a class `C` that is
      not an array is `C` itself. */
  lemma ParameterizedRawType(c: JClass, typeArguments: seq<Option<Type>>)
    requires !c.IsArray()
    requires NewParameterizedType(ClassType(c), typeArguments).Ok?
    ensures GetRawType(Some(NewParameterizedType(ClassType(c), typeArguments).value)) == Ok(c)
  {
  }

  /** The raw type of `arrayOf(C)` for a class `C` is the array class of `C`,
      for every class the JVM can have except `void`. */
  lemma GenericArrayRawType(c: JClass)
    requires RealClass(c) && !IsVoid(c)
    ensures GenericArrayOf(ClassType(c)).Ok?
    ensures GetRawType(Some(GenericArrayOf(ClassType(c)).value)) == Ok(ArrayOf(c))
  {
    RawTypeOfCanonicalClass(c);
  }

  // ---------------------------------------------------------------------
  // How the factories' results print
  // ---------------------------------------------------------------------

  /** `arrayOf(X)` prints as `X[]`. */
  lemma GenericArrayOfToString(componentType: Type)
    requires Canonical(componentType)
    ensures GenericArrayOf(componentType).Ok?
    ensures Canonical(GenericArrayOf(componentType).value)
    ensures TypeToString(GenericArrayOf(componentType).value) == TypeToString(componentType) + "[]"
  {
  }

  /** `subtypeOf(X)` prints as `? extends X`, or `?` when `X` is `Object`. */
  lemma SubtypeOfToString(bound: Type)
    requires Canonical(bound) && !IsWildcard(bound) && !IsPrimitiveClass(bound)
    ensures SubtypeOf(Some(bound)).Ok?
    ensures Canonical(SubtypeOf(Some(bound)).value)
    ensures TypeToString(SubtypeOf(Some(bound)).value)
            == if bound == ClassType(ObjectClass) then "?" else "? extends " + TypeToString(bound)
  {
  }

  /** `supertypeOf(X)` prints as `? super X`. */
  lemma SupertypeOfToString(bound: Type)
    requires Canonical(bound) && !IsWildcard(bound) && !IsPrimitiveClass(bound)
    ensures SupertypeOf(Some(bound)).Ok?
    ensures Canonical(SupertypeOf(Some(bound)).value)
    ensures TypeToString(SupertypeOf(Some(bound)).value) == "? super " + TypeToString(bound)
  {
  }
}
