/** `Types.getRawType` and `Types.equals`: the raw class behind a type and
    the structural equality that makes two separately obtained descriptions
    of one type compare equal. */
module Types {
  import opened Jvm
  import opened Reflect

  /** A nullable class reference seen as a nullable `Type`. */
  function ClassAsType(c: Option<JClass>): Option<Type> {
    if c.Some? then Some(ClassType(c.value)) else None
  }

  lemma ComponentSize(c: JClass)
    ensures OptSize(ClassAsType(c.ComponentType())) <= Size(ClassType(c))
  {
  }

  // ---------------------------------------------------------------------
  // getRawType
  // ---------------------------------------------------------------------

  /** The class of `Array.newInstance(c, 0)`; `void` has no array class. */
  function ArrayClassOf(c: JClass): (r: Result<JClass>)
    ensures r.Ok? <==> !IsVoid(c)
    ensures r.Throws? ==> r.exc == IllegalArgument
    ensures r.Ok? ==> r.value.IsArray() && r.value.ComponentType() == Some(c)
  {
    if IsVoid(c) then Throws(IllegalArgument) else Ok(ArrayOf(c))
  }

  /** `Types.getRawType`: the class a type erases to; `null` is refused. */
  function GetRawType(t: Option<Type>): (r: Result<JClass>)
    ensures t.None? ==> r == Throws(IllegalArgument)
    ensures r.Ok? ==> t.Some? && (RealClasses(t.value) ==> RealClass(r.value))
  {
    if t.None? then Throws(IllegalArgument) else RawTypeOf(t.value)
  }

  /** `getRawType` of a non-null type. A parameterized type whose raw type
      is not a class fails the cast; a wildcard without upper bounds fails
      the index; unsupported types are refused. */
  function RawTypeOf(t: Type): (r: Result<JClass>)
    decreases Size(t)
    ensures r.Ok? && RealClasses(t) ==> RealClass(r.value)
  {
    if t.ClassType? then Ok(t.cls)
    else if IsParameterized(t) then
      if t.raw.ClassType? then
        assert RealClasses(t) ==> RealClasses(t.raw);
        Ok(t.raw.cls)
      else Throws(ClassCast)
    else if IsGenericArray(t) then
      var e :- RawTypeOf(t.component);
      ArrayClassOf(e)
    else if t.TypeVariable? then Ok(ObjectClass)
    else if IsWildcard(t) then
      var ub := UpperBounds(t);
      if ub == [] then Throws(IndexOutOfBounds)
      else
        BoundsSize(t);
        FirstElementSize(ub);
        RawTypeOf(ub[0])
    else Throws(IllegalArgument)
  }

  /** The cases of `getRawType`, one per reflect interface. */
  lemma RawTypeCases(t: Type)
    ensures t.ClassType? ==> RawTypeOf(t) == Ok(t.cls)
    ensures IsParameterized(t) && t.raw.ClassType? ==> RawTypeOf(t) == Ok(t.raw.cls)
    ensures IsParameterized(t) && !t.raw.ClassType? ==> RawTypeOf(t) == Throws(ClassCast)
    ensures IsGenericArray(t) && RawTypeOf(t.component).Ok? ==> RawTypeOf(t) == ArrayClassOf(RawTypeOf(t.component).value)
    ensures t.TypeVariable? ==> RawTypeOf(t) == Ok(ObjectClass)
    ensures IsWildcard(t) && UpperBounds(t) != [] ==> RawTypeOf(t) == RawTypeOf(UpperBounds(t)[0])
    ensures IsWildcard(t) && UpperBounds(t) == [] ==> RawTypeOf(t) == Throws(IndexOutOfBounds)
    ensures t.Unsupported? ==> RawTypeOf(t) == Throws(IllegalArgument)
  {
  }

  lemma {:induction false} FirstElementSize(s: seq<Type>)
    requires s != []
    ensures Size(s[0]) <= SeqSize(s)
  {
  }

  // ---------------------------------------------------------------------
  // equals
  // ---------------------------------------------------------------------

  /** `Types.equals(a, b)`. Reference identity of the two arguments is
      datatype equality here (see `ByKindReflexive` for why that is sound). */
  predicate TypesEquals(a: Option<Type>, b: Option<Type>)
    decreases OptSize(a) + OptSize(b), 1
    ensures a == b ==> TypesEquals(a, b)
    ensures TypesEquals(a, b) ==> (a.None? <==> b.None?)
  {
    a == b || (a.Some? && b.Some? && EqualsByKind(a.value, b.value))
  }

  /** The case analysis of `Types.equals` after the identity test. */
  predicate EqualsByKind(a: Type, b: Type)
    decreases Size(a) + Size(b), 0
    ensures EqualsByKind(a, b) ==>
      SameInterface(a, b) || (a.ClassType? && IsGenericArray(b)) || (IsGenericArray(a) && b.ClassType?)
  {
    if a.ClassType? then
      if IsGenericArray(b) then ComponentSize(a.cls); TypesEquals(ClassAsType(a.cls.ComponentType()), Some(b.component))
      else a == b
    else if IsParameterized(a) then
      && IsParameterized(b)
      && TypesEquals(a.owner, b.owner)
      && ObjectEquals(a.raw, b.raw)
      && ArraysEquals(a.args, b.args)
    else if IsGenericArray(a) then
      if b.ClassType? then ComponentSize(b.cls); TypesEquals(ClassAsType(b.cls.ComponentType()), Some(a.component))
      else IsGenericArray(b) && TypesEquals(Some(a.component), Some(b.component))
    else if IsWildcard(a) then
      && IsWildcard(b)
      && (BoundsSize(a); BoundsSize(b);
          && ArraysEquals(UpperBounds(a), UpperBounds(b))
          && ArraysEquals(LowerBounds(a), LowerBounds(b)))
    else if a.TypeVariable? then
      b.TypeVariable? && a.decl == b.decl && a.name == b.name
    else
      false
  }

  /** `x.equals(y)` for a non-null `x`: `Class` and unsupported types use
      identity; the helper classes (and, in this model, every other reflect
      implementation) accept an instance of the same interface that
      `Types.equals` accepts. */
  predicate ObjectEquals(x: Type, y: Type)
    decreases Size(x) + Size(y), 2
    ensures ObjectEquals(x, y) ==> x == y || SameInterface(x, y)
  {
    if x.ClassType? || x.Unsupported? then x == y
    else SameInterface(x, y) && TypesEquals(Some(x), Some(y))
  }

  /** `Arrays.equals` over two arrays of non-null types. */
  predicate ArraysEquals(xs: seq<Type>, ys: seq<Type>)
    decreases SeqSize(xs) + SeqSize(ys), 3
    ensures ArraysEquals(xs, ys) ==> |xs| == |ys|
  {
    && |xs| == |ys|
    && (xs == [] || (ObjectEquals(xs[0], ys[0]) && ArraysEquals(xs[1..], ys[1..])))
  }

  // ---------------------------------------------------------------------
  // Properties of equals
  // ---------------------------------------------------------------------

  /** Every type equals itself; two nulls are equal; null equals nothing else. */
  lemma IdentityAndNull(a: Option<Type>, b: Option<Type>)
    ensures TypesEquals(a, a)
    ensures a.None? ==> (TypesEquals(a, b) <==> b.None?)
    ensures b.None? ==> (TypesEquals(a, b) <==> a.None?)
  {
  }

  lemma {:induction false} ArraysEqualsReflexive(xs: seq<Type>)
    ensures ArraysEquals(xs, xs)
  {
    if xs != [] {
      ArraysEqualsReflexive(xs[1..]);
    }
  }

  /** The identity test at the head of `Types.equals` is only a shortcut:
      on every kind but the unsupported one, the case analysis alone already
      finds a type equal to itself. So modelling identity as datatype
      equality loses nothing (an unsupported type's `id` is its identity). */
  lemma {:induction false} ByKindReflexive(a: Type)
    requires !a.Unsupported?
    ensures EqualsByKind(a, a)
  {
    match a
    case ParameterizedImpl(_, _, args) => ArraysEqualsReflexive(args);
    case ForeignParameterized(_, _, args) => ArraysEqualsReflexive(args);
    case WildcardImpl(_, _) =>
      ArraysEqualsReflexive(UpperBounds(a));
      ArraysEqualsReflexive(LowerBounds(a));
    case ForeignWildcard(us, ls) =>
      ArraysEqualsReflexive(us);
      ArraysEqualsReflexive(ls);
    case _ =>
  }

  /** `Types.equals` is symmetric on all arguments. */
  lemma {:induction false} TypesEqualsSymmetric(a: Option<Type>, b: Option<Type>)
    ensures TypesEquals(a, b) == TypesEquals(b, a)
    decreases OptSize(a) + OptSize(b), 1
  {
    if a.Some? && b.Some? {
      ByKindSymmetric(a.value, b.value);
    }
  }

  lemma {:induction false} ByKindSymmetric(a: Type, b: Type)
    ensures EqualsByKind(a, b) == EqualsByKind(b, a)
    decreases Size(a) + Size(b), 0
  {
    if IsParameterized(a) && IsParameterized(b) {
      TypesEqualsSymmetric(a.owner, b.owner);
      ObjectEqualsSymmetric(a.raw, b.raw);
      ArraysEqualsSymmetric(a.args, b.args);
    } else if IsGenericArray(a) && IsGenericArray(b) {
      TypesEqualsSymmetric(Some(a.component), Some(b.component));
    } else if IsWildcard(a) && IsWildcard(b) {
      BoundsSize(a);
      BoundsSize(b);
      ArraysEqualsSymmetric(UpperBounds(a), UpperBounds(b));
      ArraysEqualsSymmetric(LowerBounds(a), LowerBounds(b));
    }
  }

  lemma {:induction false} ObjectEqualsSymmetric(x: Type, y: Type)
    ensures ObjectEquals(x, y) == ObjectEquals(y, x)
    decreases Size(x) + Size(y), 2
  {
    TypesEqualsSymmetric(Some(x), Some(y));
  }

  lemma {:induction false} ArraysEqualsSymmetric(xs: seq<Type>, ys: seq<Type>)
    ensures ArraysEquals(xs, ys) == ArraysEquals(ys, xs)
    decreases SeqSize(xs) + SeqSize(ys), 3
  {
    if |xs| == |ys| && xs != [] {
      ObjectEqualsSymmetric(xs[0], ys[0]);
      ArraysEqualsSymmetric(xs[1..], ys[1..]);
    }
  }

  /** A `Class` and a generic array are compared through their component
      types, and the comparison is the same in both argument orders. */
  lemma ClassVersusGenericArray(c: JClass, g: Type)
    requires IsGenericArray(g)
    ensures TypesEquals(Some(ClassType(c)), Some(g)) == TypesEquals(ClassAsType(c.ComponentType()), Some(g.component))
    ensures TypesEquals(Some(g), Some(ClassType(c))) == TypesEquals(ClassAsType(c.ComponentType()), Some(g.component))
  {
  }

  /** Types of different kinds are unequal (except the `Class`/generic
      array pairing), and an unsupported type equals only itself. */
  lemma UnequalKinds(a: Type, b: Type)
    requires a != b
    requires || a.Unsupported? || b.Unsupported?
             || (!SameInterface(a, b) && !(a.ClassType? && IsGenericArray(b)) && !(IsGenericArray(a) && b.ClassType?))
    ensures !TypesEquals(Some(a), Some(b))
  {
  }

  /** Classes are equal to each other only when identical. */
  lemma ClassEquality(a: JClass, b: JClass)
    ensures TypesEquals(Some(ClassType(a)), Some(ClassType(b))) <==> a == b
  {
  }

  /** Two parameterized types are equal exactly when their owners are equal,
      their raw types are equal and their arguments are equal slot by slot;
      the identity shortcut adds nothing. */
  lemma ParameterizedEquality(a: Type, b: Type)
    requires IsParameterized(a) && IsParameterized(b)
    ensures TypesEquals(Some(a), Some(b)) <==>
      TypesEquals(a.owner, b.owner) && ObjectEquals(a.raw, b.raw) && ArraysEquals(a.args, b.args)
  {
    if a == b {
      ByKindReflexive(a);
    }
  }

  /** Two generic arrays are equal exactly when their components are. */
  lemma GenericArrayEquality(a: Type, b: Type)
    requires IsGenericArray(a) && IsGenericArray(b)
    ensures TypesEquals(Some(a), Some(b)) <==> TypesEquals(Some(a.component), Some(b.component))
  {
    if a == b {
      ByKindReflexive(a);
    }
  }

  /** Two wildcards are equal exactly when their upper-bound arrays and
      their lower-bound arrays are. */
  lemma WildcardEquality(a: Type, b: Type)
    requires IsWildcard(a) && IsWildcard(b)
    ensures TypesEquals(Some(a), Some(b)) <==>
      ArraysEquals(UpperBounds(a), UpperBounds(b)) && ArraysEquals(LowerBounds(a), LowerBounds(b))
  {
    if a == b {
      ByKindReflexive(a);
    }
  }

  /** Two type variables are equal exactly when they share declaration and name. */
  lemma TypeVariableEquality(a: Type, b: Type)
    requires a.TypeVariable? && b.TypeVariable?
    ensures TypesEquals(Some(a), Some(b)) <==> a.decl == b.decl && a.name == b.name
  {
  }

  // ---------------------------------------------------------------------
  // On canonical types, equals is structural identity
  // ---------------------------------------------------------------------

  /** The point of canonicalizing: between canonical types `Types.equals`
      holds exactly when the two are the same value, so it is an
      equivalence and canonical descriptions can be compared as values. */
  lemma {:induction false} CanonicalEqualsIsIdentity(a: Option<Type>, b: Option<Type>)
    requires a.Some? ==> Canonical(a.value)
    requires b.Some? ==> Canonical(b.value)
    ensures TypesEquals(a, b) <==> a == b
    decreases OptSize(a) + OptSize(b), 1
  {
    if a.Some? && b.Some? && EqualsByKind(a.value, b.value) {
      CanonicalByKind(a.value, b.value);
    }
  }

  lemma {:induction false} CanonicalByKind(a: Type, b: Type)
    requires Canonical(a) && Canonical(b)
    requires EqualsByKind(a, b)
    ensures a == b
    decreases Size(a) + Size(b), 0
  {
    match a
    case ParameterizedImpl(o, r, args) =>
      CanonicalEqualsIsIdentity(o, b.owner);
      CanonicalObjectEquals(r, b.raw);
      CanonicalArraysEquals(args, b.args);
    case GenericArrayImpl(c) =>
      if IsGenericArray(b) {
        CanonicalEqualsIsIdentity(Some(c), Some(b.component));
      }
    case WildcardImpl(u, l) =>
      BoundsSize(a);
      BoundsSize(b);
      CanonicalArraysEquals(UpperBounds(a), UpperBounds(b));
      CanonicalArraysEquals(LowerBounds(a), LowerBounds(b));
      assert [u] == [b.upper];
      assert UpperBounds(a)[0] == u;
      if l.Some? {
        assert LowerBounds(a)[0] == l.value;
      }
    case _ =>
  }

  lemma {:induction false} CanonicalObjectEquals(x: Type, y: Type)
    requires Canonical(x) && Canonical(y)
    ensures ObjectEquals(x, y) <==> x == y
    decreases Size(x) + Size(y), 2
  {
    CanonicalEqualsIsIdentity(Some(x), Some(y));
  }

  lemma {:induction false} CanonicalArraysEquals(xs: seq<Type>, ys: seq<Type>)
    requires forall i :: 0 <= i < |xs| ==> Canonical(xs[i])
    requires forall i :: 0 <= i < |ys| ==> Canonical(ys[i])
    ensures ArraysEquals(xs, ys) <==> xs == ys
    decreases SeqSize(xs) + SeqSize(ys), 3
  {
    if xs == ys {
      ArraysEqualsReflexive(xs);
    } else if |xs| == |ys| && xs != [] {
      CanonicalObjectEquals(xs[0], ys[0]);
      CanonicalArraysEquals(xs[1..], ys[1..]);
    }
  }

  // ---------------------------------------------------------------------
  // equals and getRawType agree
  // ---------------------------------------------------------------------

  /** No class inside is an array of `void`: the JVM has no such class. */
  predicate RealClass(c: JClass) {
    c.ArrayOf? ==> !IsVoid(c.component) && RealClass(c.component)
  }

  predicate RealClasses(t: Type) {
    match t
    case ClassType(c) => RealClass(c)
    case ParameterizedImpl(o, r, args) =>
      (o.Some? ==> RealClasses(o.value)) && RealClasses(r) && forall i :: 0 <= i < |args| ==> RealClasses(args[i])
    case ForeignParameterized(o, r, args) =>
      (o.Some? ==> RealClasses(o.value)) && RealClasses(r) && forall i :: 0 <= i < |args| ==> RealClasses(args[i])
    case GenericArrayImpl(c) => RealClasses(c)
    case ForeignGenericArray(c) => RealClasses(c)
    case WildcardImpl(u, l) => RealClasses(u) && (l.Some? ==> RealClasses(l.value))
    case ForeignWildcard(us, ls) =>
      (forall i :: 0 <= i < |us| ==> RealClasses(us[i])) && (forall i :: 0 <= i < |ls| ==> RealClasses(ls[i]))
    case _ => true
  }

  /** Types that `Types.equals` identifies erase to the same raw class (or
      are refused by `getRawType` in the same way). */
  lemma {:induction false} EqualTypesHaveEqualRawTypes(a: Option<Type>, b: Option<Type>)
    requires a.Some? ==> RealClasses(a.value)
    requires b.Some? ==> RealClasses(b.value)
    requires TypesEquals(a, b)
    ensures GetRawType(a) == GetRawType(b)
    decreases OptSize(a) + OptSize(b), 2
  {
    if a != b {
      var x, y := a.value, b.value;
      assert EqualsByKind(x, y);
      if x.ClassType? && IsGenericArray(y) {
        RawOfClassComponent(x.cls, y);
      } else if IsGenericArray(x) && y.ClassType? {
        RawOfClassComponent(y.cls, x);
      } else if IsGenericArray(x) {
        assert OptSize(Some(x.component)) + OptSize(Some(y.component)) < OptSize(a) + OptSize(b);
        EqualTypesHaveEqualRawTypes(Some(x.component), Some(y.component));
      } else if IsParameterized(x) {
        // Raw types matched by `equals` are both classes (then identical) or both not.
        assert ObjectEquals(x.raw, y.raw);
        assert x.raw.ClassType? <==> y.raw.ClassType?;
      } else if IsWildcard(x) {
        BoundsSize(x);
        BoundsSize(y);
        var ux, uy := UpperBounds(x), UpperBounds(y);
        assert ArraysEquals(ux, uy);
        if ux != [] {
          FirstElementSize(ux);
          FirstElementSize(uy);
          assert ObjectEquals(ux[0], uy[0]);
          assert RealClasses(ux[0]) && RealClasses(uy[0]);
          if ux[0] != uy[0] {
            EqualTypesHaveEqualRawTypes(Some(ux[0]), Some(uy[0]));
          }
          assert GetRawType(a) == RawTypeOf(ux[0]);
          assert GetRawType(b) == RawTypeOf(uy[0]);
        } else {
          assert uy == [];
          assert GetRawType(a) == Throws(IndexOutOfBounds) == GetRawType(b);
        }
      }
    }
  }

  /** The cross case: an array class and a generic array whose component
      `Types.equals` matches with the class's component. */
  lemma {:induction false} RawOfClassComponent(c: JClass, g: Type)
    requires IsGenericArray(g) && RealClass(c) && RealClasses(g)
    requires TypesEquals(ClassAsType(c.ComponentType()), Some(g.component))
    ensures GetRawType(Some(ClassType(c))) == GetRawType(Some(g))
    decreases Size(ClassType(c)) + Size(g), 1
  {
    assert c.ArrayOf?;
    var comp := ClassType(c.component);
    assert Size(comp) + Size(g.component) < Size(ClassType(c)) + Size(g);
    if comp != g.component {
      EqualTypesHaveEqualRawTypes(Some(comp), Some(g.component));
    }
    assert RawTypeOf(g.component) == Ok(c.component);
  }
}
