/** `java.lang.reflect.Type` values as the type machinery sees them.

    The helper classes of `Util` (`ParameterizedTypeImpl`,
    `GenericArrayTypeImpl`, `WildcardTypeImpl`) are told apart from other
    implementations of the same reflect interfaces (those the JDK hands out),
    because `canonicalize` keeps the former and rebuilds the latter. */
module Reflect {
  import opened Jvm

  datatype Type =
    | ClassType(cls: JClass)
      /** `Util.ParameterizedTypeImpl`: owner, raw type and type arguments as stored. */
    | ParameterizedImpl(owner: Option<Type>, raw: Type, args: seq<Type>)
      /** Any other `ParameterizedType`. */
    | ForeignParameterized(owner: Option<Type>, raw: Type, args: seq<Type>)
      /** `Util.GenericArrayTypeImpl`. */
    | GenericArrayImpl(component: Type)
      /** Any other `GenericArrayType`. */
    | ForeignGenericArray(component: Type)
      /** `Util.WildcardTypeImpl`: exactly one upper bound and an optional lower bound. */
    | WildcardImpl(upper: Type, lower: Option<Type>)
      /** Any other `WildcardType`, with whatever bound arrays it reports. */
    | ForeignWildcard(uppers: seq<Type>, lowers: seq<Type>)
      /** A `TypeVariable`: its generic declaration (by identity) and its name. */
    | TypeVariable(decl: nat, name: string)
      /** Any other `Type` implementation: identity and `toString` text. */
    | Unsupported(id: nat, text: string)

  // ---------------------------------------------------------------------
  // The reflect interfaces (`instanceof` tests) and their accessors
  // ---------------------------------------------------------------------

  predicate IsParameterized(t: Type) { t.ParameterizedImpl? || t.ForeignParameterized? }

  predicate IsGenericArray(t: Type) { t.GenericArrayImpl? || t.ForeignGenericArray? }

  predicate IsWildcard(t: Type) { t.WildcardImpl? || t.ForeignWildcard? }

  /** `t instanceof Class && ((Class) t).isPrimitive()`. */
  predicate IsPrimitiveClass(t: Type) { t.ClassType? && t.cls.IsPrimitive() }

  /** Both are instances of the same reflect interface. */
  predicate SameInterface(a: Type, b: Type) {
    || (a.ClassType? && b.ClassType?)
    || (IsParameterized(a) && IsParameterized(b))
    || (IsGenericArray(a) && IsGenericArray(b))
    || (IsWildcard(a) && IsWildcard(b))
    || (a.TypeVariable? && b.TypeVariable?)
  }

  /** `WildcardType.getUpperBounds`; `WildcardTypeImpl` reports its single bound. */
  function UpperBounds(w: Type): (r: seq<Type>)
    requires IsWildcard(w)
    ensures w.WildcardImpl? ==> r == [w.upper]
  {
    if w.WildcardImpl? then [w.upper] else w.uppers
  }

  /** `WildcardType.getLowerBounds`; `WildcardTypeImpl` reports its bound or
      the shared empty array. */
  function LowerBounds(w: Type): (r: seq<Type>)
    requires IsWildcard(w)
    ensures w.WildcardImpl? ==> |r| <= 1 && (r == [] <==> w.lower.None?)
    ensures w.WildcardImpl? && w.lower.Some? ==> r == [w.lower.value]
  {
    if w.WildcardImpl? then (if w.lower.Some? then [w.lower.value] else []) else w.lowers
  }

  /** `ParameterizedType.getActualTypeArguments`, as a fresh array: the
      caller can overwrite it without touching the stored arguments. */
  method ActualTypeArguments(p: Type) returns (a: array<Type>)
    requires IsParameterized(p)
    ensures fresh(a) && a[..] == p.args
  {
    a := new Type[|p.args|](i requires 0 <= i < |p.args| => p.args[i]);
  }

  /** Java's `null`-able bounds and arguments, as passed to the constructors. */
  function Lift(s: seq<Type>): (r: seq<Option<Type>>)
    ensures |r| == |s| && forall i :: 0 <= i < |s| ==> r[i] == Some(s[i])
  {
    seq(|s|, i requires 0 <= i < |s| => Some(s[i]))
  }

  // ---------------------------------------------------------------------
  // Canonical types: what the helper classes store
  // ---------------------------------------------------------------------

  /** A type `canonicalize` returns as it is: no array `Class` (those become
      `GenericArrayImpl`) and no foreign implementation of a reflect
      interface. */
  predicate TopCanonical(t: Type) {
    match t
    case ClassType(c) => !c.IsArray()
    case ForeignParameterized(_, _, _) => false
    case ForeignGenericArray(_) => false
    case ForeignWildcard(_, _) => false
    case _ => true
  }

  /** Canonical all the way down, with the checks the helper constructors
      make: no primitive argument or bound, and a lower bound only under an
      `Object` upper bound. This is the invariant of every helper object. */
  predicate Canonical(t: Type) {
    match t
    case ClassType(c) => !c.IsArray()
    case ParameterizedImpl(o, r, args) =>
      && (o.Some? ==> Canonical(o.value))
      && Canonical(r)
      && forall i :: 0 <= i < |args| ==> Canonical(args[i]) && !IsPrimitiveClass(args[i])
    case GenericArrayImpl(c) => Canonical(c)
    case WildcardImpl(u, l) =>
      && Canonical(u) && !IsPrimitiveClass(u)
      && (l.Some? ==> Canonical(l.value) && !IsPrimitiveClass(l.value) && u == ClassType(ObjectClass))
    case TypeVariable(_, _) => true
    case Unsupported(_, _) => true
    case _ => false
  }

  /** Every helper object inside `t`, also inside foreign types, satisfies
      its invariant: the only types the program can build. */
  predicate WellFormed(t: Type) {
    match t
    case ForeignParameterized(o, r, args) =>
      && (o.Some? ==> WellFormed(o.value))
      && WellFormed(r)
      && forall i :: 0 <= i < |args| ==> WellFormed(args[i])
    case ForeignGenericArray(c) => WellFormed(c)
    case ForeignWildcard(us, ls) =>
      && (forall i :: 0 <= i < |us| ==> WellFormed(us[i]))
      && (forall i :: 0 <= i < |ls| ==> WellFormed(ls[i]))
    case ClassType(_) => true
    case TypeVariable(_, _) => true
    case Unsupported(_, _) => true
    case _ => Canonical(t)
  }

  predicate WellFormedArgs(args: seq<Option<Type>>) {
    forall i :: 0 <= i < |args| ==> args[i].Some? ==> WellFormed(args[i].value)
  }

  // ---------------------------------------------------------------------
  // Sizes, for termination of the mutually recursive operations
  // ---------------------------------------------------------------------

  function ClassSize(c: JClass): nat {
    if c.ArrayOf? then 1 + ClassSize(c.component) else 1
  }

  function Size(t: Type): (n: nat)
    ensures n >= 1
  {
    match t
    case ClassType(c) => ClassSize(c)
    case ParameterizedImpl(o, r, args) => 1 + OptSize(o) + Size(r) + SeqSize(args)
    case ForeignParameterized(o, r, args) => 1 + OptSize(o) + Size(r) + SeqSize(args)
    case GenericArrayImpl(c) => 1 + Size(c)
    case ForeignGenericArray(c) => 1 + Size(c)
    case WildcardImpl(u, l) => 1 + Size(u) + OptSize(l)
    case ForeignWildcard(us, ls) => 1 + SeqSize(us) + SeqSize(ls)
    case TypeVariable(_, _) => 1
    case Unsupported(_, _) => 1
  }

  function OptSize(o: Option<Type>): (n: nat)
    ensures n >= 1
  {
    if o.Some? then Size(o.value) else 1
  }

  function SeqSize(s: seq<Type>): nat {
    if s == [] then 0 else Size(s[0]) + SeqSize(s[1..])
  }

  function OptSeqSize(s: seq<Option<Type>>): nat {
    if s == [] then 0 else OptSize(s[0]) + OptSeqSize(s[1..])
  }

  lemma {:induction false} LiftSize(s: seq<Type>)
    ensures OptSeqSize(Lift(s)) == SeqSize(s)
  {
    if s != [] {
      LiftSize(s[1..]);
      assert Lift(s)[1..] == Lift(s[1..]);
    }
  }

  lemma BoundsSize(w: Type)
    requires IsWildcard(w)
    ensures SeqSize(UpperBounds(w)) + SeqSize(LowerBounds(w)) < Size(w)
  {
  }
}
