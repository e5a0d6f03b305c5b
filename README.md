# EitherNet type descriptors, in Dafny

EitherNet has to tell whether two separately reflected Java types are "the same
type", for example the declared result type of an endpoint and the type of a
converter. This project models the small reflective type system that does
this job, and proves properties of it:

- **`Util`** (`com.slack.retrofit.Util`):
  - `canonicalize`, `removeSubtypeWildcard` and `checkNotPrimitive`;
  - the three helper classes `ParameterizedTypeImpl`, `GenericArrayTypeImpl`
    and `WildcardTypeImpl`: their validating constructors, accessors and
    `toString`.
- **`Types`** (`com.slack.eithernet.Types`):
  - the factories `newParameterizedType`, `newParameterizedTypeWithOwner`,
    `arrayOf`, `subtypeOf` and `supertypeOf`;
  - `getRawType`;
  - the structural equality `equals`.
- **`ResultTypeImpl` and `StatusCodeImpl`**: the two annotation value classes
  and their `equals`, `hashCode` and `toString`.

Files and modules:

| file | module | contents |
|---|---|---|
| `jvm.dfy` | `Jvm` | The platform pieces the code relies on: null as `Option`, thrown exceptions as `Result`, 32-bit `int` wrap-around, class descriptors (`JClass`) and `Integer.toString`. |
| `reflect.dfy` | `Reflect` | `java.lang.reflect.Type` as a datatype; the `instanceof` tests; the bound and argument accessors; what "canonical" means. |
| `types.dfy` | `Types` | `getRawType` and `equals`. |
| `util.dfy` | `Util` | `canonicalize`, the helper constructors, `removeSubtypeWildcard`, `typeToString` and the `toString` methods. |
| `type_factories.dfy` | `TypeFactories` | The public factories of `Types`. |
| `result_types.dfy` | `ResultTypes` | `ResultTypeImpl`. |
| `status_codes.dfy` | `StatusCodes` | `StatusCodeImpl`. |

Modelling choices:

- **Which implementation a type comes from.** A `Type` records whether it
  comes from one of `Util`'s helper classes (`ParameterizedImpl`,
  `GenericArrayImpl`, `WildcardImpl`) or from another implementation of the
  same reflect interface (`Foreign…`). `canonicalize` keeps the former and
  rebuilds the latter.
- **Reference identity is value equality.** This covers `a == b` in
  `Types.equals`, `!=` between classes, and the identity `equals` of `Class`.
  `Types.ByKindReflexive` shows this is sound: on every supported kind, the
  case analysis alone already finds a type equal to itself.
- **Unsupported types.** A `Type` of unknown implementation carries an
  identity number and its `toString` text.
- **Java packages.** `Util.java` declares package `com.slack.retrofit`, while
  `Types.java` imports it from `com.slack.eithernet`. The model treats them
  as one helper module.
- **Canonical types as keys.** `Util.CanonicalFormsCompareAsValues` and
  `Types.CanonicalEqualsIsIdentity` show that on canonical types `equals`
  holds exactly when the two values are the same.
- **The constructor's loop.** `ParameterizedTypeImpl`'s constructor works
  on a cloned array. It is modelled twice:
  - as the method `Util.ConstructParameterized`, with the loop in
    `Util.CopyArguments`;
  - as the function `Util.NewParameterized`, which `canonicalize` calls.
  The method is proved to compute the function.

## Model

| member | source | states |
|---|---|---|
| Util.CheckNotPrimitive | src/main/java/com/slack/retrofit/Util.java:78-82 | Refuses exactly the primitive classes, with `IllegalArgumentException`. |
| Util.Canonicalize | src/main/java/com/slack/retrofit/Util.java:34-55 | The result is never an array class or a foreign reflect implementation. Already-canonical inputs come back unchanged: non-array classes, the three helper classes, type variables and unsupported types. Classes are never refused. Primitiveness is preserved. A well-formed input has a result that is canonical all the way down. A foreign parameterized type, generic array or wildcard is rebuilt by the matching helper constructor from what its accessors report. |
| Util.CanonicalizeIdempotent | src/main/java/com/slack/retrofit/Util.java:34-55 | Canonicalizing a canonical result again returns it unchanged. |
| Util.CanonicalizeArrayClass | src/main/java/com/slack/retrofit/Util.java:35-37 | An array class becomes the `GenericArrayTypeImpl` constructor applied to the canonical form of its component class. |
| Util.ClassEqualsItsCanonicalForm | src/main/java/com/slack/retrofit/Util.java:35-37 | Every class is `Types.equals` to its canonical form. |
| Util.CanonicalizeKeepsEquality | src/main/java/com/slack/retrofit/Util.java:30-55 | A type and its canonical form are `Types.equals` whenever no array class appears as the raw type, a type argument or a bound of a foreign type. |
| Util.SlotKeepsEquality | src/main/java/com/slack/eithernet/Types.java:147-148 | A type that is not an array class, and has no such slot, is `Object.equals` to its canonical form. |
| Util.ArgsKeepEquality | src/main/java/com/slack/eithernet/Types.java:148 | Arguments without such slots are `Arrays.equals` to their canonical forms. |
| Util.CanonicalizeChangesArrayArguments | src/main/java/com/slack/retrofit/Util.java:30-55 | For a foreign `List<String[]>` whose argument is the class `String[]`, canonicalizing succeeds but its result is not `Types.equals` to the input. |
| Util.RawTypeOfCanonicalClass | src/main/java/com/slack/retrofit/Util.java:35-37 | `getRawType` of a class's canonical form gives back the class, for every class the JVM can have. |
| Util.CanonicalFormsCompareAsValues | src/main/java/com/slack/retrofit/Util.java:34-55 | Take two well-formed types that canonicalize successfully. Their canonical forms are `Types.equals` exactly when they are the same value. |
| Util.RemoveSubtypeWildcard | src/main/java/com/slack/retrofit/Util.java:58-68 | Four outcomes. A non-wildcard is kept. A wildcard with a lower bound is kept. A wildcard with neither a lower bound nor exactly one upper bound is refused. Otherwise the single upper bound is returned. |
| Util.OwnerCheck | src/main/java/com/slack/retrofit/Util.java:90-103 | Passes exactly when one of three holds: the raw type is not a class; there is no owner and the raw class has no enclosing class; or there is an owner, the raw class has an enclosing class, and the owner's raw type is that class. Each failure is an `IllegalArgumentException`, except that an exception thrown by `getRawType` on the owner propagates unchanged. |
| Util.NewParameterized | src/main/java/com/slack/retrofit/Util.java:89-113 | A failed owner check decides the exception. A result is a `ParameterizedTypeImpl` that has an owner exactly when one was given. Its arguments are the canonicalized arguments. Well-formed inputs give a canonical result. |
| Util.NewParameterizedStoresCanonicalForms | src/main/java/com/slack/retrofit/Util.java:89-113 | The constructor stores the canonical forms of the owner and the raw type. It succeeds whenever four things hold: the owner check passes, the owner (if any) canonicalizes, the raw type canonicalizes, and every argument is accepted. |
| Util.CanonicalizeArgument | src/main/java/com/slack/retrofit/Util.java:109-111 | A null slot throws `NullPointerException` and a primitive throws `IllegalArgumentException`. Any other argument is canonicalized. An accepted argument is stored canonical and never primitive. |
| Util.CanonicalizeArguments | src/main/java/com/slack/retrofit/Util.java:107-112 | On success there are as many stored arguments as given. Each given argument was non-null, and each stored one is canonical and not primitive. |
| Util.ArgumentsAllOk | src/main/java/com/slack/retrofit/Util.java:107-112 | When every argument is accepted, slot `i` of the result is the canonical form of argument `i`. |
| Util.ArgumentsFirstFailure | src/main/java/com/slack/retrofit/Util.java:108-111 | Arguments are checked in order, so the first refused argument decides the exception. |
| Util.ConstructParameterized | src/main/java/com/slack/retrofit/Util.java:89-113 | The constructor, run on the argument array, computes `NewParameterized` of its contents. |
| Util.CopyArguments | src/main/java/com/slack/retrofit/Util.java:107-112 | The clone-and-rewrite loop computes `CanonicalizeArguments` of the array's contents, and the caller's array is not written. |
| Reflect.ActualTypeArguments | src/main/java/com/slack/retrofit/Util.java:115-117 | Returns a freshly allocated array holding the stored arguments, so the caller cannot alter them. |
| Util.NewGenericArray | src/main/java/com/slack/retrofit/Util.java:157-159 | Stores the canonical form of the component, and fails exactly when canonicalizing the component fails. |
| Util.NewWildcard | src/main/java/com/slack/retrofit/Util.java:187-203 | Refuses more than one lower bound, and any upper-bound count other than one. A lower bound requires the upper bound `Object`, which is then stored, together with the canonical lower bound. Without a lower bound it stores the canonical upper bound. Null bounds throw `NullPointerException` and primitive bounds `IllegalArgumentException`. A non-null, non-primitive lower bound with an upper bound other than `Object` is refused. Conversely, a valid bound that canonicalizes always gives a wildcard, with or without a lower bound. The stored upper bound is never primitive. |
| Reflect.UpperBounds | src/main/java/com/slack/retrofit/Util.java:205-207 | A `WildcardTypeImpl` reports exactly its one stored upper bound. |
| Reflect.LowerBounds | src/main/java/com/slack/retrofit/Util.java:209-211 | A `WildcardTypeImpl` reports at most one lower bound, and none exactly when none is stored. |
| Util.ParameterizedToString | src/main/java/com/slack/retrofit/Util.java:135-151 | The `StringBuilder` loop prints the raw type alone when there are no arguments. Otherwise it prints `Raw<A, B, …>` with the arguments separated by `, `. |
| Util.TypeToString | src/main/java/com/slack/retrofit/Util.java:74-76 | Takes a canonical type. A parameterized type's text starts with its raw type's text and, when it has arguments, ends with `>`. A generic array's text ends with `[]`. A wildcard's text starts with `?`. |
| TypeFactories.GenericArrayOfToString | src/main/java/com/slack/retrofit/Util.java:173-175 | A generic array prints as its component followed by `[]`. |
| TypeFactories.SubtypeOfToString | src/main/java/com/slack/retrofit/Util.java:222-230 | `subtypeOf(X)` prints as `?` when `X` is `Object`, and as `? extends X` otherwise. |
| TypeFactories.SupertypeOfToString | src/main/java/com/slack/retrofit/Util.java:222-230 | `supertypeOf(X)` prints as `? super X`. |
| TypeFactories.NewParameterizedType | src/main/java/com/slack/eithernet/Types.java:40-45 | Zero arguments are refused with `IllegalArgumentException`. Otherwise it is the constructor with no owner, and its result has no owner and the same, non-zero, number of arguments. |
| TypeFactories.NewParameterizedTypeWithOwner | src/main/java/com/slack/eithernet/Types.java:51-58 | Zero arguments are refused. Otherwise it is the constructor with the given owner, and its result has an owner exactly when one was given. |
| TypeFactories.GenericArrayOf | src/main/java/com/slack/eithernet/Types.java:61-63 | Succeeds exactly when the component can be canonicalized, and then holds the canonical component. |
| TypeFactories.SubtypeOf | src/main/java/com/slack/eithernet/Types.java:71-79 | A null bound throws. A wildcard bound lends its upper bounds; any other bound becomes the single upper bound, canonicalized; a primitive bound is refused. The result never has a lower bound. |
| TypeFactories.SupertypeOf | src/main/java/com/slack/eithernet/Types.java:85-93 | A null bound throws. The upper bound is always `Object`. A wildcard bound lends its lower bounds; any other bound becomes the canonical lower bound; a primitive bound is refused. |
| TypeFactories.RemoveSubtypeWildcardUndoesSubtypeOf | src/main/java/com/slack/retrofit/Util.java:58-68 | `removeSubtypeWildcard(subtypeOf(X))` gives back the canonical form of `X`. |
| TypeFactories.RemoveSubtypeWildcardKeepsSupertypeOf | src/main/java/com/slack/retrofit/Util.java:58-68 | `removeSubtypeWildcard` keeps `supertypeOf(X)` unchanged. |
| TypeFactories.SubtypeOfIdempotent | src/main/java/com/slack/eithernet/Types.java:71-79 | Applying `subtypeOf` to its own result changes nothing. |
| TypeFactories.SupertypeOfIdempotent | src/main/java/com/slack/eithernet/Types.java:85-93 | Applying `supertypeOf` to its own result changes nothing. |
| TypeFactories.ParameterizedRawType | src/main/java/com/slack/eithernet/Types.java:99-105 | A parameterized type built on a non-array class `C` has raw type `C`. |
| TypeFactories.GenericArrayRawType | src/main/java/com/slack/eithernet/Types.java:106-109 | `arrayOf(C)` has as raw type the array class of `C`. |
| Types.GetRawType | src/main/java/com/slack/eithernet/Types.java:95-125 | Null is refused with `IllegalArgumentException`. A raw type obtained from a type made of real classes is itself a real class. |
| Types.ArrayClassOf | src/main/java/com/slack/eithernet/Types.java:108-109 | Refuses exactly `void`, with `IllegalArgumentException`. Otherwise the result is an array class whose component class is the given class. |
| Types.RawTypeOf | src/main/java/com/slack/eithernet/Types.java:96-124 | A raw type obtained from a type made of real classes is itself a real class: no array of `void` appears. |
| Types.RawTypeCases | src/main/java/com/slack/eithernet/Types.java:95-125 | A class is its own raw type. A parameterized type gives its raw type, or a failed cast when that is not a class. A generic array gives the array class of its component's raw type. A type variable gives `Object`. A wildcard gives the raw type of its first upper bound, or an index failure when it has none. An unsupported type is refused. |
| Types.TypesEquals | src/main/java/com/slack/eithernet/Types.java:128-174 | Identical types are equal, and null is equal only to null. |
| Types.EqualsByKind | src/main/java/com/slack/eithernet/Types.java:131-173 | Holds only between two types of the same reflect interface, or between a class and a generic array. |
| Types.ObjectEquals | src/main/java/com/slack/eithernet/Types.java:147-148 | The `equals` of a raw type or an array element holds only between identical types or types of the same reflect interface. |
| Types.ArraysEquals | src/main/java/com/slack/eithernet/Types.java:162-163 | `Arrays.equals` holds only between arrays of the same length. |
| Types.IdentityAndNull | src/main/java/com/slack/eithernet/Types.java:128-130 | Every type equals itself. Two nulls are equal, and null equals nothing else. |
| Types.ByKindReflexive | src/main/java/com/slack/eithernet/Types.java:131-169 | On every supported kind, the case analysis alone finds a type equal to itself. |
| Types.TypesEqualsSymmetric | src/main/java/com/slack/eithernet/Types.java:128-174 | `equals` is symmetric. |
| Types.ClassEquality | src/main/java/com/slack/eithernet/Types.java:131-136 | Two classes are equal only when they are the same class. |
| Types.ClassVersusGenericArray | src/main/java/com/slack/eithernet/Types.java:131-153 | A class and a generic array are compared through their component types, with the same answer in both argument orders. |
| Types.ParameterizedEquality | src/main/java/com/slack/eithernet/Types.java:137-148 | Two parameterized types are equal exactly when three things hold: the owners are equal, the raw types are equal, and the arguments are equal slot by slot. |
| Types.GenericArrayEquality | src/main/java/com/slack/eithernet/Types.java:154-157 | Two generic arrays are equal exactly when their components are equal. |
| Types.WildcardEquality | src/main/java/com/slack/eithernet/Types.java:158-163 | Two wildcards are equal exactly when their upper-bound arrays are equal and their lower-bound arrays are equal. |
| Types.TypeVariableEquality | src/main/java/com/slack/eithernet/Types.java:164-169 | Two type variables are equal exactly when they share declaration and name. |
| Types.UnequalKinds | src/main/java/com/slack/eithernet/Types.java:170-173 | Different kinds are unequal, apart from a class paired with a generic array. An unsupported type equals only itself. |
| Types.CanonicalEqualsIsIdentity | src/main/java/com/slack/eithernet/Types.java:128-174 | Between canonical types, `equals` holds exactly when the two are the same value. |
| Types.EqualTypesHaveEqualRawTypes | src/main/java/com/slack/eithernet/Types.java:95-174 | Types that `equals` identifies have the same `getRawType` outcome. |
| ResultTypes.NewResultType | src/main/java/com/slack/eithernet/ResultTypeImpl.java:16-26 | The constructor stores its four arguments as given. |
| ResultTypes.OwnerType | src/main/java/com/slack/eithernet/ResultTypeImpl.java:28-30 | Returns the stored owner class. |
| ResultTypes.RawType | src/main/java/com/slack/eithernet/ResultTypeImpl.java:32-34 | Returns the stored raw class. |
| ResultTypes.IsArray | src/main/java/com/slack/eithernet/ResultTypeImpl.java:44-46 | Returns the stored array flag. |
| ResultTypes.AccessorsEchoConstructor | src/main/java/com/slack/eithernet/ResultTypeImpl.java:16-46 | `ownerType()`, `rawType()` and `isArray()` return exactly the constructor's arguments. |
| ResultTypes.TypeArgs | src/main/java/com/slack/eithernet/ResultTypeImpl.java:36-38 | `typeArgs()` returns a freshly allocated copy of the stored arguments. |
| ResultTypes.Equals | src/main/java/com/slack/eithernet/ResultTypeImpl.java:48-55 | Holds only for another instance of the same class with as many type arguments. |
| ResultTypes.EqualsIsFieldEquality | src/main/java/com/slack/eithernet/ResultTypeImpl.java:48-55 | Two instances are equal exactly when their flag, owner, raw type and arguments agree, recursively through nested arguments. |
| ResultTypes.EqualsIsEquivalence | src/main/java/com/slack/eithernet/ResultTypeImpl.java:48-55 | `equals` is reflexive, symmetric and transitive, and false for null and for other classes. |
| ResultTypes.ArrayHash | src/main/java/com/slack/eithernet/ResultTypeImpl.java:57-61 | `Arrays.hashCode`: start at 1, then multiply by 31 and add each element's hash, in 32-bit arithmetic. |
| ResultTypes.HashCode | src/main/java/com/slack/eithernet/ResultTypeImpl.java:57-61 | `Objects.hash` of owner, raw type and flag, times 31, plus `Arrays.hashCode` of the arguments. |
| ResultTypes.HashCodeAgreesWithEquals | src/main/java/com/slack/eithernet/ResultTypeImpl.java:57-61 | Equal instances have equal hash codes, whatever `Class.hashCode` returns. |
| ResultTypes.ToString | src/main/java/com/slack/eithernet/ResultTypeImpl.java:63-74 | The text is the fields' text followed by the flag and `}`. |
| ResultTypes.FieldsText | src/main/java/com/slack/eithernet/ResultTypeImpl.java:64-71 | The text up to and including `isArray=`. |
| ResultTypes.ToStringFields | src/main/java/com/slack/eithernet/ResultTypeImpl.java:63-74 | The text lists the fields in declaration order. Owner and raw type print as `Class.toString` does, or `null`. The arguments print between brackets, separated by `, `: each nested argument by its own `toString`, each null slot as `null`. The flag comes last. |
| ResultTypes.ToStringFrame | src/main/java/com/slack/eithernet/ResultTypeImpl.java:63-74 | The text starts with `ResultType{ownerType=`, and ends in `true}` exactly when the type is an array. |
| StatusCodes.NewStatusCode | src/main/java/com/slack/eithernet/StatusCodeImpl.java:10-12 | The constructor stores the value as given. |
| StatusCodes.Value | src/main/java/com/slack/eithernet/StatusCodeImpl.java:14-16 | Returns the stored value. |
| StatusCodes.ValueEchoesConstructor | src/main/java/com/slack/eithernet/StatusCodeImpl.java:10-16 | `value()` returns exactly the constructor's argument. |
| StatusCodes.Equals | src/main/java/com/slack/eithernet/StatusCodeImpl.java:22-27 | Holds only for another instance of the same class. |
| StatusCodes.EqualsIsValueEquality | src/main/java/com/slack/eithernet/StatusCodeImpl.java:22-27 | Two instances are equal exactly when their values are equal. `equals` is an equivalence, and false for null and for other classes. |
| StatusCodes.HashCodeMatchesEquals | src/main/java/com/slack/eithernet/StatusCodeImpl.java:29-31 | The hash (`31 + value`, wrapped to 32 bits) is equal for two instances exactly when the instances are equal. |
| StatusCodes.HashCode | src/main/java/com/slack/eithernet/StatusCodeImpl.java:29-31 | `Objects.hash(value)`: `31 + value`, wrapped to 32 bits. |
| StatusCodes.ToString | src/main/java/com/slack/eithernet/StatusCodeImpl.java:33-35 | `StatusCode{value=N}` with `N` in decimal. |
| StatusCodes.ToStringMatchesEquals | src/main/java/com/slack/eithernet/StatusCodeImpl.java:33-35 | Two status codes print alike exactly when they are equal. |
| StatusCodes.ToStringRoundTrip | src/main/java/com/slack/eithernet/StatusCodeImpl.java:33-35 | `StatusCode{value=N}` reads back to the same status code, so the text determines the value. |

## Left out

- `CoroutineTransformer` (both copies) is not part of this model. It only forwards a reflected `Continuation` to Kotlin suspend functions, which are not part of this model either.
- The result algebra, retry with backoff and the endpoint orchestrator are not part of this model. They take no part in building, comparing or printing type descriptors. Of the three, only retry involves timing, randomness and floating point.
- Reflection itself is not modelled. A class is a descriptor carrying the answers of `isPrimitive`, `isInterface`, `getEnclosingClass`, `getComponentType` and `getName`.
- `Array.newInstance` is modelled only as refusing `void`. Its 255-dimension limit is left out.
- Java reflection's own implementations of the reflect interfaces are approximated. Their `equals` is taken to be `Types.equals` on the same interface, and their `toString` is not modelled.
- Exception messages are not modelled; only the exception's class is.
- `annotationType()` of both annotation classes is left out. It returns a constant class object.
- The `hashCode` of the three helper classes is left out: it rests on identity-based `Class.hashCode`.
- Null entries in the arrays that foreign `getActualTypeArguments`, `getUpperBounds` and `getLowerBounds` report are left out. A foreign type holds plain types, and `Reflect.Lift` turns each into a non-null slot before the constructors see it.
- Null raw types and null generic components passed to the constructors are left out. The constructors would store them as given.
- `ParameterizedTypeImpl.typeArguments` is a public field, and aliasing writes through it are left out. The model stores the arguments immutably, so `canonicalize` keeps such an object as it is.
- Util.TypeToString: describes the text only for canonical types, which is what the helper classes store.
- ResultTypes.NewResultType: the constructor stores the caller's array without cloning it (ResultTypeImpl.java:24), so later writes to that array change `equals`, `hashCode` and `toString`. The model stores an immutable sequence and leaves this aliasing out.
- Util.Canonicalize: the source's comment promises a result functionally equal to the input. It can fail only where an array class sits in a slot that `Types.equals` compares with `Object.equals` or `Arrays.equals`: the raw type, a type argument or a bound of a foreign type. There the class is rebuilt as a `GenericArrayTypeImpl`, which `Class.equals` refuses. `Util.CanonicalizeKeepsEquality` proves the promise for every type without such a slot, and `Util.CanonicalizeChangesArrayArguments` shows a type with one for which it fails.
- ResultTypes.Equals: a type-argument slot is null or another `ResultTypeImpl`. Other implementations of the `ResultType` annotation, and a null argument array, are left out.
- ResultTypes.HashCode: `Class.hashCode` is a parameter, because it is identity based. Only its consistency with `equals` is stated, not concrete values.
