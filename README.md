# outcomes, modelled in Dafny

This project models the core of the Java library *outcomes* (package
`com.cynava.outcomes`). The library has three parts:

- **A tri-state optional.** `Optional<T>` is `Present(v)`, `Empty` (there
  is no value) or `Unknown` (whether there is a value cannot be told).
- **A Try outcome.** `Try<T>` is `Success(v)` or `Failure(e)`.
  `Success.map`/`flatMap`/`filter` turn a null callback, a null result or
  a caught exception into a `Failure` value instead of raising it.
- **A write-once cell.** `WormValue<T>` starts Empty and accepts exactly one
  write, either a value or Unknown.

## How Java is represented

The module `Java` (`java.dfy`) holds the parts of the Java platform the
library relies on, written as values:

- `Nullable<T>` is a reference that may be null.
- `Call<T>` is the outcome of a Java call: it returned a value or it threw.
- `Throwable(kind, message)` is a thrown object. `Kind` is a class in the
  Throwable tree: the JDK classes the library raises, their ancestors, and
  `UserClass(name, superclass)` for any other class.
  - `IsSubclass` plays the part of `Class.isInstance`.
  - `IsException` is what a `catch (Exception e)` catches.
- Callbacks (`Supplier`, `Function`, `Predicate`, `Consumer`, `Runnable`) are
  nullable Dafny functions. Each returns a `Call`, so it may throw, and
  where Java's type allows it, it may return null.
- `Throw` is Java's `throw x`, including `throw null`.

Each part of the library has its own modules:

| module | file | models |
|---|---|---|
| `Optionals` | `optional.dfy` | `Optional.java`, `Present.java`, `Empty.java`, `Unknown.java` and `OptionalInterface.java`, as one datatype with one case split per method |
| `OptionalLaws` | `optional_laws.dfy` | laws that relate several Optional operations or calls |
| `Tries` | `try.dfy` | `Try.java`, `Success.java`, `Failure.java` and `TryInterface.java`, as a second datatype |
| `TryLaws` | `try_laws.dfy` | laws that relate several Try operations or calls |
| `Worm` | `worm.dfy` | `WormValue.java` |

`WormValue` is the library's only stateful class. It is modelled as a Dafny
class with a mutable `value` field. Its `set` and `setUnknown` methods are
proved to follow the state machine `Step`. The write-once laws are proved
about runs of `Step`.

### Where the code and its documentation differ

The model follows the code in each of these cases:

- `Present.of(null)` returns Empty. It is not an error.
- `Failure.of(null)` throws the NullPointerException of the constructor's
  `requireNonNull`. The Failure that the factory builds first is discarded.
- `WormValue` raises UnsupportedOperationException when the cell is
  already set, and IllegalArgumentException for `set(null)`.
- `Success.map` and `Success.flatMap` catch only `Exception`. A thrown
  `Error` escapes them.
- `Success.filter` does not catch an exception that the predicate throws.
- `Success.flatMap` returns the mapper's result as it is, even null.
- `Empty.or` and `Unknown.or` return the supplier's result as it is, even
  null.
- `Unknown.orElseThrow(null)` and `Unknown.or(null)` raise the JVM's own
  NullPointerException.
- `TryInterface` declares `failed()`, but `Success` does not implement it.
  `Tries.Try.Failed` takes the behaviour the test suite expects of a
  Success: a Failure whose error is an UnsupportedOperationException.

## Model

| member | source | states |
|---|---|---|
| `Java.Superclass` | src/main/java/com/cynava/outcomes/errorhandling/Failure.java:98-100 | only `Throwable` has no superclass, and each step up the tree is one level shallower |
| `Java.IsSubclass` | src/main/java/com/cynava/outcomes/errorhandling/Failure.java:98-100 | `Class.isInstance`: every class is an instance of itself, and any other ancestor sits strictly higher in the tree |
| `Java.IsException` | src/main/java/com/cynava/outcomes/errorhandling/Success.java:120-126 | what `catch (Exception e)` catches: Exception, RuntimeException and every exception the library raises, but not Throwable or Error |
| `Java.Throw` | src/main/java/com/cynava/outcomes/optional/Empty.java:102-107 | `throw x` always throws: x itself, the exception raised while computing x, or a NullPointerException for `throw null` |
| `Java.SubclassTransitive` | src/main/java/com/cynava/outcomes/errorhandling/Failure.java:98-100 | the relation `isInstance` tests is transitive |
| `Java.SubclassDepth` | src/main/java/com/cynava/outcomes/errorhandling/Failure.java:98-100 | an ancestor sits strictly higher in the tree than any other descendant |
| `Java.SubclassAntisymmetric` | src/main/java/com/cynava/outcomes/errorhandling/Failure.java:98-100 | two distinct classes never inherit from each other |
| `Java.EveryKindIsThrowable` | src/main/java/com/cynava/outcomes/errorhandling/Failure.java:98-100 | every error is an instance of `Throwable` |
| `Java.ErrorsAreNotExceptions` | src/main/java/com/cynava/outcomes/errorhandling/Success.java:120-126 | an `Error` is never caught by `catch (Exception e)` |
| `Optionals.Optional.IsPresent` | src/main/java/com/cynava/outcomes/optional/Present.java:63-66 | true exactly when the optional is neither Empty nor Unknown (Empty.java:54-56, Unknown.java:53-55) |
| `Optionals.Optional.IsEmpty` | src/main/java/com/cynava/outcomes/optional/Empty.java:68-71 | true exactly when the optional is neither Present nor Unknown (Present.java:79-81, Unknown.java:68-70) |
| `Optionals.Optional.IsUnknown` | src/main/java/com/cynava/outcomes/optional/Unknown.java:72-75 | true exactly when the optional is neither Present nor Empty (Present.java:84-86, Empty.java:74-76) |
| `Optionals.Optional.Get` | src/main/java/com/cynava/outcomes/optional/OptionalInterface.java:110-116 | returns the value exactly when Present; otherwise throws NoSuchElementException (Empty.java:79-81, Unknown.java:78-80) |
| `Optionals.Optional.OrElse` | src/main/java/com/cynava/outcomes/optional/OptionalInterface.java:118-125 | the value when Present, otherwise the alternative, null included |
| `Optionals.Optional.OrElseGet` | src/main/java/com/cynava/outcomes/optional/OptionalInterface.java:127-137 | the value when Present, whatever the supplier is; otherwise the supplier's outcome, or NullPointerException for a null supplier (Empty.java:89-94) |
| `Optionals.Optional.OrElseThrow` | src/main/java/com/cynava/outcomes/optional/OptionalInterface.java:139-145 | behaves as `get` and throws exactly when no value is present |
| `Optionals.Optional.OrElseThrowWith` | src/main/java/com/cynava/outcomes/optional/OptionalInterface.java:147-161 | the value when Present, even with a null supplier; otherwise always throws, either the supplied error or the supplier's own exception, and NullPointerException for a null supplier or a supplier that returns null (Empty.java:102-107, Unknown.java:101-103) |
| `Optionals.Optional.Filter` | src/main/java/com/cynava/outcomes/optional/Present.java:114-117 | Present stays exactly when the predicate holds and otherwise becomes Empty; a null predicate raises NullPointerException; Empty and Unknown stay as they are without calling the predicate (Empty.java:110-112, Unknown.java:106-108) |
| `Optionals.Optional.Map` | src/main/java/com/cynava/outcomes/optional/Present.java:120-122 | Present(v) becomes Present(f(v)), or Empty when f(v) is null; a null mapper raises NullPointerException; Empty maps to Empty and Unknown to Unknown (Empty.java:115-117, Unknown.java:111-113) |
| `Optionals.Optional.FlatMap` | src/main/java/com/cynava/outcomes/optional/Present.java:125-132 | Present returns the mapper's Optional unchanged; a null mapper or a null result raises NullPointerException; Empty and Unknown are kept (Empty.java:120-124, Unknown.java:116-120) |
| `Optionals.Optional.Or` | src/main/java/com/cynava/outcomes/optional/OptionalInterface.java:213-228 | Present returns itself without calling the supplier; otherwise the supplier's outcome, or NullPointerException for a null supplier (Empty.java:127-134, Unknown.java:123-127) |
| `Optionals.Optional.Stream` | src/main/java/com/cynava/outcomes/optional/OptionalInterface.java:230-243 | one element, the value, when Present; no element otherwise |
| `Optionals.Optional.IfPresent` | src/main/java/com/cynava/outcomes/optional/Present.java:69-71 | the action runs on the value only when Present, and a null action then raises NullPointerException; Empty and Unknown run nothing (Empty.java:59-61, Unknown.java:58-60) |
| `Optionals.Optional.IfPresentOrElse` | src/main/java/com/cynava/outcomes/optional/Unknown.java:63-65 | Present runs the action as `ifPresent` does; Empty and Unknown run the other action, and raise NullPointerException when it is null (Present.java:74-76, Empty.java:64-66) |
| `Optionals.Optional.ToJavaOptional` | src/main/java/com/cynava/outcomes/optional/Optional.java:104-110 | present with the value exactly when Present; Empty and Unknown both become the empty `java.util.Optional` |
| `Optionals.Optional.ToString` | src/main/java/com/cynava/outcomes/optional/Present.java:169-171 | "Optional[v]", "Optional.empty" and "Optional.unknown" (Empty.java:158-160, Unknown.java:151-153) |
| `Optionals.PresentOf` | src/main/java/com/cynava/outcomes/optional/Present.java:56-61 | null gives Empty, not an error; any other value gives a Present whose `get` is that value |
| `Optionals.OfNullable` | src/main/java/com/cynava/outcomes/optional/Optional.java:73-75 | `orElse(null)` gives back exactly the argument, and the result is never Unknown |
| `Optionals.OptionalOf` | src/main/java/com/cynava/outcomes/optional/Optional.java:45-47 | is `ofNullable`, so null gives Empty |
| `Optionals.OptionalOfJava` | src/main/java/com/cynava/outcomes/optional/Optional.java:57-63 | a null or empty `java.util.Optional` gives Empty; a present one gives Present of its value |
| `Optionals.EmptyOptional` | src/main/java/com/cynava/outcomes/optional/Optional.java:83-85 | Empty, with an empty stream |
| `Optionals.UnknownOptional` | src/main/java/com/cynava/outcomes/optional/Optional.java:93-95 | Unknown, with an empty stream |
| `Optionals.Equals` | src/main/java/com/cynava/outcomes/optional/Present.java:147-161 | equal to another Optional exactly when it is the same variant with an equal value; equal to a `java.util.Optional` exactly when it has the same content and this is not Unknown; never equal to null or other objects (Empty.java:142-155, Unknown.java:135-143) |
| `OptionalLaws.VariantsExclusive` | src/main/java/com/cynava/outcomes/optional/OptionalInterface.java:62-108 | exactly one of isPresent, isEmpty and isUnknown holds |
| `OptionalLaws.JavaOptionalRoundTrip` | src/main/java/com/cynava/outcomes/optional/Optional.java:57-110 | converting to `java.util.Optional` and back returns Present and Empty unchanged and turns Unknown into Empty |
| `OptionalLaws.PresentMap` | src/main/java/com/cynava/outcomes/optional/Present.java:120-122 | Present(v).map(f) is `ofNullable(f(v))` |
| `OptionalLaws.PresentFilter` | src/main/java/com/cynava/outcomes/optional/Present.java:114-117 | Present(v).filter(p) is Present(v) if and only if p(v) holds, and Empty otherwise |
| `OptionalLaws.MapIsFlatMap` | src/main/java/com/cynava/outcomes/optional/OptionalInterface.java:177-211 | for every variant, map(f) equals flatMap of f's result wrapped by `ofNullable` |
| `OptionalLaws.FilterIsFlatMap` | src/main/java/com/cynava/outcomes/optional/OptionalInterface.java:163-211 | for every variant, filter(p) equals flatMap that keeps or drops the value |
| `OptionalLaws.MapComposition` | src/main/java/com/cynava/outcomes/optional/OptionalInterface.java:177-193 | `o.map(f).map(g)` equals `o.map(g after f)`, exceptions included |
| `OptionalLaws.MapIdentity` | src/main/java/com/cynava/outcomes/optional/OptionalInterface.java:177-193 | mapping with the identity gives back the same Optional |
| `OptionalLaws.UnknownThroughChain` | src/main/java/com/cynava/outcomes/optional/Unknown.java:106-120 | Unknown goes through any chain of filter, map and flatMap unchanged and is never downgraded to Empty |
| `OptionalLaws.EmptyThroughChain` | src/main/java/com/cynava/outcomes/optional/Empty.java:110-124 | Empty goes through any chain of filter, map and flatMap unchanged |
| `OptionalLaws.FlattenLength` | src/main/java/com/cynava/outcomes/optional/OptionalInterface.java:230-243 | flat-mapping a sequence of Optionals through `stream` yields one element per Present and none for Empty or Unknown |
| `OptionalLaws.FlattenMembers` | src/main/java/com/cynava/outcomes/optional/OptionalInterface.java:230-243 | a value is in the flattened stream if and only if a Present of it is in the sequence |
| `OptionalLaws.ToStringDistinguishesVariants` | src/main/java/com/cynava/outcomes/optional/Present.java:169-171 | the text forms of Present, Empty and Unknown never coincide |
| `OptionalLaws.EqualsLaws` | src/main/java/com/cynava/outcomes/optional/Present.java:147-161 | equals is reflexive, symmetric and transitive on Optionals; Present and Empty equal their `java.util.Optional` view, and Unknown equals none |
| `Tries.Try.IsSuccess` | src/main/java/com/cynava/outcomes/errorhandling/Success.java:88-91 | true exactly when the outcome is not a Failure (Failure.java:62-64) |
| `Tries.Try.IsFailure` | src/main/java/com/cynava/outcomes/errorhandling/Failure.java:66-69 | true exactly when the outcome is not a Success (Success.java:94-96) |
| `Tries.Try.GetOrElse` | src/main/java/com/cynava/outcomes/errorhandling/TryInterface.java:54-63 | the Success value, whatever the supplier is; for a Failure, the supplier's outcome, or NullPointerException for a null supplier (Failure.java:72-77) |
| `Tries.Try.OrElse` | src/main/java/com/cynava/outcomes/errorhandling/TryInterface.java:65-73 | the Success value, or the alternative for a Failure |
| `Tries.Try.Get` | src/main/java/com/cynava/outcomes/errorhandling/TryInterface.java:75-82 | returns exactly for a Success and otherwise throws the Failure's own error |
| `Tries.Try.FlatMap` | src/main/java/com/cynava/outcomes/errorhandling/Success.java:114-128 | a Failure is returned unchanged without calling the mapper; a Success returns the mapper's Try as it is; a null mapper and any Exception the mapper throws become a Failure; a non-Exception the mapper throws (an Error) is rethrown, and nothing else escapes (Failure.java:103-107) |
| `Tries.Try.Map` | src/main/java/com/cynava/outcomes/errorhandling/Success.java:131-141 | a Failure is returned unchanged; a Success becomes Success(f(v)); a null mapper or null result becomes a NullPointerException Failure and a thrown Exception becomes a Failure of it; and a non-Exception the mapper throws (an Error) is rethrown, which is the only way it throws (Failure.java:110-112) |
| `Tries.Try.Filter` | src/main/java/com/cynava/outcomes/errorhandling/Success.java:144-150 | a Success stays when the predicate holds and otherwise becomes a NoSuchElementException Failure; a null predicate gives a NullPointerException Failure; an exception from the predicate propagates; a Failure is returned unchanged (Failure.java:115-117) |
| `Tries.Try.Failed` | src/main/java/com/cynava/outcomes/errorhandling/Failure.java:120-122 | a Failure becomes a Success of its error; a Success becomes an UnsupportedOperationException Failure (TryInterface.java:129-135, FailureTest.java:310-318) |
| `Tries.Try.IsInstance` | src/main/java/com/cynava/outcomes/errorhandling/Failure.java:98-100 | true exactly when the error's class is the given class or inherits from it; a null class raises NullPointerException |
| `Tries.Try.ToOptional` | src/main/java/com/cynava/outcomes/errorhandling/Try.java:38-46 | Present of the value exactly for a Success, Empty for a Failure, never Unknown |
| `Tries.Try.ToString` | src/main/java/com/cynava/outcomes/errorhandling/Success.java:169-172 | "Success[v]" or "Failure[e]" (Failure.java:141-144) |
| `Tries.SuccessOf` | src/main/java/com/cynava/outcomes/errorhandling/Success.java:62-67 | null raises NullPointerException; any other value gives a Success whose `get` is that value |
| `Tries.FailureOf` | src/main/java/com/cynava/outcomes/errorhandling/Failure.java:54-59 | null raises NullPointerException; any other error gives the Failure of it |
| `Tries.SuccessOfException` | src/main/java/com/cynava/outcomes/errorhandling/Success.java:78-86 | `Success.of` on an exception gives the Failure holding that exception |
| `Tries.Equals` | src/main/java/com/cynava/outcomes/errorhandling/Success.java:153-162 | equal exactly when both are Successes with equal values or both are Failures with equal errors; never equal to null (Failure.java:125-134) |
| `TryLaws.SuccessXorFailure` | src/main/java/com/cynava/outcomes/errorhandling/TryInterface.java:38-52 | isSuccess and isFailure always give opposite answers |
| `TryLaws.FailureThroughChain` | src/main/java/com/cynava/outcomes/errorhandling/Failure.java:103-117 | a Failure goes through any chain of map, flatMap and filter as itself, and no callback is called, not even a null one |
| `TryLaws.MapChainNeverThrows` | src/main/java/com/cynava/outcomes/errorhandling/Success.java:131-141 | a chain of maps whose mappers throw only Exceptions always returns, and leaves a Failure unchanged |
| `TryLaws.MapIsFlatMap` | src/main/java/com/cynava/outcomes/errorhandling/TryInterface.java:84-109 | map(f) equals flatMap of `Success.of` of f's result, with the same exceptions caught |
| `TryLaws.CaughtExceptionIsFailure` | src/main/java/com/cynava/outcomes/errorhandling/Success.java:131-141 | an Exception the mapper throws becomes the same Failure under map as under flatMap |
| `TryLaws.ToOptionalMap` | src/main/java/com/cynava/outcomes/errorhandling/Try.java:38-46 | `toOptional` turns Try's map into Optional's map whenever the mapper returns |
| `TryLaws.ToOptionalFilter` | src/main/java/com/cynava/outcomes/errorhandling/Try.java:38-46 | `toOptional` turns Try's filter into Optional's filter for a non-null predicate |
| `TryLaws.IsInstanceUpward` | src/main/java/com/cynava/outcomes/errorhandling/Failure.java:98-100 | a Failure that is an instance of a class is an instance of every superclass of that class |
| `TryLaws.IsInstanceOfRoots` | src/main/java/com/cynava/outcomes/errorhandling/Failure.java:98-100 | every Failure is an instance of Throwable, and is an instance of Exception exactly when `catch (Exception e)` would catch its error |
| `TryLaws.IsInstanceSeparates` | src/main/java/com/cynava/outcomes/errorhandling/Failure.java:98-100 | a Failure's class is never a subclass of a distinct class it is an instance of |
| `TryLaws.ToOptionalKeepsValue` | src/main/java/com/cynava/outcomes/errorhandling/Try.java:38-46 | `toOptional` keeps the Success value and the fact of success, and drops a Failure's error |
| `Worm.Step` | src/main/java/com/cynava/outcomes/worm/WormValue.java:57-98 | a write is accepted exactly when the cell is Empty and the value is not null; an accepted write stores Present(v) or Unknown; a refused write changes nothing and raises IllegalArgumentException for null and UnsupportedOperationException otherwise |
| `Worm.WriteOnce` | src/main/java/com/cynava/outcomes/worm/WormValue.java:67-96 | once the cell is not Empty, no sequence of writes changes it or is accepted |
| `Worm.FirstWriterWins` | src/main/java/com/cynava/outcomes/worm/WormValue.java:67-96 | from an Empty cell, the first non-null write decides the value for good |
| `Worm.AtMostOneAccepted` | src/main/java/com/cynava/outcomes/worm/WormValue.java:67-96 | at most one write is ever accepted, and the cell is still Empty exactly when none was |
| `Worm.NeverEmptyAgain` | src/main/java/com/cynava/outcomes/worm/WormValue.java:67-96 | once some prefix of the writes has set the cell, the rest of the writes leave it as that prefix left it |
| `Worm.WormValue.constructor` | src/main/java/com/cynava/outcomes/worm/WormValue.java:45-50 | a new cell is Empty |
| `Worm.WormValue.Set` | src/main/java/com/cynava/outcomes/worm/WormValue.java:57-77 | the new value and the outcome are `Step` of the old value with `set(v)` |
| `Worm.WormValue.SetUnknown` | src/main/java/com/cynava/outcomes/worm/WormValue.java:82-98 | the new value and the outcome are `Step` of the old value with `setUnknown()` |
| `Worm.WormValue.Get` | src/main/java/com/cynava/outcomes/worm/WormValue.java:105-112 | returns the cell's current value |
| `Worm.WormValue.IfPresent` | src/main/java/com/cynava/outcomes/worm/WormValue.java:120-127 | true exactly when a write was accepted, whether a value or Unknown |
| `Worm.WormValue.IsSet` | src/main/java/com/cynava/outcomes/worm/WormValue.java:135-142 | true exactly when a known value is stored, and then the cell is not Unknown |
| `Worm.WormValue.IsUnknown` | src/main/java/com/cynava/outcomes/worm/WormValue.java:150-157 | true exactly when the cell is Unknown, and then no value is present |
| `Worm.WormValue.Of` | src/main/java/com/cynava/outcomes/worm/WormValue.java:166-170 | a new cell holding Present(v), or IllegalArgumentException for null |
| `Worm.WormValue.OfUnknown` | src/main/java/com/cynava/outcomes/worm/WormValue.java:178-182 | a new cell that is Unknown |
| `Worm.WormValue.Create` | src/main/java/com/cynava/outcomes/worm/WormValue.java:190-192 | a new cell that is Empty |

## Left out

- Concurrency in `WormValue`: the read-write lock and the `synchronized`
  blocks are left out. Only the sequential state machine is modelled. The
  write lock is never released on the paths that succeed, so the
  cross-thread behaviour is not one the model tries to reproduce.
- The logging in `Success.of(Exception)` is left out. It has no effect on
  the result.
- `hashCode` is left out. It depends on Java's `Object.hashCode`.
- `Serializable` and the `serialVersionUID` constants are left out.
- A Throwable's stack trace and cause are left out (`Failure.message`,
  `stackTrace` and `cause`). A message is kept only where the library
  writes a literal one. Every other exception is given the message "" in
  the model. This covers the NullPointerException of a null dereference,
  of `throw null` and of `Objects.requireNonNull` without a message, whose
  text the JVM decides.
- Tries.Try.Failed: the UnsupportedOperationException for a Success is
  given the message "" in the model, because `Success` has no `failed()`
  that would fix it.
- Tries.Try.Filter: the Failure message for a rejected value omits the
  value's text, which Java appends with `toString`.
- Equality of values (`Objects.equals`) is Dafny's equality. Equality of
  Throwables, which is identity in Java, is value equality here.
- `Tries.Equals` compares a Try only with another Try or null. Java's
  `equals` also returns false for objects of any other class.
- `java.util.Optional.equals` is not modelled, so the equality seen from
  that side is not modelled either. The model covers only this library's
  `equals` against a `java.util.Optional`.
- Streams are finite sequences. Their laziness is not modelled.
- Consumers and Runnables are modelled by which of them runs and whether
  it throws. Their side effects are outside the model.
- A Java `Class` object is modelled by the class it stands for.
- Java generics and casts (`? extends T`, unchecked casts) are left out.
  Every value has its static type.
- `Try.of` is not modelled. The tests call it, but no such method exists
  in the code.
