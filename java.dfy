/** The few pieces of the Java platform the library leans on, as values:
    references that may be null, calls that may throw, the Throwable class
    tree that `Class.isInstance` walks, and `java.util.Optional`. */
module Java {

  /** A Java reference of type T that may be null. */
  datatype Nullable<T> = Null | Ref(value: T)

  /** What a Java call does: it returns a value or it throws. */
  datatype Call<T> = Returned(value: T) | Threw(error: Throwable)

  /** Throwable classes: the JDK classes the library raises and their
      ancestors, and any other class by its direct superclass. */
  datatype Kind =
    | ThrowableClass
    | ExceptionClass
    | ErrorClass
    | RuntimeExceptionClass
    | NullPointerException
    | NoSuchElementException
    | IllegalArgumentException
    | UnsupportedOperationException
    | UserClass(name: string, superclass: Kind)

  /** A thrown object: its class and its message. The model gives "" to
      every exception whose message the library does not write itself. */
  datatype Throwable = Throwable(kind: Kind, message: string)

  /** The NullPointerException raised without a library message: a null
      dereference, `throw null`, or `Objects.requireNonNull` without a
      message. Its text comes from the JVM and is not modelled; the model
      gives it "". */
  const NullDereference := Throwable(NullPointerException, "")

  /** Distance from `Throwable` in the class tree. */
  function Depth(k: Kind): nat {
    match k
    case ThrowableClass => 0
    case ExceptionClass => 1
    case ErrorClass => 1
    case RuntimeExceptionClass => 2
    case UserClass(_, sup) => Depth(sup) + 1
    case _ => 3
  }

  /** The direct superclass; only `Throwable` has none. */
  function Superclass(k: Kind): (r: Nullable<Kind>)
    ensures r.Null? <==> k == ThrowableClass
    ensures r.Ref? ==> Depth(r.value) + 1 == Depth(k)
  {
    match k
    case ThrowableClass => Null
    case ExceptionClass => Ref(ThrowableClass)
    case ErrorClass => Ref(ThrowableClass)
    case RuntimeExceptionClass => Ref(ExceptionClass)
    case UserClass(_, sup) => Ref(sup)
    case _ => Ref(RuntimeExceptionClass)
  }

  /** `of.isInstance(x)` for an x of class k: k is `of` or inherits from it. */
  function IsSubclass(k: Kind, of: Kind): (r: bool)
    ensures k == of ==> r
    ensures r && k != of ==> Depth(of) < Depth(k)
    decreases Depth(k)
  {
    k == of || (Superclass(k).Ref? && IsSubclass(Superclass(k).value, of))
  }

  /** A `catch (Exception e)` clause catches exactly these. */
  function IsException(e: Throwable): (r: bool)
    ensures e.kind in {ThrowableClass, ErrorClass} ==> !r
    ensures e.kind in {ExceptionClass, RuntimeExceptionClass} ==> r
    ensures e.kind in {NullPointerException, NoSuchElementException, IllegalArgumentException, UnsupportedOperationException} ==> r
  {
    IsSubclass(e.kind, ExceptionClass)
  }

  /** Java's `throw x` where x is the result of evaluating an expression:
      an exception raised while evaluating x propagates, and `throw null`
      raises a NullPointerException. */
  function Throw<X>(thrown: Call<Nullable<Throwable>>): (r: Call<X>)
    ensures r.Threw?
    ensures thrown.Returned? && thrown.value.Ref? ==> r.error == thrown.value.value
    ensures thrown.Threw? ==> r.error == thrown.error
    ensures thrown == Returned(Null) ==> r.error.kind == NullPointerException
  {
    match thrown
    case Threw(e) => Threw(e)
    case Returned(Null) => Threw(NullDereference)
    case Returned(Ref(e)) => Threw(e)
  }

  /** `java.util.Optional`, which never holds null. */
  datatype JavaOptional<T> = JavaEmpty | JavaOf(value: T)

  /** User callbacks: each may itself be null, may throw, and (where Java's
      type allows it) may return null. */
  type Supplier<T> = Nullable<() -> Call<Nullable<T>>>
  type Function<!T, U> = Nullable<T -> Call<Nullable<U>>>
  type Predicate<!T> = Nullable<T -> Call<bool>>
  type Consumer<!T> = Nullable<T -> Call<()>>
  type Runnable = Nullable<() -> Call<()>>

  /** A class inherits from `of` exactly when `of` is reached by walking up
      its superclass chain; walking up preserves the relation. */
  lemma {:induction false} SubclassTransitive(a: Kind, b: Kind, c: Kind)
    requires IsSubclass(a, b) && IsSubclass(b, c)
    ensures IsSubclass(a, c)
    decreases Depth(a)
  {
    if a != b {
      SubclassTransitive(Superclass(a).value, b, c);
    }
  }

  /** A subclass sits at least as deep as its ancestor. */
  lemma {:induction false} SubclassDepth(a: Kind, b: Kind)
    requires IsSubclass(a, b)
    ensures Depth(b) <= Depth(a)
    ensures Depth(b) == Depth(a) ==> a == b
    decreases Depth(a)
  {
    if a != b {
      SubclassDepth(Superclass(a).value, b);
    }
  }

  /** Two distinct classes never inherit from each other. */
  lemma SubclassAntisymmetric(a: Kind, b: Kind)
    requires IsSubclass(a, b) && IsSubclass(b, a)
    ensures a == b
  {
    SubclassDepth(a, b);
    SubclassDepth(b, a);
  }

  /** Every class is a Throwable. */
  lemma {:induction false} EveryKindIsThrowable(k: Kind)
    ensures IsSubclass(k, ThrowableClass)
    decreases Depth(k)
  {
    if k != ThrowableClass {
      EveryKindIsThrowable(Superclass(k).value);
    }
  }

  /** Errors are not Exceptions, so `catch (Exception e)` lets them through. */
  lemma {:induction false} ErrorsAreNotExceptions(k: Kind)
    requires IsSubclass(k, ErrorClass)
    ensures !IsSubclass(k, ExceptionClass)
    decreases Depth(k)
  {
    if k != ErrorClass {
      ErrorsAreNotExceptions(Superclass(k).value);
    }
  }
}
