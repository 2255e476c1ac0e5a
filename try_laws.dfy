/** Properties of Try that relate several operations or several calls:
    Failure propagation through chains, maps that never throw, map as
    flatMap, agreement of map and filter with their Optional counterparts
    through `toOptional`, and `isInstance` along the class tree. */
module TryLaws {
  import opened Java
  import opened Optionals
  import opened Tries

  /** isSuccess and isFailure always disagree. */
  lemma SuccessXorFailure<T>(t: Try<T>)
    ensures t.IsSuccess() != t.IsFailure()
  {
  }

  /** One step of a chain of Try combinators on one value type. */
  datatype Step<!T> =
    | FilterBy(test: Predicate<T>)
    | MapBy(mapper: Function<T, T>)
    | FlatMapBy(flatMapper: Function<T, Try<T>>)

  function Apply<T>(t: Try<T>, s: Step<T>): Call<Nullable<Try<T>>> {
    match s
    case FilterBy(p) => (match t.Filter(p) case Threw(e) => Threw(e) case Returned(t') => Returned(Ref(t')))
    case MapBy(f) => (match t.Map(f) case Threw(e) => Threw(e) case Returned(t') => Returned(Ref(t')))
    case FlatMapBy(f) => t.FlatMap(f)
  }

  /** `t.s1(..).s2(..)...`: an exception ends the chain, and a null handed
      on by flatMap is dereferenced by the next call. */
  function Chain<T>(t: Try<T>, ss: seq<Step<T>>): Call<Nullable<Try<T>>>
    decreases |ss|
  {
    if ss == [] then Returned(Ref(t))
    else match Apply(t, ss[0])
         case Threw(e) => Threw(e)
         case Returned(Null) => if |ss| == 1 then Returned(Null) else Threw(NullDereference)
         case Returned(Ref(t')) => Chain(t', ss[1..])
  }

  /** A Failure goes through any chain of map/flatMap/filter as itself:
      no callback, not even a null one, is consulted. */
  lemma {:induction false} FailureThroughChain<T>(e: Throwable, ss: seq<Step<T>>)
    ensures Chain(Failure(e), ss) == Returned(Ref(Failure(e)))
    decreases |ss|
  {
    if ss != [] {
      FailureThroughChain(e, ss[1..]);
    }
  }

  /** The mapper throws nothing but Exceptions (a null mapper throws nothing). */
  ghost predicate ThrowsOnlyExceptions<T(!new), U>(m: Function<T, U>) {
    m.Ref? ==> forall x :: m.value(x).Threw? ==> IsException(m.value(x).error)
  }

  /** `t.map(f1).map(f2)...`. */
  function MapAll<T>(t: Try<T>, fs: seq<Function<T, T>>): Call<Try<T>>
    decreases |fs|
  {
    if fs == [] then Returned(t)
    else match t.Map(fs[0])
         case Threw(e) => Threw(e)
         case Returned(t') => MapAll(t', fs[1..])
  }

  /** A chain of maps needs no exception handling: with mappers that throw
      only Exceptions, the chain always returns, and a Failure comes out
      unchanged. */
  lemma {:induction false} MapChainNeverThrows<T(!new)>(t: Try<T>, fs: seq<Function<T, T>>)
    requires forall i :: 0 <= i < |fs| ==> ThrowsOnlyExceptions(fs[i])
    ensures MapAll(t, fs).Returned?
    ensures t.IsFailure() ==> MapAll(t, fs) == Returned(t)
    decreases |fs|
  {
    if fs != [] {
      assert ThrowsOnlyExceptions(fs[0]);
      MapChainNeverThrows(t.Map(fs[0]).value, fs[1..]);
    }
  }

  /** The flatMap mapper that makes flatMap behave as map. */
  function Lift<T, U>(f: T -> Call<Nullable<U>>): T -> Call<Nullable<Try<U>>> {
    x => match f(x)
         case Threw(e) => Threw(e)
         case Returned(u) =>
           (match SuccessOf(u)
            case Threw(e) => Returned(Ref(Failure(e)))
            case Returned(t) => Returned(Ref(t)))
  }

  /** map is flatMap over `Success.of` of the mapper's result, catching
      the same exceptions. */
  lemma MapIsFlatMap<T, U>(t: Try<T>, f: T -> Call<Nullable<U>>)
    ensures t.FlatMap(Ref(Lift(f))) ==
            (match t.Map(Ref(f)) case Threw(e) => Threw(e) case Returned(t') => Returned(Ref(t')))
  {
  }

  /** A Success mapped by a mapper that throws an Exception is that Failure,
      exactly as when the mapper returns it from flatMap. */
  lemma CaughtExceptionIsFailure<T, U>(v: T, f: T -> Call<Nullable<U>>, e: Throwable)
    requires f(v) == Threw(e) && IsException(e)
    ensures Success(v).Map(Ref(f)) == Returned(Failure(e))
    ensures Success(v).FlatMap(Ref(Lift(f))) == Returned(Ref(Failure(e)))
  {
  }

  /** toOptional turns Try's map into Optional's map, as long as the
      mapper returns (a null result is Empty on both sides). */
  lemma ToOptionalMap<T, U>(t: Try<T>, f: T -> Call<Nullable<U>>)
    requires t.IsSuccess() ==> f(t.value).Returned?
    ensures t.Map(Ref(f)).Returned?
    ensures t.ToOptional().Map(Ref(f)) == Returned(t.Map(Ref(f)).value.ToOptional())
  {
  }

  /** toOptional turns Try's filter into Optional's filter for a non-null
      predicate: a rejected Success and the Optional it gives are both
      dropped to Empty. */
  lemma ToOptionalFilter<T>(t: Try<T>, p: T -> Call<bool>)
    ensures t.ToOptional().Filter(Ref(p)) ==
            (match t.Filter(Ref(p)) case Threw(e) => Threw(e) case Returned(t') => Returned(t'.ToOptional()))
  {
  }

  /** `isInstance` is closed upwards: a Failure that is an instance of a
      class is an instance of every superclass of it. */
  lemma IsInstanceUpward<T>(t: Try<T>, k: Kind, sup: Kind)
    requires t.IsFailure() && t.IsInstance(Ref(k)) == Returned(true)
    requires IsSubclass(k, sup)
    ensures t.IsInstance(Ref(sup)) == Returned(true)
  {
    SubclassTransitive(t.error.kind, k, sup);
  }

  /** Every Failure is an instance of Throwable, and of Exception exactly
      when a `catch (Exception e)` would have caught its error. */
  lemma IsInstanceOfRoots<T>(t: Try<T>)
    requires t.IsFailure()
    ensures t.IsInstance(Ref(ThrowableClass)) == Returned(true)
    ensures t.IsInstance(Ref(ExceptionClass)) == Returned(IsException(t.error))
  {
    EveryKindIsThrowable(t.error.kind);
  }

  /** Two distinct classes are never both instances of each other, so
      `isInstance` separates failures by class. */
  lemma IsInstanceSeparates<T>(t: Try<T>, k: Kind)
    requires t.IsFailure() && t.error.kind != k
    requires t.IsInstance(Ref(k)) == Returned(true)
    ensures !IsSubclass(k, t.error.kind)
  {
    if IsSubclass(k, t.error.kind) {
      SubclassAntisymmetric(k, t.error.kind);
    }
  }

  /** toOptional loses only the error: the value of a Success and the fact
      of success both survive. */
  lemma ToOptionalKeepsValue<T>(t: Try<T>)
    ensures t.ToOptional().Get().Returned? <==> t.Get().Returned?
    ensures t.IsSuccess() ==> t.ToOptional().Get() == t.Get()
    ensures t.IsFailure() ==> t.ToOptional() == Empty
  {
  }
}
