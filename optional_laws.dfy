/** Properties of the tri-state optional that relate several operations or
    several calls: variant exclusivity, the `java.util.Optional` round trip,
    map/filter as flatMap, map composition, propagation of Empty and Unknown
    through a chain of combinators, and flattening streams. */
module OptionalLaws {
  import opened Java
  import opened Optionals

  /** Exactly one of isPresent, isEmpty and isUnknown holds. */
  lemma VariantsExclusive<T>(o: Optional<T>)
    ensures o.IsPresent() || o.IsEmpty() || o.IsUnknown()
    ensures !(o.IsPresent() && o.IsEmpty())
    ensures !(o.IsPresent() && o.IsUnknown())
    ensures !(o.IsEmpty() && o.IsUnknown())
  {
  }

  /** Converting to `java.util.Optional` and back gives back Present and
      Empty, while Unknown comes back as Empty: the round trip is lossy. */
  lemma JavaOptionalRoundTrip<T>(o: Optional<T>)
    ensures OptionalOfJava(Ref(o.ToJavaOptional())) == (if o.IsUnknown() then Empty else o)
  {
  }

  /** Present(v).map(f) is Present(f(v)) for a non-null result and Empty for
      a null one. */
  lemma PresentMap<T, U>(v: T, f: T -> Call<Nullable<U>>)
    requires f(v).Returned?
    ensures Present(v).Map(Ref(f)) == Returned(OfNullable(f(v).value))
  {
  }

  /** Present(v).filter(p) is Present(v) exactly when p(v) holds, else Empty. */
  lemma PresentFilter<T>(v: T, p: T -> Call<bool>)
    requires p(v).Returned?
    ensures Present(v).Filter(Ref(p)).Returned?
    ensures Present(v).Filter(Ref(p)).value == Present(v) <==> p(v).value
    ensures Present(v).Filter(Ref(p)).value != Present(v) ==> Present(v).Filter(Ref(p)).value == Empty
  {
  }

  /** The mapper that flatMap needs in order to behave as map. */
  function Lift<T, U>(f: T -> Call<Nullable<U>>): T -> Call<Nullable<Optional<U>>> {
    x => match f(x)
         case Threw(e) => Threw(e)
         case Returned(u) => Returned(Ref(OfNullable(u)))
  }

  /** The mapper that flatMap needs in order to behave as filter. */
  function KeepIf<T>(p: T -> Call<bool>): T -> Call<Nullable<Optional<T>>> {
    x => match p(x)
         case Threw(e) => Threw(e)
         case Returned(b) => Returned(Ref(if b then Present(x) else Empty))
  }

  /** map is flatMap over the mapper's result wrapped by ofNullable. */
  lemma MapIsFlatMap<T, U>(o: Optional<T>, f: T -> Call<Nullable<U>>)
    ensures o.Map(Ref(f)) == o.FlatMap(Ref(Lift(f)))
  {
  }

  /** filter is flatMap that keeps or drops the value. */
  lemma FilterIsFlatMap<T>(o: Optional<T>, p: T -> Call<bool>)
    ensures o.Filter(Ref(p)) == o.FlatMap(Ref(KeepIf(p)))
  {
  }

  /** The Java chain `c.map(g)` where c is the outcome of an earlier call:
      an exception from the earlier call propagates. */
  function ThenMap<T, U>(c: Call<Optional<T>>, g: Function<T, U>): Call<Optional<U>> {
    match c
    case Threw(e) => Threw(e)
    case Returned(o) => o.Map(g)
  }

  /** `g` after `f`, where a null from `f` short-circuits to null. */
  function Compose<A, B, C>(f: A -> Call<Nullable<B>>, g: B -> Call<Nullable<C>>): A -> Call<Nullable<C>> {
    x => match f(x)
         case Threw(e) => Threw(e)
         case Returned(Null) => Returned(Null)
         case Returned(Ref(y)) => g(y)
  }

  /** `o.map(f).map(g)` equals `o.map(g after f)`, for every variant. */
  lemma MapComposition<A, B, C>(o: Optional<A>, f: A -> Call<Nullable<B>>, g: B -> Call<Nullable<C>>)
    ensures ThenMap(o.Map(Ref(f)), Ref(g)) == o.Map(Ref(Compose(f, g)))
  {
  }

  /** Mapping with the identity gives back the same Optional. */
  lemma MapIdentity<T>(o: Optional<T>)
    ensures o.Map(Ref((x: T) => Returned(Ref(x)))) == Returned(o)
  {
  }

  /** One step of a chain of combinators on Optionals of one type. */
  datatype Combinator<!T> =
    | FilterBy(test: Predicate<T>)
    | MapBy(mapper: Function<T, T>)
    | FlatMapBy(flatMapper: Function<T, Optional<T>>)

  function Apply<T>(o: Optional<T>, c: Combinator<T>): Call<Optional<T>> {
    match c
    case FilterBy(p) => o.Filter(p)
    case MapBy(f) => o.Map(f)
    case FlatMapBy(f) => o.FlatMap(f)
  }

  /** `o.c1(..).c2(..)...`: the first exception ends the chain. */
  function Chain<T>(o: Optional<T>, cs: seq<Combinator<T>>): Call<Optional<T>>
    decreases |cs|
  {
    if cs == [] then Returned(o)
    else match Apply(o, cs[0])
         case Threw(e) => Threw(e)
         case Returned(o') => Chain(o', cs[1..])
  }

  /** Unknown goes through any chain of filter/map/flatMap unchanged: it is
      never downgraded to Empty and no argument, even null, is applied. */
  lemma {:induction false} UnknownThroughChain<T>(cs: seq<Combinator<T>>)
    ensures Chain(Unknown, cs) == Returned(Unknown)
    decreases |cs|
  {
    if cs != [] {
      UnknownThroughChain(cs[1..]);
    }
  }

  /** Empty goes through any chain of filter/map/flatMap unchanged. */
  lemma {:induction false} EmptyThroughChain<T>(cs: seq<Combinator<T>>)
    ensures Chain(Empty, cs) == Returned(Empty)
    decreases |cs|
  {
    if cs != [] {
      EmptyThroughChain(cs[1..]);
    }
  }

  /** `os.flatMap(Optional::stream)`: the present values, in order. */
  function Flatten<T>(os: seq<Optional<T>>): seq<T>
    decreases |os|
  {
    if os == [] then [] else os[0].Stream() + Flatten(os[1..])
  }

  function PresentCount<T>(os: seq<Optional<T>>): nat
    decreases |os|
  {
    if os == [] then 0 else (if os[0].IsPresent() then 1 else 0) + PresentCount(os[1..])
  }

  /** Flattening the streams keeps one element per Present and none for
      Empty or Unknown. */
  lemma {:induction false} FlattenLength<T>(os: seq<Optional<T>>)
    ensures |Flatten(os)| == PresentCount(os)
    decreases |os|
  {
    if os != [] {
      FlattenLength(os[1..]);
    }
  }

  /** A value is in the flattened stream exactly when a Present of it is in
      the sequence. */
  lemma {:induction false} FlattenMembers<T>(os: seq<Optional<T>>, x: T)
    ensures x in Flatten(os) <==> Present(x) in os
    decreases |os|
  {
    if os != [] {
      FlattenMembers(os[1..], x);
      assert os == [os[0]] + os[1..];
    }
  }

  /** The text forms of the three variants never coincide. */
  lemma ToStringDistinguishesVariants<T>(o: Optional<T>, show: T -> string)
    ensures o.IsPresent() ==> o.ToString(show) != Empty.ToString(show)
    ensures o.IsPresent() ==> o.ToString(show) != Unknown.ToString(show)
    ensures Empty.ToString(show) != Unknown.ToString(show)
  {
    if o.IsPresent() {
      assert o.ToString(show)[8] == '[';
      assert Empty.ToString(show)[8] == '.';
    }
  }

  /** Equality is an equivalence on Optionals and, for Present and Empty,
      agrees with equality of the `java.util.Optional` views. */
  lemma EqualsLaws<T>(a: Optional<T>, b: Optional<T>, c: Optional<T>)
    ensures Equals(a, AnOptional(a))
    ensures Equals(a, AnOptional(b)) <==> Equals(b, AnOptional(a))
    ensures Equals(a, AnOptional(b)) && Equals(b, AnOptional(c)) ==> Equals(a, AnOptional(c))
    ensures !a.IsUnknown() ==> Equals(a, AJavaOptional(a.ToJavaOptional()))
    ensures a.IsUnknown() ==> !Equals(a, AJavaOptional(b.ToJavaOptional()))
  {
  }
}
