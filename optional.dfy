/** The tri-state optional: a value is Present, there is no value (Empty),
    or a value exists but cannot be determined (Unknown). Each Java variant
    class becomes one constructor; each method one case split over them. */
module Optionals {
  import opened Java

  /** Which callback `ifPresent` / `ifPresentOrElse` ran. */
  datatype Ran = RanAction | RanEmptyAction | RanNothing

  datatype Optional<T> = Present(value: T) | Empty | Unknown {

    /** `isPresent()`: neither Empty nor Unknown. */
    function IsPresent(): (r: bool)
      ensures r <==> !Empty? && !Unknown?
    {
      Present?
    }

    /** `isEmpty()`: neither Present nor Unknown. */
    function IsEmpty(): (r: bool)
      ensures r <==> !Present? && !Unknown?
    {
      Empty?
    }

    /** `isUnknown()`: neither Present nor Empty. */
    function IsUnknown(): (r: bool)
      ensures r <==> !Present? && !Empty?
    {
      Unknown?
    }

    /** The stored value, or NoSuchElementException when there is none. */
    function Get(): (r: Call<T>)
      ensures r.Returned? <==> IsPresent()
      ensures r.Returned? ==> r.value == value
      ensures r.Threw? ==> r.error.kind == NoSuchElementException
    {
      match this
      case Present(v) => Returned(v)
      case Empty => Threw(Throwable(NoSuchElementException, "Empty instances have no values"))
      case Unknown => Threw(Throwable(NoSuchElementException, "Unknown instances cannot have values"))
    }

    /** The stored value, or the (possibly null) alternative. */
    function OrElse(alternative: Nullable<T>): (r: Nullable<T>)
      ensures IsPresent() ==> r == Ref(value)
      ensures !IsPresent() ==> r == alternative
    {
      match this
      case Present(v) => Ref(v)
      case _ => alternative
    }

    /** The stored value, or what the supplier produces; a null supplier
        fails only when there is no value. */
    function OrElseGet(supplier: Supplier<T>): (r: Call<Nullable<T>>)
      ensures IsPresent() ==> r == Returned(Ref(value))
      ensures !IsPresent() && supplier.Ref? ==> r == supplier.value()
      ensures !IsPresent() && supplier.Null? ==> r.Threw? && r.error.kind == NullPointerException
    {
      match this
      case Present(v) => Returned(Ref(v))
      case _ =>
        if supplier.Null? then Threw(Throwable(NullPointerException, "supplier cannot be nul"))
        else supplier.value()
    }

    /** Same as `Get`: Empty and Unknown delegate to it. */
    function OrElseThrow(): (r: Call<T>)
      ensures r == Get()
      ensures r.Threw? <==> !IsPresent()
    {
      match this
      case Present(v) => Returned(v)
      case _ => Get()
    }

    /** The stored value, or else throws what the supplier produces: it never
        returns without a value, and a null supplier fails with
        NullPointerException only when there is no value. */
    function OrElseThrowWith(supplier: Supplier<Throwable>): (r: Call<T>)
      ensures IsPresent() ==> r == Returned(value)
      ensures !IsPresent() ==> r.Threw?
      ensures !IsPresent() && supplier.Null? ==> r.error.kind == NullPointerException
      ensures !IsPresent() && supplier.Ref? && supplier.value().Returned? && supplier.value().value.Ref? ==>
                r.error == supplier.value().value.value
      ensures !IsPresent() && supplier.Ref? && supplier.value().Threw? ==> r.error == supplier.value().error
      ensures !IsPresent() && supplier.Ref? && supplier.value() == Returned(Null) ==> r.error.kind == NullPointerException
    {
      match this
      case Present(v) => Returned(v)
      case Empty =>
        if supplier.Null? then Threw(Throwable(NullPointerException, "provided supplier is null"))
        else Throw(supplier.value())
      case Unknown =>
        // `throw supplier.get()` dereferences the supplier without a check
        if supplier.Null? then Threw(NullDereference) else Throw(supplier.value())
    }

    /** Present stays when the predicate holds and becomes Empty otherwise;
        Empty and Unknown stay as they are and never consult the predicate. */
    function Filter(test: Predicate<T>): (r: Call<Optional<T>>)
      ensures !IsPresent() ==> r == Returned(this)
      ensures IsPresent() && test.Null? ==> r.Threw? && r.error.kind == NullPointerException
      ensures IsPresent() && test.Ref? && test.value(value).Returned? ==>
                r == Returned(if test.value(value).value then this else Empty)
      ensures IsPresent() && test.Ref? && test.value(value).Threw? ==>
                r == Threw(test.value(value).error)
    {
      match this
      case Present(v) =>
        if test.Null? then Threw(NullDereference)
        else (match test.value(v)
              case Threw(e) => Threw(e)
              case Returned(b) => Returned(if b then this else Empty))
      case Empty => Returned(Empty)
      case Unknown => Returned(Unknown)
    }

    /** Applies the mapper to a Present value; a null result gives Empty.
        Empty maps to Empty and Unknown to Unknown whatever the mapper. */
    function Map<U>(mapper: Function<T, U>): (r: Call<Optional<U>>)
      ensures IsEmpty() ==> r == Returned(Empty)
      ensures IsUnknown() ==> r == Returned(Unknown)
      ensures IsPresent() && mapper.Null? ==> r.Threw? && r.error.kind == NullPointerException
      ensures IsPresent() && mapper.Ref? && mapper.value(value) == Returned(Null) ==> r == Returned(Empty)
      ensures IsPresent() && mapper.Ref? && mapper.value(value).Returned? && mapper.value(value).value.Ref? ==>
                r == Returned(Present(mapper.value(value).value.value))
      ensures IsPresent() && mapper.Ref? && mapper.value(value).Threw? ==> r == Threw(mapper.value(value).error)
    {
      match this
      case Present(v) =>
        if mapper.Null? then Threw(NullDereference)
        else (match mapper.value(v)
              case Threw(e) => Threw(e)
              case Returned(u) => Returned(OfNullable(u)))
      case Empty => Returned(Empty)
      case Unknown => Returned(Unknown)
    }

    /** Returns the mapper's own Optional for a Present value, failing with
        NullPointerException for a null mapper or a null result. */
    function FlatMap<U>(mapper: Function<T, Optional<U>>): (r: Call<Optional<U>>)
      ensures IsEmpty() ==> r == Returned(Empty)
      ensures IsUnknown() ==> r == Returned(Unknown)
      ensures IsPresent() && mapper.Null? ==> r.Threw? && r.error.kind == NullPointerException
      ensures IsPresent() && mapper.Ref? && mapper.value(value) == Returned(Null) ==>
                r.Threw? && r.error.kind == NullPointerException
      ensures IsPresent() && mapper.Ref? && mapper.value(value).Returned? && mapper.value(value).value.Ref? ==>
                r == Returned(mapper.value(value).value.value)
      ensures IsPresent() && mapper.Ref? && mapper.value(value).Threw? ==> r == Threw(mapper.value(value).error)
    {
      match this
      case Present(v) =>
        if mapper.Null? then Threw(NullDereference)
        else (match mapper.value(v)
              case Threw(e) => Threw(e)
              case Returned(Null) => Threw(NullDereference)
              case Returned(Ref(o)) => Returned(o))
      case Empty => Returned(Empty)
      case Unknown => Returned(Unknown)
    }

    /** Keeps a Present; otherwise whatever the supplier produces (null
        included). A null supplier fails only when there is no value. */
    function Or(supplier: Supplier<Optional<T>>): (r: Call<Nullable<Optional<T>>>)
      ensures IsPresent() ==> r == Returned(Ref(this))
      ensures !IsPresent() && supplier.Ref? ==> r == supplier.value()
      ensures !IsPresent() && supplier.Null? ==> r.Threw? && r.error.kind == NullPointerException
    {
      match this
      case Present(_) => Returned(Ref(this))
      case Empty =>
        if supplier.Null? then Threw(Throwable(NullPointerException, "supplier cannot be null"))
        else supplier.value()
      case Unknown =>
        if supplier.Null? then Threw(NullDereference) else supplier.value()
    }

    /** The stream of the value: one element when present, none otherwise. */
    function Stream(): (r: seq<T>)
      ensures |r| == if IsPresent() then 1 else 0
      ensures IsPresent() ==> r[0] == value
    {
      match this
      case Present(v) => [v]
      case _ => []
    }

    /** Runs the action on a present value (a null action fails then);
        Empty and Unknown do nothing, whatever the action. */
    function IfPresent(action: Consumer<T>): (r: Call<Ran>)
      ensures !IsPresent() ==> r == Returned(RanNothing)
      ensures IsPresent() && action.Null? ==> r.Threw? && r.error.kind == NullPointerException
      ensures IsPresent() && action.Ref? ==>
                r == (if action.value(value).Threw? then Threw(action.value(value).error) else Returned(RanAction))
    {
      match this
      case Present(v) =>
        if action.Null? then Threw(NullDereference)
        else (match action.value(v)
              case Threw(e) => Threw(e)
              case Returned(_) => Returned(RanAction))
      case _ => Returned(RanNothing)
    }

    /** Runs the action on a present value and the empty-action otherwise;
        only the callback that runs must be non-null. */
    function IfPresentOrElse(action: Consumer<T>, emptyAction: Runnable): (r: Call<Ran>)
      ensures IsPresent() ==> r == IfPresent(action)
      ensures !IsPresent() && emptyAction.Null? ==> r.Threw? && r.error.kind == NullPointerException
      ensures !IsPresent() && emptyAction.Ref? ==>
                r == (if emptyAction.value().Threw? then Threw(emptyAction.value().error) else Returned(RanEmptyAction))
    {
      match this
      case Present(_) => IfPresent(action)
      case _ =>
        if emptyAction.Null? then Threw(NullDereference)
        else (match emptyAction.value()
              case Threw(e) => Threw(e)
              case Returned(_) => Returned(RanEmptyAction))
    }

    /** `java.util.Optional` view: the value if present, empty for both
        Empty and Unknown. */
    function ToJavaOptional(): (r: JavaOptional<T>)
      ensures r.JavaOf? <==> IsPresent()
      ensures r.JavaOf? ==> r.value == value
    {
      if IsPresent() then JavaOf(Get().value) else JavaEmpty
    }

    /** The text form; `show` stands for the value's own `toString`. */
    function ToString(show: T -> string): (r: string)
      ensures IsEmpty() ==> r == "Optional.empty"
      ensures IsUnknown() ==> r == "Optional.unknown"
      ensures IsPresent() ==> r == "Optional[" + show(value) + "]"
    {
      match this
      case Present(v) => "Optional[" + show(v) + "]"
      case Empty => "Optional.empty"
      case Unknown => "Optional.unknown"
    }
  }

  /** `Present.of`: a Present for a value, Empty (not an error) for null. */
  function PresentOf<T>(value: Nullable<T>): (r: Optional<T>)
    ensures value.Null? ==> r == Empty
    ensures value.Ref? ==> r.IsPresent() && r.Get() == Returned(value.value)
  {
    if value.Null? then Empty else Present(value.value)
  }

  /** `Optional.ofNullable`: Empty for null, Present otherwise. */
  function OfNullable<T>(value: Nullable<T>): (r: Optional<T>)
    ensures r.OrElse(Null) == value
    ensures !r.IsUnknown()
  {
    if value.Null? then Empty else PresentOf(value)
  }

  /** `Optional.of(value)`: the same as `ofNullable`, so null gives Empty. */
  function OptionalOf<T>(value: Nullable<T>): (r: Optional<T>)
    ensures r == OfNullable(value)
    ensures value.Null? ==> r.IsEmpty()
  {
    OfNullable(value)
  }

  /** `Optional.of(java.util.Optional)`: a null or empty argument gives
      Empty, a present one gives Present of its value. */
  function OptionalOfJava<T>(value: Nullable<JavaOptional<T>>): (r: Optional<T>)
    ensures value.Null? || value.value.JavaEmpty? ==> r == Empty
    ensures value.Ref? && value.value.JavaOf? ==> r == Present(value.value.value)
  {
    if value.Null? || value.value.JavaEmpty? then EmptyOptional()
    else OfNullable(Ref(value.value.value))
  }

  /** `Optional.empty()` and `Empty.empty()`. */
  function EmptyOptional<T>(): (r: Optional<T>)
    ensures r.IsEmpty() && r.Stream() == []
  {
    Empty
  }

  /** `Optional.unknown()` and `Unknown.unknown()`. */
  function UnknownOptional<T>(): (r: Optional<T>)
    ensures r.IsUnknown() && r.Stream() == []
  {
    Unknown
  }

  /** The argument of `equals(Object)`: null, one of this library's
      Optionals, a `java.util.Optional`, or any other object. */
  datatype JavaObject<T> = NullObject | AnOptional(optional: Optional<T>)
                     | AJavaOptional(javaOptional: JavaOptional<T>) | OtherObject

  /** `equals` of the three variants: same variant and equal value; Present
      and Empty also equal the `java.util.Optional` holding the same, while
      Unknown equals only Unknown. */
  function Equals<T(==)>(self: Optional<T>, other: JavaObject<T>): (r: bool)
    ensures other.AnOptional? ==> (r <==> self == other.optional)
    ensures other.AJavaOptional? ==>
              (r <==> !self.IsUnknown() && self.ToJavaOptional() == other.javaOptional)
    ensures other.NullObject? || other.OtherObject? ==> !r
  {
    match self
    case Present(v) =>
      (match other
       case AJavaOptional(j) => j.JavaOf? && v == j.value
       case AnOptional(o) => o.Present? && v == o.value
       case _ => false)
    case Empty =>
      (match other
       case AJavaOptional(j) => j.JavaEmpty?
       case AnOptional(o) => o.Empty?
       case _ => false)
    case Unknown => other == AnOptional(Unknown)
  }
}
