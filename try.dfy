/** The Try outcome: a computation that succeeded with a value or failed
    with a Throwable. Success's map/flatMap/filter turn a null callback, a
    null result or a caught Exception into a Failure value. */
module Tries {
  import opened Java
  import opened Optionals

  datatype Try<T> = Success(value: T) | Failure(error: Throwable) {

    /** `isSuccess()`: not a Failure. */
    function IsSuccess(): (r: bool)
      ensures r <==> !Failure?
    {
      Success?
    }

    /** `isFailure()`: not a Success. */
    function IsFailure(): (r: bool)
      ensures r <==> !Success?
    {
      Failure?
    }

    /** The Success value, or the supplier's value for a Failure; the
        supplier is consulted (and must be non-null) only for a Failure. */
    function GetOrElse(supplier: Supplier<T>): (r: Call<Nullable<T>>)
      ensures IsSuccess() ==> r == Returned(Ref(value))
      ensures IsFailure() && supplier.Ref? ==> r == supplier.value()
      ensures IsFailure() && supplier.Null? ==> r.Threw? && r.error.kind == NullPointerException
    {
      match this
      case Success(v) => Returned(Ref(v))
      case Failure(_) =>
        if supplier.Null? then Threw(Throwable(NullPointerException, "supplier cannot be null"))
        else supplier.value()
    }

    /** The Success value, or the (possibly null) alternative. */
    function OrElse(alternative: Nullable<T>): (r: Nullable<T>)
      ensures IsSuccess() ==> r == Ref(value)
      ensures IsFailure() ==> r == alternative
    {
      match this
      case Success(v) => Ref(v)
      case Failure(_) => alternative
    }

    /** The Success value, or the Failure's own error is thrown. */
    function Get(): (r: Call<T>)
      ensures r.Returned? <==> IsSuccess()
      ensures r.Returned? ==> r.value == value
      ensures r.Threw? ==> r.error == error
    {
      match this
      case Success(v) => Returned(v)
      case Failure(e) => Threw(e)
    }

    /** flatMap: the mapper's own Try (null included) for a Success; a null
        mapper and any Exception the mapper throws become a Failure. Only a
        non-Exception Throwable escapes. A Failure is returned unchanged. */
    function FlatMap<U>(mapper: Function<T, Try<U>>): (r: Call<Nullable<Try<U>>>)
      ensures IsFailure() ==> r == Returned(Ref(Failure(error)))
      ensures IsSuccess() && mapper.Null? ==>
                r.Returned? && r.value.Ref? && r.value.value.IsFailure()
                && r.value.value.error.kind == NullPointerException
      ensures IsSuccess() && mapper.Ref? && mapper.value(value).Returned? ==> r == mapper.value(value)
      ensures IsSuccess() && mapper.Ref? && mapper.value(value).Threw? && IsException(mapper.value(value).error) ==>
                r == Returned(Ref(Failure(mapper.value(value).error)))
      ensures IsSuccess() && mapper.Ref? && mapper.value(value).Threw? && !IsException(mapper.value(value).error) ==>
                r == Threw(mapper.value(value).error)
      ensures r.Threw? ==> !IsException(r.error)
    {
      match this
      case Success(v) =>
        if mapper.Null? then Returned(Ref(Failure(Throwable(NullPointerException, "mapper function is null"))))
        else (match mapper.value(v)
              case Threw(e) => if IsException(e) then Returned(Ref(Failure(e))) else Threw(e)
              case Returned(t) => Returned(t))
      case Failure(e) => Returned(Ref(Failure(e)))
    }

    /** map: Success of the mapper's result; a null mapper, a null result
        (which `Success.of` rejects) and any Exception the mapper throws
        become a Failure. Only a non-Exception Throwable escapes. */
    function Map<U>(mapper: Function<T, U>): (r: Call<Try<U>>)
      ensures IsFailure() ==> r == Returned(Failure(error))
      ensures IsSuccess() && mapper.Null? ==>
                r.Returned? && r.value.IsFailure() && r.value.error.kind == NullPointerException
      ensures IsSuccess() && mapper.Ref? && mapper.value(value) == Returned(Null) ==>
                r.Returned? && r.value.IsFailure() && r.value.error.kind == NullPointerException
      ensures IsSuccess() && mapper.Ref? && mapper.value(value).Returned? && mapper.value(value).value.Ref? ==>
                r == Returned(Success(mapper.value(value).value.value))
      ensures IsSuccess() && mapper.Ref? && mapper.value(value).Threw? && IsException(mapper.value(value).error) ==>
                r == Returned(Failure(mapper.value(value).error))
      ensures IsSuccess() && mapper.Ref? && mapper.value(value).Threw? && !IsException(mapper.value(value).error) ==>
                r == Threw(mapper.value(value).error)
      ensures r.Threw? ==> IsSuccess() && mapper.Ref? && mapper.value(value) == Threw(r.error) && !IsException(r.error)
    {
      match this
      case Success(v) =>
        if mapper.Null? then Returned(Failure(Throwable(NullPointerException, "mapper function is null")))
        else (match mapper.value(v)
              case Threw(e) => if IsException(e) then Returned(Failure(e)) else Threw(e)
              case Returned(u) =>
                // Success.of(u) throws for null, and the catch turns it into a Failure
                match SuccessOf(u)
                case Threw(e) => Returned(Failure(e))
                case Returned(t) => Returned(t))
      case Failure(e) => Returned(Failure(e))
    }

    /** filter: a Success stays when the predicate holds and otherwise
        becomes a NoSuchElementException Failure; a null predicate gives a
        NullPointerException Failure. An exception thrown by the predicate
        is not caught. A Failure is returned unchanged. */
    function Filter(test: Predicate<T>): (r: Call<Try<T>>)
      ensures IsFailure() ==> r == Returned(this)
      ensures IsSuccess() && test.Null? ==>
                r.Returned? && r.value.IsFailure() && r.value.error.kind == NullPointerException
      ensures IsSuccess() && test.Ref? && test.value(value) == Returned(true) ==> r == Returned(this)
      ensures IsSuccess() && test.Ref? && test.value(value) == Returned(false) ==>
                r.Returned? && r.value.IsFailure() && r.value.error.kind == NoSuchElementException
      ensures IsSuccess() && test.Ref? && test.value(value).Threw? ==> r == Threw(test.value(value).error)
    {
      match this
      case Success(v) =>
        if test.Null? then Returned(Failure(Throwable(NullPointerException, "predicate is null")))
        else (match test.value(v)
              case Threw(e) => Threw(e)
              case Returned(b) =>
                Returned(if b then this
                         else Failure(Throwable(NoSuchElementException, "Predicate does not hold for ")))
              )
      case Failure(e) => Returned(this)
    }

    /** Inverts the outcome: a Failure becomes a Success holding its error;
        a Success becomes an UnsupportedOperationException Failure, whose
        message the model leaves as "". */
    function Failed(): (r: Try<Throwable>)
      ensures IsFailure() ==> r == Success(error)
      ensures IsSuccess() ==> r.IsFailure() && r.error.kind == UnsupportedOperationException
    {
      match this
      case Failure(e) => Success(e)
      case Success(_) => Failure(Throwable(UnsupportedOperationException, ""))
    }

    /** `Failure.isInstance(cls)`: the error's class is cls or inherits from
        it; a null class reference fails with NullPointerException. */
    function IsInstance(cls: Nullable<Kind>): (r: Call<bool>)
      requires IsFailure()
      ensures cls.Null? ==> r.Threw? && r.error.kind == NullPointerException
      ensures cls.Ref? ==> r.Returned? && (r.value <==> IsSubclass(error.kind, cls.value))
    {
      if cls.Null? then Threw(NullDereference) else Returned(IsSubclass(error.kind, cls.value))
    }

    /** Success becomes Present, Failure becomes Empty and its error is
        dropped; never Unknown. */
    function ToOptional(): (r: Optional<T>)
      ensures r.IsPresent() <==> IsSuccess()
      ensures !r.IsUnknown()
      ensures IsSuccess() ==> r == Present(value)
    {
      // `Optional.of(get())`, with any Throwable from get() caught
      match Get()
      case Returned(v) => OptionalOf(Ref(v))
      case Threw(_) => EmptyOptional()
    }

    /** The text form; `show` and `showError` stand for the `toString` of
        the value and of the error. */
    function ToString(show: T -> string, showError: Throwable -> string): (r: string)
      ensures IsSuccess() ==> r == "Success[" + show(value) + "]"
      ensures IsFailure() ==> r == "Failure[" + showError(error) + "]"
    {
      match this
      case Success(v) => "Success[" + show(v) + "]"
      case Failure(e) => "Failure[" + showError(e) + "]"
    }
  }

  /** `Success.of(value)`: a Success, or NullPointerException for null. */
  function SuccessOf<T>(value: Nullable<T>): (r: Call<Try<T>>)
    ensures value.Null? ==> r.Threw? && r.error.kind == NullPointerException
    ensures value.Ref? ==> r.Returned? && r.value.IsSuccess() && r.value.Get() == Returned(value.value)
  {
    if value.Null? then Threw(Throwable(NullPointerException, "value cannot be null"))
    else Returned(Success(value.value))
  }

  /** `Failure.of(error)`: a Failure; for null the synthesised Failure is
      discarded and the constructor's null check throws. */
  function FailureOf<T>(error: Nullable<Throwable>): (r: Call<Try<T>>)
    ensures error.Null? ==> r.Threw? && r.error.kind == NullPointerException
    ensures error.Ref? ==> r == Returned(Failure(error.value))
  {
    if error.Null? then Threw(NullDereference) else Returned(Failure(error.value))
  }

  /** `Success.of(Exception)`, chosen by Java when the argument's static
      type is an Exception: it hands the exception to `Failure.of`. */
  function SuccessOfException<T>(exception: Nullable<Throwable>): (r: Call<Try<T>>)
    requires exception.Ref? ==> IsException(exception.value)
    ensures exception.Ref? ==> r.Returned? && r.value.IsFailure() && r.value.error == exception.value
    ensures exception.Null? ==> r.Threw? && r.error.kind == NullPointerException
  {
    FailureOf(exception)
  }

  /** `equals`: both Successes with equal values or both Failures with equal
      errors; never null. */
  function Equals<T(==)>(self: Try<T>, other: Nullable<Try<T>>): (r: bool)
    ensures other.Ref? ==> (r <==> self == other.value)
    ensures other.Null? ==> !r
  {
    match other
    case Null => false
    case Ref(t) =>
      match self
      case Success(v) => t.Success? && v == t.value
      case Failure(e) => t.Failure? && e == t.error
  }
}
