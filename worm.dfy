/** The write-once, read-many cell: it starts Empty and its first accepted
    write moves it, once and for all, to a Present value or to Unknown.
    The state machine is specified by `Step`; the class `WormValue` is
    proved to follow it, and the write-once laws are proved about runs of
    `Step`. */
module Worm {
  import opened Java
  import opened Optionals

  /** A write request: `set(value)` or `setUnknown()`. */
  datatype Write<T> = SetValue(value: Nullable<T>) | SetUnknown

  /** The effect of one write on the cell's value: the new value, and
      whether the call returns or throws. A null value is refused first; a
      write to a cell that is no longer Empty is refused and changes
      nothing; a write to an Empty cell is accepted. */
  function Step<T>(state: Optional<T>, w: Write<T>): (r: (Optional<T>, Call<()>))
    ensures r.1.Returned? <==> state.IsEmpty() && w != SetValue(Null)
    ensures r.1.Threw? ==> r.0 == state
    ensures r.1.Returned? && w.SetValue? ==> r.0 == Present(w.value.value)
    ensures r.1.Returned? && w.SetUnknown? ==> r.0 == Unknown
    ensures w == SetValue(Null) ==> r.1.Threw? && r.1.error.kind == IllegalArgumentException
    ensures w != SetValue(Null) && !state.IsEmpty() ==> r.1.Threw? && r.1.error.kind == UnsupportedOperationException
  {
    match w
    case SetValue(Null) => (state, Threw(Throwable(IllegalArgumentException, "value cannot be null")))
    case SetValue(Ref(v)) =>
      if state.IsEmpty() then (Present(v), Returned(()))
      else (state, Threw(Throwable(UnsupportedOperationException, "value is already set")))
    case SetUnknown =>
      if state.IsEmpty() then (Unknown, Returned(()))
      else (state, Threw(Throwable(UnsupportedOperationException, "value is already set to unknown")))
  }

  /** The cell's value after a sequence of writes, each attempted whether or
      not the previous one threw. */
  function Run<T>(state: Optional<T>, ws: seq<Write<T>>): Optional<T>
    decreases |ws|
  {
    if ws == [] then state else Run(Step(state, ws[0]).0, ws[1..])
  }

  /** How many of the writes were accepted. */
  function Accepted<T>(state: Optional<T>, ws: seq<Write<T>>): nat
    decreases |ws|
  {
    if ws == [] then 0
    else (if Step(state, ws[0]).1.Returned? then 1 else 0) + Accepted(Step(state, ws[0]).0, ws[1..])
  }

  /** The value the first non-null write asks for, or Empty if there is none. */
  function FirstWrite<T>(ws: seq<Write<T>>): Optional<T>
    decreases |ws|
  {
    if ws == [] then Empty
    else match ws[0]
         case SetValue(Null) => FirstWrite(ws[1..])
         case SetValue(Ref(v)) => Present(v)
         case SetUnknown => Unknown
  }

  /** Write-once: once the cell is not Empty, no sequence of writes changes it. */
  lemma {:induction false} WriteOnce<T>(state: Optional<T>, ws: seq<Write<T>>)
    requires !state.IsEmpty()
    ensures Run(state, ws) == state
    ensures Accepted(state, ws) == 0
    decreases |ws|
  {
    if ws != [] {
      WriteOnce(state, ws[1..]);
    }
  }

  /** From an Empty cell, the first non-null write wins and every later one
      is lost. */
  lemma {:induction false} FirstWriterWins<T>(ws: seq<Write<T>>)
    ensures Run(Empty, ws) == FirstWrite(ws)
    decreases |ws|
  {
    if ws != [] {
      var next := Step(Empty, ws[0]).0;
      if next.IsEmpty() {
        FirstWriterWins(ws[1..]);
      } else {
        WriteOnce(next, ws[1..]);
      }
    }
  }

  /** At most one write is ever accepted, and the cell is still Empty
      exactly when none was. */
  lemma {:induction false} AtMostOneAccepted<T>(state: Optional<T>, ws: seq<Write<T>>)
    ensures Accepted(state, ws) <= 1
    ensures Run(state, ws).IsEmpty() <==> state.IsEmpty() && Accepted(state, ws) == 0
    decreases |ws|
  {
    if ws != [] {
      var next := Step(state, ws[0]).0;
      if next.IsEmpty() {
        AtMostOneAccepted(next, ws[1..]);
      } else {
        WriteOnce(next, ws[1..]);
      }
    }
  }

  /** The cell never returns to Empty: a run from a non-Empty value ends
      non-Empty, and a run ends where any of its prefixes left it once that
      prefix made the cell non-Empty. */
  lemma {:induction false} NeverEmptyAgain<T>(state: Optional<T>, ws: seq<Write<T>>, k: nat)
    requires k <= |ws|
    requires !Run(state, ws[..k]).IsEmpty()
    ensures Run(state, ws) == Run(state, ws[..k])
    decreases k
  {
    if k == 0 {
      assert ws[..0] == [];
      WriteOnce(state, ws);
    } else {
      assert ws[..k][0] == ws[0];
      assert ws[..k][1..] == ws[1..][..k - 1];
      NeverEmptyAgain(Step(state, ws[0]).0, ws[1..], k - 1);
    }
  }

  /** `WormValue<T>`: a cell holding an Optional that is written at most once. */
  class WormValue<T> {
    var value: Optional<T>

    /** The private constructor: a cell with no value set. */
    constructor ()
      ensures value == Empty
    {
      value := EmptyOptional();
    }

    /** `set(value)`: stores Present(value) in an Empty cell; throws
        IllegalArgumentException for null and UnsupportedOperationException
        when the cell is already set. */
    method Set(v: Nullable<T>) returns (r: Call<()>)
      modifies this
      ensures (value, r) == Step(old(value), SetValue(v))
    {
      if v.Null? {
        return Threw(Throwable(IllegalArgumentException, "value cannot be null"));
      }
      if value.IsEmpty() {
        value := OptionalOf(v);
        r := Returned(());
      } else {
        r := Threw(Throwable(UnsupportedOperationException, "value is already set"));
      }
    }

    /** `setUnknown()`: marks an Empty cell Unknown; throws
        UnsupportedOperationException when the cell is already set. */
    method SetUnknown() returns (r: Call<()>)
      modifies this
      ensures (value, r) == Step(old(value), Write.SetUnknown)
    {
      if value.IsEmpty() {
        value := UnknownOptional();
        r := Returned(());
      } else {
        r := Threw(Throwable(UnsupportedOperationException, "value is already set to unknown"));
      }
    }

    /** `get()`: the cell's current value. */
    method Get() returns (r: Optional<T>)
      ensures r == value
    {
      r := value;
    }

    /** `ifPresent()`: some write has been accepted, a value or Unknown. */
    method IfPresent() returns (r: bool)
      ensures r <==> !value.IsEmpty()
    {
      r := value.IsPresent() || value.IsUnknown();
    }

    /** `isSet()`: a known value has been stored. */
    method IsSet() returns (r: bool)
      ensures r <==> value.Present?
      ensures r ==> !value.IsUnknown()
    {
      r := value.IsPresent();
    }

    /** `isUnknown()`: the cell was marked Unknown. */
    method IsUnknown() returns (r: bool)
      ensures r <==> value == Unknown
      ensures r ==> !value.IsPresent()
    {
      r := value.IsUnknown();
    }

    /** `WormValue.of(value)`: a new cell holding Present(value); the
        IllegalArgumentException for null escapes and no cell is returned. */
    static method Of(v: Nullable<T>) returns (r: Call<WormValue<T>>)
      ensures r.Returned? <==> v.Ref?
      ensures r.Returned? ==> fresh(r.value) && r.value.value == Present(v.value)
      ensures r.Threw? ==> r.error.kind == IllegalArgumentException
    {
      var worm := new WormValue();
      var c := worm.Set(v);
      if c.Threw? {
        return Threw(c.error);
      }
      return Returned(worm);
    }

    /** `WormValue.unknown()`: a new cell marked Unknown. */
    static method OfUnknown() returns (worm: WormValue<T>)
      ensures fresh(worm) && worm.value == Unknown
    {
      worm := new WormValue();
      var c := worm.SetUnknown();
    }

    /** `WormValue.create()`: a new cell with no value set. */
    static method Create() returns (worm: WormValue<T>)
      ensures fresh(worm) && worm.value == Empty
    {
      worm := new WormValue();
    }
  }
}
