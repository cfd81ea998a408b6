/** Wrappers used throughout the model. `None` plays the role of a
    pandas NaN cell: an "undefined" position of an indicator series. */
module Options {

  datatype Option<+T> = None | Some(value: T)

  /** Outcome of a computation that may raise a Python exception. */
  datatype Result<+T, +E> = Returned(value: T) | Raised(error: E)

  /** Lifts a series of plain numbers into a series in which every position is defined. */
  function Defined(xs: seq<real>): (r: seq<Option<real>>)
    ensures |r| == |xs|
    ensures forall i :: 0 <= i < |xs| ==> r[i] == Some(xs[i])
  {
    seq(|xs|, i requires 0 <= i < |xs| => Some(xs[i]))
  }

  /** The last element of a non-empty series (pandas `iloc[-1]`). */
  function Last<T>(xs: seq<T>): T
    requires |xs| >= 1
  {
    xs[|xs| - 1]
  }

  /** The element before the last one (pandas `iloc[-2]`). */
  function SecondLast<T>(xs: seq<T>): T
    requires |xs| >= 2
  {
    xs[|xs| - 2]
  }
}
