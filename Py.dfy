/** The pieces of the Python runtime the droid code relies on: exceptions as
    an explicit error result, Python's `None`, the `bytes(list)` builtin and
    `int()` applied to a float. */
module Py {

  /** The exceptions the modelled code can raise, by Python class name.
      `StructError` is `struct.error`; `SerialException` is the application's
      `AppExceptions.SerialException`. */
  datatype Error =
    | ValueError
    | TypeError
    | AssertionError
    | AttributeError
    | KeyError
    | ZeroDivisionError
    | StructError
    | ImportError
    | SerialException

  /** `None` or a value. */
  datatype Option<+T> = None | Some(value: T)

  /** A Python call either returns a value or raises one of the exceptions. */
  datatype Result<+T> = Ok(value: T) | Err(error: Error) {
    predicate IsFailure() { Err? }

    function PropagateFailure<U>(): Result<U>
      requires Err?
    {
      Err(error)
    }

    function Extract(): T
      requires Ok?
    {
      value
    }
  }

  /** A Python number as the code produces it: an `int`, or a `float`
      (modelled exactly, without rounding). */
  datatype PyNum = Int(i: int) | Float(f: real)

  predicate IsByte(x: int) { 0 <= x < 256 }

  predicate IsBytes(s: seq<int>) { forall i :: 0 <= i < |s| ==> IsByte(s[i]) }

  /** An element `bytes(list)` accepts: an integer in 0..255. */
  predicate ByteLike(v: PyNum) { v.Int? && IsByte(v.i) }

  /** `bytes(values)`: the elements are checked in order; the first float
      raises TypeError and the first integer outside 0..255 raises
      ValueError. */
  function BytesOf(values: seq<PyNum>): (r: Result<seq<int>>)
    ensures r.Ok? <==> forall i :: 0 <= i < |values| ==> ByteLike(values[i])
    ensures r.Ok? ==> |r.value| == |values| && IsBytes(r.value)
    ensures r.Ok? ==> forall i :: 0 <= i < |values| ==> r.value[i] == values[i].i
    ensures r == Err(TypeError) ==> exists i :: 0 <= i < |values| && values[i].Float?
    ensures r == Err(ValueError) ==> exists i :: 0 <= i < |values| && values[i].Int? && !IsByte(values[i].i)
    ensures r.Err? ==> r.error == TypeError || r.error == ValueError
    // the first element that is not a byte decides which exception
    ensures forall k :: 0 <= k < |values| && !ByteLike(values[k]) && (forall j :: 0 <= j < k ==> ByteLike(values[j])) ==>
      r == Err(if values[k].Float? then TypeError else ValueError)
  {
    if values == [] then Ok([])
    else
      match values[0]
      case Float(_) => Err(TypeError)
      case Int(x) =>
        if !IsByte(x) then Err(ValueError)
        else
          var rest := BytesOf(values[1..]);
          if rest.Err? then rest
          else Ok([x] + rest.value)
  }

  /** The whole numbers as `int` values. */
  function Ints(s: seq<int>): (r: seq<PyNum>)
    ensures |r| == |s| && forall i :: 0 <= i < |s| ==> r[i] == Int(s[i])
  {
    if s == [] then [] else [Int(s[0])] + Ints(s[1..])
  }

  /** `bytes` of a list of integers that are all bytes gives back that list. */
  lemma {:induction false} BytesOfInts(s: seq<int>)
    requires IsBytes(s)
    ensures BytesOf(Ints(s)) == Ok(s)
  {
    var r := BytesOf(Ints(s));
    assert forall i :: 0 <= i < |s| ==> ByteLike(Ints(s)[i]);
    assert r.Ok?;
    assert r.value == s;
  }

  /** A left operand of `<=`: a number, or a byte string. */
  datatype Comparable = Number(x: real) | ByteString(b: seq<int>)

  /** `value <= bound` with an int bound or `None`: Python 3 compares a
      number with a number and raises TypeError for a byte string or a
      `None` on either side. */
  function LessEq(value: Comparable, bound: Option<int>): (r: Result<bool>)
    ensures r.Ok? <==> value.Number? && bound.Some?
    ensures r.Err? ==> r.error == TypeError
    ensures r.Ok? ==> (r.value <==> value.x <= bound.value as real)
  {
    match value
    case ByteString(_) => Err(TypeError)
    case Number(x) => if bound.None? then Err(TypeError) else Ok(x <= bound.value as real)
  }

  /** A call with `given` positional arguments to a function that requires
      `required` of them: Python raises TypeError unless the counts agree. */
  function CallArity(given: nat, required: nat): (r: Result<()>)
    ensures r.Ok? <==> given == required
    ensures r.Err? ==> r.error == TypeError
  {
    if given == required then Ok(()) else Err(TypeError)
  }

  /** `int(x)` on a float truncates toward zero. */
  function Trunc(x: real): (r: int)
    ensures x >= 0.0 ==> r as real <= x < r as real + 1.0
    ensures x < 0.0 ==> r as real - 1.0 < x <= r as real
  {
    if x >= 0.0 then x.Floor else -((-x).Floor)
  }
}
