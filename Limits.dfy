/** Range checks (pi/Limits.py): `NumericLimit`, `ListLimit` and the shared
    `Limits` constants every packet encoder validates against.

    Values are modelled as reals, which covers both the integers the encoders
    pass and the floats the unit tests pass; bounds are integers or `None`.
    Python truthiness and Python 3 comparison rules are written out: a bound
    of 0 counts as absent in the one-sided branches, and comparing a number
    with `None` raises TypeError. */
module Limits {
  import opened Py

  /** A numeric limit; both bounds are fixed at construction. */
  datatype NumericLimit = NumericLimit(min: Option<int>, max: Option<int>)

  /** `NumericLimit(min_value, max_value)`: only the case of both bounds
      absent is refused; nothing checks that min is below max. */
  function NewNumericLimit(min: Option<int>, max: Option<int>): (r: Result<NumericLimit>)
    ensures r.Err? <==> min.None? && max.None?
    ensures r.Err? ==> r.error == ValueError
    ensures r.Ok? ==> r.value.min == min && r.value.max == max
  {
    if min.None? && max.None? then Err(ValueError) else Ok(NumericLimit(min, max))
  }

  /** Python truthiness of a bound: `None` and `0` are false. */
  predicate Truthy(b: Option<int>) { b.Some? && b.value != 0 }

  predicate TwoSided(lim: NumericLimit) { lim.min.Some? && lim.max.Some? }

  /** What the code returns when the two-sided test fails: the silent
      selector picks min only for values strictly below it. */
  function Breach(lim: NumericLimit, v: real, silent: bool): Result<Option<int>>
    requires lim.min.Some?
  {
    if !silent then Err(AssertionError)
    else if v < lim.min.value as real then Ok(lim.min)
    else Ok(lim.max)
  }

  /** `NumericLimit.assert_value(value, use_silent_assert)`. `Ok(None)` is
      Python's `None`, returned when the value passes; `Ok(b)` is a bound
      returned in silent mode (which may itself be `None`). */
  function AssertValue(lim: NumericLimit, v: real, silent: bool): (r: Result<Option<int>>)
    // loud mode never returns a bound: it passes with None or raises
    ensures !silent ==> (r.Ok? ==> r.value.None?) && (r.Err? ==> r.error in {AssertionError, TypeError})
    // silent mode never raises AssertionError
    ensures silent ==> r != Err(AssertionError)
    // a two-sided limit passes exactly the values strictly between its bounds
    ensures TwoSided(lim) ==> (r == Ok(None) <==> lim.min.value as real < v < lim.max.value as real)
    ensures TwoSided(lim) && !silent ==>
      (r == Err(AssertionError) <==> (v <= lim.min.value as real || v >= lim.max.value as real))
    // silent two-sided: min below min, max from min upwards when not between
    ensures TwoSided(lim) && silent && v < lim.min.value as real ==> r == Ok(lim.min)
    ensures TwoSided(lim) && silent && v == lim.min.value as real ==> r == Ok(lim.max)
    ensures TwoSided(lim) && silent && lim.min.value as real < v && v >= lim.max.value as real ==> r == Ok(lim.max)
    // a one-sided limit passes nothing: in loud mode every value raises
    ensures !TwoSided(lim) && !silent ==> r.Err?
    // silent one-sided: a value at or beyond a bound gets a bound back; any
    // other value reaches the comparison with the absent bound
    ensures !TwoSided(lim) && silent && lim.min.Some? ==>
      r == (if v < lim.min.value as real then Ok(lim.min)
            else if v == lim.min.value as real then (if Truthy(lim.min) then Ok(lim.min) else Ok(None))
            else Err(TypeError))
    ensures !TwoSided(lim) && silent && lim.min.None? ==>
      r == (if Truthy(lim.max) && v >= lim.max.value as real then Ok(lim.max) else Err(TypeError))
  {
    if Truthy(lim.min) && lim.max.None? && v <= lim.min.value as real then
      (if silent then Ok(lim.min) else Err(AssertionError))
    else if Truthy(lim.max) && lim.min.None? && v >= lim.max.value as real then
      (if silent then Ok(lim.max) else Err(AssertionError))
    // `value <= self._min_value or value >= self._max_value`, left to right
    else if lim.min.None? then Err(TypeError)
    else if v <= lim.min.value as real then Breach(lim, v, silent)
    else if lim.max.None? then Err(TypeError)
    else if v >= lim.max.value as real then Breach(lim, v, silent)
    else Ok(None)
  }

  /** The behaviour the class documentation describes: bounds inclusive, an
      absent bound unconstrained, silent mode clamping to the nearer bound.
      Returns the accepted or clamped value. */
  function DocAssertValue(lim: NumericLimit, v: real, silent: bool): (r: Result<real>)
  {
    if lim.min.Some? && v < lim.min.value as real then
      (if silent then Ok(lim.min.value as real) else Err(AssertionError))
    else if lim.max.Some? && v > lim.max.value as real then
      (if silent then Ok(lim.max.value as real) else Err(AssertionError))
    else Ok(v)
  }

  /** Code and documentation agree strictly inside a two-sided range and
      disagree on the bounds themselves: the documented valid values 0 and
      100 of [0, 100] are rejected. */
  lemma BoundsRejectedContraryToDoc(lim: NumericLimit, v: real)
    requires TwoSided(lim) && lim.min.value <= lim.max.value
    requires lim.min.value as real <= v <= lim.max.value as real
    ensures DocAssertValue(lim, v, false) == Ok(v)
    ensures AssertValue(lim, v, false).Ok? <==> v != lim.min.value as real && v != lim.max.value as real
  {
  }

  // The shared limits (class `Limits`).
  const SignedPercentage := NumericLimit(Some(-100), Some(100))
  const UnsignedPercentage := NumericLimit(Some(0), Some(100))
  const TurnAngle := NumericLimit(Some(-180), Some(180))
  const PositiveInt := NumericLimit(Some(0), None)
  const TwoByteUnsignedInt := NumericLimit(Some(0), Some(0x1_0000 - 1))

  /** Attribute lookup on the `Limits` class: the five limits it defines, by
      their Python names; any other name raises AttributeError. */
  function LimitsAttr(name: string): (r: Result<NumericLimit>)
    ensures r.Err? <==> name !in {"SIGNED_PERCENTAGE", "UNSIGNED_PERCENTAGE", "TURN_ANGLE",
                                  "POSITIVE_INT", "TWO_BYTE_UNSIGNED_INT"}
    ensures r.Err? ==> r.error == AttributeError
  {
    if name == "SIGNED_PERCENTAGE" then Ok(SignedPercentage)
    else if name == "UNSIGNED_PERCENTAGE" then Ok(UnsignedPercentage)
    else if name == "TURN_ANGLE" then Ok(TurnAngle)
    else if name == "POSITIVE_INT" then Ok(PositiveInt)
    else if name == "TWO_BYTE_UNSIGNED_INT" then Ok(TwoByteUnsignedInt)
    else Err(AttributeError)
  }

  /** POSITIVE_INT accepts nothing: values up to 0 fail the `<= 0` test and
      larger ones reach the comparison with the absent maximum. */
  lemma PositiveIntAcceptsNothing(v: real)
    ensures AssertValue(PositiveInt, v, false) == (if v <= 0.0 then Err(AssertionError) else Err(TypeError))
    ensures AssertValue(PositiveInt, v, true) ==
            (if v < 0.0 then Ok(Some(0)) else if v == 0.0 then Ok(None) else Err(TypeError))
  {
  }

  /** The unit tests' cases on [0, 100]: 50.0 passes, -1 and 101 raise in
      loud mode, and silent mode returns 0 for -1 and 100 for 101. */
  lemma LimitTestCases()
    ensures AssertValue(NumericLimit(Some(0), Some(100)), 50.0, false) == Ok(None)
    ensures AssertValue(NumericLimit(Some(0), Some(100)), -1.0, false) == Err(AssertionError)
    ensures AssertValue(NumericLimit(Some(0), Some(100)), 101.0, false) == Err(AssertionError)
    ensures AssertValue(NumericLimit(Some(0), Some(100)), -1.0, true) == Ok(Some(0))
    ensures AssertValue(NumericLimit(Some(0), Some(100)), 101.0, true) == Ok(Some(100))
  {
  }

  /** What `ListLimit` was given: a list, a set, or anything else. */
  datatype Items<T> = ListItems(list: seq<T>) | SetItems(elems: set<T>) | OtherItems

  predicate Member<T(==)>(items: Items<T>, v: T)
  {
    match items
    case ListItems(l) => v in l
    case SetItems(s) => v in s
    case OtherItems => false
  }

  /** A list limit: the collection of valid items. */
  datatype ListLimit<T> = ListLimit(items: Items<T>)

  /** `ListLimit(valid_items)`: anything but a list or a set is a TypeError. */
  function NewListLimit<T>(items: Items<T>): (r: Result<ListLimit<T>>)
    ensures r.Ok? <==> !items.OtherItems?
    ensures r.Err? ==> r.error == TypeError
    ensures r.Ok? ==> r.value.items == items
  {
    if items.OtherItems? then Err(TypeError) else Ok(ListLimit(items))
  }

  /** `ListLimit.assert_value(value, use_silent_assert)`: passes (returning
      None) exactly the members of the collection, whatever the silent flag. */
  function ListAssertValue<T(==)>(lim: ListLimit<T>, v: T, silent: bool): (r: Result<()>)
    ensures r.Ok? <==> Member(lim.items, v)
    ensures r.Err? ==> r.error == AssertionError
  {
    if Member(lim.items, v) then Ok(()) else Err(AssertionError)
  }
}
