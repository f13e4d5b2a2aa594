/** The saturating percentage type (pi/CustomTypes.py). Only the constructor
    checks the range; the arithmetic saturates on one side only (addition at
    the top, subtraction at the bottom), and the in-place operators do not
    re-check, so an object can end up outside [-100, 100]. */
module CustomTypes {
  import opened Py

  const MinValue := -100
  const MaxValue := 100

  predicate InRange(v: int) { MinValue <= v <= MaxValue }

  /** `_assert_valid`: ValueError outside [-100, 100], bounds included as valid. */
  function AssertValid(v: int): (r: Result<()>)
    ensures r.Ok? <==> MinValue <= v <= MaxValue
    ensures r.Err? ==> r.error == ValueError
  {
    if v < MinValue || v > MaxValue then Err(ValueError) else Ok(())
  }

  /** `_safe_add`: the sum, capped at 100 and not bounded below. */
  function SafeAdd(a: int, b: int): (r: int)
    ensures r <= MaxValue && r <= a + b
    ensures r == a + b || r == MaxValue
    ensures a + b <= MaxValue ==> r == a + b
  {
    if a + b < MaxValue then a + b else MaxValue
  }

  /** `_safe_sub`: the difference, floored at -100 and not bounded above. */
  function SafeSub(a: int, b: int): (r: int)
    ensures r >= MinValue && r >= a - b
    ensures r == a - b || r == MinValue
    ensures a - b >= MinValue ==> r == a - b
  {
    if a - b > MinValue then a - b else MinValue
  }

  /** The numeric `_value` of an operand: a percentage object or a plain integer. */
  datatype Operand = Percentage(p: LimitedSignedPercentage) | Number(n: int)

  /** What `+` and `-` return: a new percentage object, or a plain integer. */
  datatype Outcome = Object(o: LimitedSignedPercentage) | Plain(n: int)

  class LimitedSignedPercentage {
    var value: int

    constructor Init(v: int)
      ensures value == v
    {
      value := v;
    }

    /** `LimitedSignedPercentage(value)`: raises ValueError outside [-100, 100]. */
    static method New(v: int) returns (r: Result<LimitedSignedPercentage>)
      ensures r.Ok? <==> InRange(v)
      ensures r.Err? ==> r.error == ValueError
      ensures r.Ok? ==> fresh(r.value) && r.value.value == v
    {
      var check := AssertValid(v);
      if check.Err? {
        return Err(check.error);
      }
      var p := new LimitedSignedPercentage.Init(v);
      r := Ok(p);
    }

    /** `int(self)`. */
    function AsInt(): int
      reads this
    {
      value
    }

    /** `self + other`: with a percentage operand, a new object holding the
        capped sum (ValueError if that sum is below -100); with an integer,
        the capped sum as a plain integer. Neither operand changes. */
    method Add(other: Operand) returns (r: Result<Outcome>)
      ensures other.Number? ==> r == Ok(Plain(SafeAdd(value, other.n)))
      ensures other.Percentage? ==> (r.Ok? <==> SafeAdd(value, other.p.value) >= MinValue)
      ensures other.Percentage? && r.Ok? ==>
        r.value.Object? && fresh(r.value.o) && r.value.o.value == SafeAdd(value, other.p.value)
      ensures r.Err? ==> r.error == ValueError
    {
      match other
      case Number(n) =>
        r := Ok(Plain(SafeAdd(value, n)));
      case Percentage(p) =>
        var made := New(SafeAdd(value, p.value));
        if made.Err? {
          return Err(made.error);
        }
        r := Ok(Object(made.value));
    }

    /** `self += other`: overwrites the value with the capped sum, without
        re-checking the range, and returns `self`. */
    method IAdd(other: Operand) returns (r: LimitedSignedPercentage)
      modifies this
      ensures value == SafeAdd(old(value), old(if other.Percentage? then other.p.value else other.n))
      ensures r == this
    {
      var operand := if other.Percentage? then other.p.value else other.n;
      value := SafeAdd(value, operand);
      r := this;
    }

    /** `self - other`: like `+`, with the floored difference (ValueError if a
        percentage difference is above 100). */
    method Sub(other: Operand) returns (r: Result<Outcome>)
      ensures other.Number? ==> r == Ok(Plain(SafeSub(value, other.n)))
      ensures other.Percentage? ==> (r.Ok? <==> SafeSub(value, other.p.value) <= MaxValue)
      ensures other.Percentage? && r.Ok? ==>
        r.value.Object? && fresh(r.value.o) && r.value.o.value == SafeSub(value, other.p.value)
      ensures r.Err? ==> r.error == ValueError
    {
      match other
      case Number(n) =>
        r := Ok(Plain(SafeSub(value, n)));
      case Percentage(p) =>
        var made := New(SafeSub(value, p.value));
        if made.Err? {
          return Err(made.error);
        }
        r := Ok(Object(made.value));
    }

    /** `self -= other`: overwrites the value with the floored difference and,
        unlike `+=`, returns nothing, so Python rebinds the name to `None`. */
    method ISub(other: Operand) returns (r: Option<LimitedSignedPercentage>)
      modifies this
      ensures value == SafeSub(old(value), old(if other.Percentage? then other.p.value else other.n))
      ensures r == None
    {
      var operand := if other.Percentage? then other.p.value else other.n;
      value := SafeSub(value, operand);
      r := None;
    }

    /** `self * other`: a product above 100 or below -100 gives a new object at
        that bound and leaves `self` alone; otherwise `self` takes the product
        and is returned. */
    method Mul(other: Operand) returns (r: LimitedSignedPercentage)
      modifies this
      ensures var product := old(value) * old(if other.Percentage? then other.p.value else other.n);
        (product > MaxValue ==> fresh(r) && r.value == MaxValue && value == old(value)) &&
        (product < MinValue ==> fresh(r) && r.value == MinValue && value == old(value)) &&
        (InRange(product) ==> r == this && value == product)
    {
      var operand := if other.Percentage? then other.p.value else other.n;
      var product := value * operand;
      if product > MaxValue {
        var made := new LimitedSignedPercentage.Init(MaxValue);
        return made;
      }
      if product < MinValue {
        var made := new LimitedSignedPercentage.Init(MinValue);
        return made;
      }
      value := product;
      r := this;
    }

    /** `str(self)`: the value in decimal followed by "%". */
    function Str(): (s: string)
      reads this
      ensures |s| >= 2 && s[|s| - 1] == '%'
      ensures ParseInt(s[..|s| - 1]) == value
    {
      IntStringRoundTrip(value);
      IntString(value) + "%"
    }
  }

  // Decimal rendering, as Python's `str` of an int, and the matching parser.

  predicate IsDigit(c: char) { '0' <= c <= '9' }

  predicate AllDigits(s: string) { forall i :: 0 <= i < |s| ==> IsDigit(s[i]) }

  function DigitChar(d: int): (c: char)
    requires 0 <= d < 10
    ensures IsDigit(c) && c as int - '0' as int == d
  {
    "0123456789"[d]
  }

  /** The decimal digits of a natural number, without leading zeros. */
  function NatString(n: nat): (s: string)
    ensures |s| >= 1 && AllDigits(s) && s[0] != '-'
  {
    if n < 10 then [DigitChar(n)] else NatString(n / 10) + [DigitChar(n % 10)]
  }

  function IntString(n: int): (s: string)
    ensures |s| >= 1
  {
    if n < 0 then "-" + NatString(-n) else NatString(n)
  }

  /** The value of a string of decimal digits. */
  function ParseNat(s: string): nat
    requires AllDigits(s)
  {
    if s == [] then 0
    else
      assert IsDigit(s[|s| - 1]);
      ParseNat(s[..|s| - 1]) * 10 + (s[|s| - 1] as int - '0' as int)
  }

  /** The value of an optionally signed decimal string (0 for anything else). */
  function ParseInt(s: string): int
  {
    if |s| > 0 && s[0] == '-' && AllDigits(s[1..]) then -(ParseNat(s[1..]) as int)
    else if AllDigits(s) then ParseNat(s)
    else 0
  }

  lemma {:induction false} NatStringRoundTrip(n: nat)
    ensures ParseNat(NatString(n)) == n
  {
    if n >= 10 {
      var s := NatString(n);
      assert s[..|s| - 1] == NatString(n / 10);
      NatStringRoundTrip(n / 10);
    }
  }

  /** Parsing the rendered integer gives it back. */
  lemma IntStringRoundTrip(n: int)
    ensures ParseInt(IntString(n)) == n
  {
    var s := IntString(n);
    if n < 0 {
      var digits := NatString(-n);
      assert s == "-" + digits;
      assert s[0] == '-' && s[1..] == digits;
      NatStringRoundTrip(-n);
      assert ParseInt(s) == -(ParseNat(digits) as int);
    } else {
      assert s == NatString(n);
      NatStringRoundTrip(n);
    }
  }
}
