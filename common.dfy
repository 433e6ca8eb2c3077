/**
 * Shared vocabulary of the model: optional values, the outcome of an
 * operation that can raise a Python exception, members, sums over
 * sequences and Python's `round` on exact reals.
 */
module Common {

  datatype Option<T> = None | Some(value: T)

  /** The outcome of Python code that may raise: `Raised` stands for an
      exception that aborts the request before anything else is saved. */
  datatype Result<T> = Ok(value: T) | Raised(error: string)

  /** A member (account) is identified by its phone number. */
  type MemberId = string

  /** A calendar day; dates are only compared. */
  type Date = int

  function Sum(s: seq<int>): int
  {
    if s == [] then 0 else Sum(s[..|s| - 1]) + s[|s| - 1]
  }

  function SumReal(s: seq<real>): real
  {
    if s == [] then 0.0 else SumReal(s[..|s| - 1]) + s[|s| - 1]
  }

  lemma SumAppend(s: seq<int>, t: seq<int>)
    ensures Sum(s + t) == Sum(s) + Sum(t)
  {
    if t != [] {
      assert (s + t)[..|s + t| - 1] == s + t[..|t| - 1];
      SumAppend(s, t[..|t| - 1]);
    } else {
      assert s + t == s;
    }
  }

  lemma SumRealAppend(s: seq<real>, t: seq<real>)
    ensures SumReal(s + t) == SumReal(s) + SumReal(t)
  {
    if t != [] {
      assert (s + t)[..|s + t| - 1] == s + t[..|t| - 1];
      SumRealAppend(s, t[..|t| - 1]);
    } else {
      assert s + t == s;
    }
  }

  /** Python 3's `round` on an exact real: to the nearest integer, ties to
      the even neighbour. Float representation error is not modelled. */
  function RoundHalfEven(x: real): (r: int)
    ensures r as real - 0.5 <= x <= r as real + 0.5
  {
    var f := x.Floor;
    var d := x - f as real;
    if d < 0.5 then f
    else if d > 0.5 then f + 1
    else if f % 2 == 0 then f
    else f + 1
  }

  lemma RoundOfInteger(n: int)
    ensures RoundHalfEven(n as real) == n
  {
  }

  /** `n` copies of `x`. */
  function Repeat<T>(x: T, n: nat): (r: seq<T>)
    ensures |r| == n && forall k :: 0 <= k < n ==> r[k] == x
  {
    if n == 0 then [] else Repeat(x, n - 1) + [x]
  }

  /** The number of occurrences of `x` in `s`. */
  function Count<T(==)>(s: seq<T>, x: T): nat
  {
    if s == [] then 0
    else Count(s[..|s| - 1], x) + (if s[|s| - 1] == x then 1 else 0)
  }

  lemma CountAppend<T>(s: seq<T>, t: seq<T>, x: T)
    ensures Count(s + t, x) == Count(s, x) + Count(t, x)
  {
    if t != [] {
      assert (s + t)[..|s + t| - 1] == s + t[..|t| - 1];
      CountAppend(s, t[..|t| - 1], x);
    } else {
      assert s + t == s;
    }
  }

  lemma CountRepeat<T>(y: T, n: nat, x: T)
    ensures Count(Repeat(y, n), x) == if x == y then n else 0
  {
    if n > 0 {
      assert Repeat(y, n)[..n - 1] == Repeat(y, n - 1);
      CountRepeat(y, n - 1, x);
    }
  }

  lemma CountZeroNotIn<T>(s: seq<T>, x: T)
    ensures Count(s, x) == 0 <==> x !in s
  {
    if s != [] {
      CountZeroNotIn(s[..|s| - 1], x);
      assert s == s[..|s| - 1] + [s[|s| - 1]];
    }
  }

  /** A value of a decoded JSON request body. Lists and objects are only
      told apart from scalars by their size (their truthiness). */
  datatype Json =
    | JNull
    | JBool(b: bool)
    | JInt(i: int)
    | JFloat(f: real)
    | JStr(s: string)
    | JCompound(size: nat)

  /** Python's `isinstance(v, int)`, which holds for booleans too. */
  predicate IsInt(j: Json)
  {
    j.JInt? || j.JBool?
  }

  /** The integer an `int` instance stands for (`True` is 1). */
  function IntValue(j: Json): (n: int)
    requires IsInt(j)
    ensures j.JInt? ==> n == j.i
    ensures j.JBool? ==> n == if j.b then 1 else 0
  {
    if j.JInt? then j.i else if j.b then 1 else 0
  }

  /** Python's truth value of a JSON value. */
  predicate Truthy(j: Json)
  {
    match j
    case JNull => false
    case JBool(b) => b
    case JInt(i) => i != 0
    case JFloat(f) => f != 0.0
    case JStr(s) => s != ""
    case JCompound(n) => n > 0
  }

  predicate IsDecimal(s: string)
  {
    && |s| > 0
    && (s[0] == '-' ==> |s| > 1)
    && forall k :: 0 <= k < |s| ==> ('0' <= s[k] <= '9' || (k == 0 && s[k] == '-'))
  }

  function DigitsValue(s: string): (n: nat)
    requires forall k :: 0 <= k < |s| ==> '0' <= s[k] <= '9'
  {
    if s == [] then 0 else 10 * DigitsValue(s[..|s| - 1]) + (s[|s| - 1] - '0') as int
  }

  /** Python's `int(v)`: integers and booleans as they are, floats
      truncated toward zero, decimal strings parsed (an optional minus
      sign and digits; surrounding blanks, `+` and `_` are not modelled),
      anything else raises. */
  function PyInt(j: Json): (r: Result<int>)
    ensures IsInt(j) ==> r == Ok(IntValue(j))
    ensures j.JFloat? ==>
              && r.Ok?
              && (j.f >= 0.0 ==> r.value as real <= j.f < r.value as real + 1.0)
              && (j.f < 0.0 ==> r.value as real - 1.0 < j.f <= r.value as real)
    ensures j.JStr? ==> (r.Ok? <==> IsDecimal(j.s))
    ensures j.JNull? || j.JCompound? ==> r.Raised?
  {
    match j
    case JNull => Raised("TypeError")
    case JBool(b) => Ok(if b then 1 else 0)
    case JInt(i) => Ok(i)
    case JFloat(f) => Ok(if f >= 0.0 then f.Floor else -((-f).Floor))
    case JStr(s) =>
      if !IsDecimal(s) then Raised("ValueError")
      else if s[0] == '-' then Ok(-(DigitsValue(s[1..]) as int))
      else Ok(DigitsValue(s))
    case JCompound(_) => Raised("TypeError")
  }
}
