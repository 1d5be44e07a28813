/** The helper functions `eq` and `sub` that the SQL templates are given
    (the `fns` function map of upsert.go). */
module TemplateFuncs {
  import opened Wrappers

  // Go's `int`, taken to be 64 bits wide.
  const MIN_INT: int := -0x8000_0000_0000_0000
  const MAX_INT: int := 0x7fff_ffff_ffff_ffff
  const INT_MODULUS: int := 0x1_0000_0000_0000_0000

  type GoInt = x: int | MIN_INT <= x <= MAX_INT

  /** A dynamic value handed to a helper through Go's `interface{}`: the
      strings, ints and booleans a template works with, and a slice such as
      the column list. */
  datatype Value =
    | IntValue(i: GoInt)
    | StringValue(s: string)
    | BoolValue(b: bool)
    | SliceValue(items: seq<string>)

  /** Go can compare values of every dynamic type here except slices. */
  predicate Comparable(v: Value) {
    !v.SliceValue?
  }

  /** Two values carry the same dynamic type. */
  predicate SameKind(x: Value, y: Value) {
    && x.IntValue? == y.IntValue?
    && x.StringValue? == y.StringValue?
    && x.BoolValue? == y.BoolValue?
  }

  /** `eq(x, y)` is Go's `x == y` on two interface values: values of different
      dynamic types are unequal, and comparing two slices is a run-time panic,
      which the result `None` stands for. */
  function Eq(x: Value, y: Value): (r: Option<bool>)
    ensures r.None? <==> x.SliceValue? && y.SliceValue?
    ensures r == Some(true) <==> x == y && Comparable(x)
    ensures !SameKind(x, y) ==> r == Some(false)
  {
    if x.SliceValue? && y.SliceValue? then None else Some(x == y)
  }

  lemma EqSymmetric(x: Value, y: Value)
    ensures Eq(x, y) == Eq(y, x)
  {
  }

  /** Two's-complement wrap-around of an exact integer into `GoInt`. */
  function Wrap(v: int): (r: GoInt)
    ensures MIN_INT <= v <= MAX_INT ==> r == v
    ensures (v - r) % INT_MODULUS == 0
  {
    var m := (v - MIN_INT) % INT_MODULUS;
    assert v - (m + MIN_INT) == INT_MODULUS * ((v - MIN_INT) / INT_MODULUS);
    m + MIN_INT
  }

  /** `sub(y, x)` returns `x - y`: the SECOND argument minus the first,
      wrapping around on overflow as Go's `int` does. */
  function Sub(y: GoInt, x: GoInt): (r: GoInt)
    ensures MIN_INT <= x - y <= MAX_INT ==> r == x - y
    ensures (x - y - r) % INT_MODULUS == 0
  {
    Wrap(x - y)
  }

  /** Swapping the arguments of `sub` negates the result, so `sub` is not
      commutative: `sub 1 n` is `n - 1`, while `sub n 1` is `1 - n`. */
  lemma SubArgumentOrder(y: GoInt, x: GoInt)
    requires MIN_INT < x - y <= MAX_INT
    ensures Sub(x, y) == -Sub(y, x)
  {
  }

  /** For all arguments, swapping them gives Go's wrapped negation of the
      result: `-MIN_INT` wraps back to `MIN_INT`. */
  lemma SubSwapWraps(y: GoInt, x: GoInt)
    ensures Sub(x, y) == Wrap(-(Sub(y, x) as int))
  {
  }
}
