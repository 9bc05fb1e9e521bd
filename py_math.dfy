/** The pieces of the Python runtime that the sweeper's arithmetic relies on:
    the math functions it calls (left uninterpreted), `round` on floats, and
    list indexing. Floats are modelled as reals throughout. */
module PyMath {

  datatype Option<+T> = None | Some(value: T)

  /** The float functions the engine calls: `math.sin`, `math.log10` and the
      power `10**x`. Their values are not modelled; a proof may use only the
      facts collected in `Sound`. */
  datatype MathLib = MathLib(sin: real -> real, log10: real -> real, pow10: real -> real)
  {
    /** The textbook facts about the three functions that the proofs use. */
    ghost predicate Sound() {
      (forall x: real :: -1.0 <= sin(x) <= 1.0)
      && (forall x: real :: 0.0 < pow10(x))
      && (forall x: real, y: real :: x <= y ==> pow10(x) <= pow10(y))
      && (forall x: real, y: real :: 0.0 < x <= y ==> log10(x) <= log10(y))
    }
  }

  /** Python's `round` on a float: to the nearest integer, a tie going to the
      even neighbour. */
  function RoundHalfEven(x: real): (r: int)
    ensures x - 0.5 <= r as real <= x + 0.5
    ensures (r as real == x - 0.5 || r as real == x + 0.5) ==> r % 2 == 0
    ensures x == x.Floor as real ==> r == x.Floor
  {
    var f := x.Floor;
    var d := x - f as real;
    if d < 0.5 then f
    else if d > 0.5 then f + 1
    else if f % 2 == 0 then f
    else f + 1
  }

  /** Rounding never reverses the order of two floats. */
  lemma RoundMonotone(x: real, y: real)
    requires x <= y
    ensures RoundHalfEven(x) <= RoundHalfEven(y)
  {
    // follows from the half-unit bound: two results one apart would need x == y on a tie
  }

  /** Python's `lst[i]` on a list of length `len`: a negative index counts from
      the end, and any other index outside the list raises IndexError (None). */
  function PyIndex(len: nat, i: int): (r: Option<nat>)
    ensures r.Some? <==> -(len as int) <= i < len
    ensures r.Some? ==> r.value < len && (r.value == i || r.value == i + len)
    ensures 0 <= i < len ==> r == Some(i)
  {
    if 0 <= i < len then Some(i)
    else if -(len as int) <= i < 0 then Some(len + i)
    else None
  }
}
