/**
 * Shared vocabulary of the model: optional values, the exception kinds the
 * Python code raises, results of operations that may raise, and the few
 * numeric and string helpers (Python's min/max, int() and str.lower()).
 */
module Common {

  datatype Option<T> = None | Some(value: T)
  {
    function GetOr(default: T): T
    {
      if Some? then value else default
    }
  }

  /** The exception classes raised by the modelled code. */
  datatype Error =
    | QuantityError
    | UnknownMetaboliteError
    | InsufficientMetaboliteError
    | MetaboliteError
    | GlycolysisError
    | ValueError
    | TypeError
    | KeyError
    | NotImplementedError
    | ZeroDivisionError
    | AttributeError
    | AssertionError
    | IndexError

  /** The value a Python call returns, or the exception it raises. */
  datatype Result<T> = Ok(value: T) | Raise(error: Error)

  /** A Python call that returns None, or raises. */
  datatype Outcome = Done | Raised(error: Error)

  /**
   * The state left behind by a call that changes things step by step: the
   * state at the moment it returned or raised, and the exception if any.
   */
  datatype Partial<S> = Partial(state: S, error: Option<Error>)

  /** What a method reports for a partial result's error. */
  function OutcomeOf(e: Option<Error>): Outcome
  {
    if e.Some? then Raised(e.value) else Done
  }

  /**
   * A product `x * y` as a named step (one `*=` of a loop, one quantity times
   * its weight). Naming it lets lemmas relate products term by term: the
   * solver equates two applications whose arguments are equal, which it does
   * not reliably do for the bare product.
   */
  function Times(x: real, y: real): real
  {
    x * y
  }

  /** The product of two non-negative reals is non-negative. */
  lemma MulNonneg(a: real, b: real)
    requires a >= 0.0 && b >= 0.0
    ensures a * b >= 0.0
  {
  }

  function Min(a: real, b: real): (r: real)
    ensures r <= a && r <= b
    ensures r == a || r == b
  {
    if b < a then b else a
  }

  function Max(a: real, b: real): (r: real)
    ensures r >= a && r >= b
    ensures r == a || r == b
  {
    if b > a then b else a
  }

  function MinInt(a: int, b: int): (r: int)
    ensures r <= a && r <= b
    ensures r == a || r == b
  {
    if b < a then b else a
  }

  /** Python's int() on a float: truncation toward zero. */
  function Int(x: real): (r: int)
    ensures x >= 0.0 ==> r == x.Floor
    ensures x >= 0.0 ==> r as real <= x < r as real + 1.0
    ensures x < 0.0 ==> r == -((-x).Floor)
  {
    if x >= 0.0 then x.Floor else -((-x).Floor)
  }

  /** str.lower() on the ASCII letters. */
  function LowerChar(c: char): (r: char)
    ensures 'A' <= c <= 'Z' ==> r as int == c as int + 32
    ensures !('A' <= c <= 'Z') ==> r == c
  {
    if 'A' <= c <= 'Z' then (c as int + 32) as char else c
  }

  function Lower(s: string): (r: string)
    ensures |r| == |s|
    ensures forall i :: 0 <= i < |s| ==> r[i] == LowerChar(s[i])
  {
    if s == [] then [] else [LowerChar(s[0])] + Lower(s[1..])
  }

  /** Lower-casing a lower-cased name changes nothing. */
  lemma LowerIdempotent(s: string)
    ensures Lower(Lower(s)) == Lower(s)
  {
    var l := Lower(s);
    assert forall i :: 0 <= i < |l| ==> LowerChar(l[i]) == l[i];
  }
  /** Each item behind the same prefix, in order: the `f"{prefix}{item}"` loops. */
  function Prefixed(prefix: string, items: seq<string>): seq<string>
  {
    seq(|items|, i requires 0 <= i < |items| => prefix + items[i])
  }

  /** Prefixing distributes over concatenation, so items received later come out later. */
  lemma PrefixedConcat(prefix: string, a: seq<string>, b: seq<string>)
    ensures Prefixed(prefix, a + b) == Prefixed(prefix, a) + Prefixed(prefix, b)
  {
  }

  /** Nothing is lost: each item is recovered by dropping the prefix. */
  lemma PrefixedRecoverable(prefix: string, items: seq<string>)
    ensures |Prefixed(prefix, items)| == |items|
    ensures forall i :: 0 <= i < |items| ==> Prefixed(prefix, items)[i][|prefix|..] == items[i]
  {
    forall i | 0 <= i < |items|
      ensures Prefixed(prefix, items)[i][|prefix|..] == items[i]
    {
      assert Prefixed(prefix, items)[i] == prefix + items[i];
    }
  }
}
