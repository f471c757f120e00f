/**
 * Small shared vocabulary: an Option type for values the source reads from a
 * dictionary key or a database row that may be missing, sums over sequences of
 * reals, and the ASCII lower-casing used when symbols and addresses are compared.
 */
module Common {

  datatype Option<+T> = None | Some(value: T) {
    function GetOr(default: T): T {
      match this
      case Some(v) => v
      case None => default
    }
  }

  /** The rows one insert statement adds: none or one. */
  function AsSeq<T>(row: Option<T>): (s: seq<T>)
    ensures |s| <= 1
    ensures row.Some? <==> |s| == 1
    ensures row.Some? ==> s[0] == row.value
  {
    match row
    case None => []
    case Some(r) => [r]
  }

  /** Concatenation regrouped; a loop that appends a part at a time uses it to
      keep `table == old(table) + done`. */
  lemma AppendAssoc<T>(a: seq<T>, b: seq<T>, c: seq<T>)
    ensures a + (b + c) == (a + b) + c
  {
  }

  /** One `[price, size]` level of an order-book ladder. */
  datatype Level = Level(price: real, size: real)

  /** Sum of a sequence, defined from the back so that a loop that adds
      one element at a time keeps `total == Sum(s[..i])`. */
  function Sum(s: seq<real>): real {
    if |s| == 0 then 0.0 else Sum(s[..|s| - 1]) + s[|s| - 1]
  }

  lemma {:induction false} SumNonNegative(s: seq<real>)
    requires forall i :: 0 <= i < |s| ==> s[i] >= 0.0
    ensures Sum(s) >= 0.0
  {
    if |s| > 0 {
      SumNonNegative(s[..|s| - 1]);
    }
  }

  lemma {:induction false} SumAllZero(s: seq<real>)
    requires forall i :: 0 <= i < |s| ==> s[i] == 0.0
    ensures Sum(s) == 0.0
  {
    if |s| > 0 {
      SumAllZero(s[..|s| - 1]);
    }
  }

  lemma {:induction false} SumConstant(s: seq<real>, c: real)
    requires forall i :: 0 <= i < |s| ==> s[i] == c
    ensures Sum(s) == (|s| as real) * c
  {
    if |s| > 0 {
      SumConstant(s[..|s| - 1], c);
    }
  }

  /** Python's abs() on a float. */
  function Abs(x: real): real { if x < 0.0 then -x else x }

  /** One character of Python's str.lower() restricted to ASCII letters. */
  function LowerChar(c: char): (d: char)
    ensures 'A' <= c <= 'Z' ==> d as int == c as int + 32
    ensures !('A' <= c <= 'Z') ==> d == c
  {
    if 'A' <= c <= 'Z' then (c as int + 32) as char else c
  }

  function Lower(s: string): (t: string)
    ensures |t| == |s|
    ensures forall i :: 0 <= i < |s| ==> t[i] == LowerChar(s[i])
  {
    if |s| == 0 then "" else Lower(s[..|s| - 1]) + [LowerChar(s[|s| - 1])]
  }
}
