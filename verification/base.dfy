/** Small shared vocabulary: an optional value, flattening of nested
    sequences, and the decimal rendering that `std::to_string` performs on an
    unsigned counter. */
module Base {

  datatype Option<+T> = None | Some(value: T)

  /** Concatenation of the inner sequences, in order. */
  function Concat<T>(xss: seq<seq<T>>): seq<T>
  {
    if |xss| == 0 then [] else xss[0] + Concat(xss[1..])
  }

  /** Sum of the inner lengths; the length of `Concat`. */
  function TotalLength<T>(xss: seq<seq<T>>): nat
  {
    if |xss| == 0 then 0 else |xss[0]| + TotalLength(xss[1..])
  }

  /** Where the inner sequence `k` starts inside `Concat(xss)`. */
  function StartOf<T>(xss: seq<seq<T>>, k: nat): nat
    requires k <= |xss|
  {
    if k == 0 then 0 else |xss[0]| + StartOf(xss[1..], k - 1)
  }

  /** Flattening keeps every element: the length is the sum of the inner
      lengths ... */
  lemma {:induction false} ConcatLength<T>(xss: seq<seq<T>>)
    ensures |Concat(xss)| == TotalLength(xss)
  {
    if |xss| > 0 {
      ConcatLength(xss[1..]);
    }
  }

  /** ... and element `j` of inner sequence `k` sits at `StartOf(xss, k) + j`. */
  lemma {:induction false} ConcatAt<T>(xss: seq<seq<T>>, k: nat, j: nat)
    requires k < |xss| && j < |xss[k]|
    ensures StartOf(xss, k) + j < |Concat(xss)|
    ensures Concat(xss)[StartOf(xss, k) + j] == xss[k][j]
  {
    if k > 0 {
      var rest := xss[1..];
      assert xss[k] == rest[k - 1];
      ConcatAt(rest, k - 1, j);
    }
  }

  lemma {:induction false} ConcatAppend<T>(xss: seq<seq<T>>, ys: seq<T>)
    ensures Concat(xss + [ys]) == Concat(xss) + ys
  {
    if |xss| == 0 {
      assert xss + [ys] == [ys];
    } else {
      assert (xss + [ys])[1..] == xss[1..] + [ys];
      ConcatAppend(xss[1..], ys);
    }
  }

  // ---------------------------------------------------------------------
  // Decimal rendering of an unsigned counter (`std::to_string`).

  function DigitChar(d: nat): char
    requires d < 10
  {
    ['0', '1', '2', '3', '4', '5', '6', '7', '8', '9'][d]
  }

  predicate IsDigit(c: char)
  {
    '0' <= c <= '9'
  }

  function DigitValue(c: char): nat
    requires IsDigit(c)
  {
    c as nat - '0' as nat
  }

  /** Shortest base-10 rendering, most significant digit first. */
  function DecimalString(n: nat): (s: string)
    ensures |s| > 0
    ensures forall i :: 0 <= i < |s| ==> IsDigit(s[i])
    ensures |s| > 1 ==> s[0] != '0'
  {
    if n < 10 then [DigitChar(n)] else DecimalString(n / 10) + [DigitChar(n % 10)]
  }

  /** Reads a run of decimal digits back as a number. */
  function ParseDecimal(s: string): nat
    requires forall i :: 0 <= i < |s| ==> IsDigit(s[i])
  {
    if |s| == 0 then 0 else 10 * ParseDecimal(s[..|s| - 1]) + DigitValue(s[|s| - 1])
  }

  lemma DigitRoundTrip(d: nat)
    requires d < 10
    ensures DigitValue(DigitChar(d)) == d
  {
  }

  /** Reading the rendering back gives the number that was rendered. */
  lemma {:induction false} DecimalRoundTrip(n: nat)
    ensures ParseDecimal(DecimalString(n)) == n
  {
    var s := DecimalString(n);
    if n < 10 {
      DigitRoundTrip(n);
    } else {
      DecimalRoundTrip(n / 10);
      DigitRoundTrip(n % 10);
      assert s[..|s| - 1] == DecimalString(n / 10);
    }
  }

  /** Two different counters are never rendered alike. */
  lemma DecimalInjective(m: nat, n: nat)
    requires DecimalString(m) == DecimalString(n)
    ensures m == n
  {
    DecimalRoundTrip(m);
    DecimalRoundTrip(n);
  }
}
