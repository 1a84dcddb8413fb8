/** What several modules share: options, repetition, and division facts that the solver needs spelled out. */
module Basics {

  datatype Option<+T> = None | Some(value: T)

  function Repeated<T>(s: seq<T>, k: nat): (r: seq<T>)
    ensures |r| == k * |s|
  {
    if k == 0 then [] else Repeated(s, k - 1) + s
  }

  lemma {:induction false} QuotientAndRemainder(size: nat, q0: nat, j: nat)
    requires j < size
    ensures (q0 * size + j) / size == q0 && (q0 * size + j) % size == j
  {
    var i := q0 * size + j;
    var q, r := i / size, i % size;
    assert i == q * size + r;
    if q < q0 {
      Multiply(q + 1, q0, size);
    } else if q0 < q {
      Multiply(q0 + 1, q, size);
    }
  }

  lemma {:induction false} Multiply(a: nat, b: nat, c: nat)
    requires a <= b
    ensures a * c <= b * c
  {
  }

  /** Repeating is reading in a circle. */
  lemma {:induction false} RepeatedAt<T>(s: seq<T>, k: nat, i: nat)
    requires i < k * |s|
    ensures |s| > 0 && Repeated(s, k)[i] == s[i % |s|]
  {
    if i < (k - 1) * |s| {
      RepeatedAt(s, k - 1, i);
    } else {
      QuotientAndRemainder(|s|, k - 1, i - (k - 1) * |s|);
    }
  }

  /** The remainder of a number that is written as a multiple and a rest, which may be of either sign. */
  lemma {:induction false} RemainderOf(n: int, d: nat, q: int, r: nat)
    requires r < d && n == q * d + r
    ensures n % d == r && n / d == q
  {
    var k, m := n / d, n % d;
    assert n == k * d + m;
    assert (k - q) * d == r - m;
    if k > q {
      Multiply(1, k - q, d);
    } else if k < q {
      Multiply(1, q - k, d);
    }
  }
}
