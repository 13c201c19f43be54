/** The index arithmetic that both carousels of the site share: one step
    forward or back around `n` slides, and several steps forward. */
module Carousel {
  /** `(i + 1) % n`. */
  function NextIndex(i: nat, n: nat): (r: nat)
    requires i < n
    ensures r < n
    ensures i + 1 < n ==> r == i + 1
    ensures i + 1 == n ==> r == 0
  {
    (i + 1) % n
  }

  /** `(i - 1 + n) % n`. */
  function PrevIndex(i: nat, n: nat): (r: nat)
    requires i < n
    ensures r < n
    ensures i > 0 ==> r == i - 1
    ensures i == 0 ==> r == n - 1
  {
    (i - 1 + n) % n
  }

  /** A step back undoes a step forward, and the other way round. */
  lemma StepsUndo(i: nat, n: nat)
    requires i < n
    ensures PrevIndex(NextIndex(i, n), n) == i
    ensures NextIndex(PrevIndex(i, n), n) == i
  {
  }

  /** `k` steps forward. */
  function Advance(i: nat, k: nat, n: nat): (r: nat)
    requires i < n
    ensures r < n
  {
    if k == 0 then i else NextIndex(Advance(i, k - 1, n), n)
  }

  lemma {:induction false} MulAtLeast(c: int, n: nat)
    requires c >= 1
    ensures c * n >= n
  {
    if c > 1 {
      MulAtLeast(c - 1, n);
      assert c * n == (c - 1) * n + n;
    }
  }

  lemma ModUnique(x: int, n: nat, q: int, r: int)
    requires 0 <= r < n && x == q * n + r
    ensures x % n == r
  {
    var q', r' := x / n, x % n;
    assert (q - q') * n == r' - r;
    if q - q' >= 1 {
      MulAtLeast(q - q', n);
      assert false;
    } else if q' - q >= 1 {
      MulAtLeast(q' - q, n);
      assert false;
    }
  }

  lemma ModStep(x: nat, n: nat)
    requires n > 0
    ensures ((x % n) + 1) % n == (x + 1) % n
  {
    var q, r := x / n, x % n;
    if r + 1 < n {
      ModUnique(x + 1, n, q, r + 1);
      ModUnique(r + 1, n, 0, r + 1);
    } else {
      assert x + 1 == (q + 1) * n + 0;
      ModUnique(x + 1, n, q + 1, 0);
      ModUnique(n, n, 1, 0);
    }
  }

  /** `k` steps forward land on `(i + k) % n`. */
  lemma {:induction false} AdvanceIsModular(i: nat, k: nat, n: nat)
    requires i < n
    ensures Advance(i, k, n) == (i + k) % n
  {
    if k > 0 {
      AdvanceIsModular(i, k - 1, n);
      ModStep(i + k - 1, n);
    }
  }

  /** As many steps forward as there are slides come back to the start. */
  lemma FullTurn(i: nat, n: nat)
    requires i < n
    ensures Advance(i, n, n) == i
  {
    AdvanceIsModular(i, n, n);
    ModUnique(i + n, n, 1, i);
  }
}
