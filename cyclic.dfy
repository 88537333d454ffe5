/** Cyclic indices, as the scripts compute them with `%`: stepping forward with
    `(i + 1) % n` and backward with `(i - 1 + n) % n` through a list of `n` entries. */
module Cyclic {

  /** `(i + 1) % n`: the entry after `i`. */
  function Next(i: nat, n: nat): (r: nat)
    requires n > 0
    ensures r < n
    ensures i < n - 1 ==> r == i + 1
    ensures i == n - 1 ==> r == 0
  {
    assert i + 1 < n ==> (i + 1) % n == i + 1;
    (i + 1) % n
  }

  /** `(i - 1 + n) % n`: the entry before `i`. */
  function Prev(i: nat, n: nat): (r: nat)
    requires n > 0
    ensures r < n
    ensures 0 < i <= n ==> r == i - 1
    ensures i == 0 ==> r == n - 1
  {
    (i - 1 + n) % n
  }

  /** Next and previous undo each other on every index in range. */
  lemma NextPrevInverse(i: nat, n: nat)
    requires i < n
    ensures Next(Prev(i, n), n) == i
    ensures Prev(Next(i, n), n) == i
  {
  }

  /** `k` forward steps from `i`. */
  function NextTimes(i: nat, n: nat, k: nat): (r: nat)
    requires n > 0
  {
    if k == 0 then i else Next(NextTimes(i, n, k - 1), n)
  }

  lemma {:induction false} NextTimesAdd(i: nat, n: nat, a: nat, b: nat)
    requires n > 0
    ensures NextTimes(i, n, a + b) == NextTimes(NextTimes(i, n, a), n, b)
  {
    if b > 0 {
      NextTimesAdd(i, n, a, b - 1);
    }
  }

  lemma {:induction false} NextTimesBelowEnd(i: nat, n: nat, k: nat)
    requires i + k < n
    ensures NextTimes(i, n, k) == i + k
  {
    if k > 0 {
      NextTimesBelowEnd(i, n, k - 1);
    }
  }

  /** Past the end of the list, `k` steps from `i` are `k - (n - i)` steps from 0. */
  lemma WrapAround(i: nat, n: nat, k: nat)
    requires i < n && n - i <= k
    ensures NextTimes(i, n, k) == NextTimes(0, n, k - (n - i))
  {
    var j := n - 1 - i;
    NextTimesAdd(i, n, j, k - j);
    NextTimesBelowEnd(i, n, j);
    NextTimesAdd(n - 1, n, 1, k - j - 1);
    assert NextTimes(n - 1, n, 1) == 0;
  }

  /** Stepping forward `n` times from any index in range comes back to it. */
  lemma FullCycle(i: nat, n: nat)
    requires i < n
    ensures NextTimes(i, n, n) == i
  {
    WrapAround(i, n, n);
    NextTimesBelowEnd(0, n, i);
  }

  /** No shorter run of forward steps comes back: the cycle visits every index. */
  lemma ShorterCycleMoves(i: nat, n: nat, k: nat)
    requires i < n && 0 < k < n
    ensures NextTimes(i, n, k) != i
  {
    if i + k < n {
      NextTimesBelowEnd(i, n, k);
    } else {
      WrapAround(i, n, k);
      NextTimesBelowEnd(0, n, k - (n - i));
    }
  }
}
