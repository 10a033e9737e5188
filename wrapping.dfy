/** Machine-word counters. The queue's `sends` and `recvs` counters are `usize`
    values updated with `fetch_add`, which wraps around on overflow, and `len`
    subtracts them with `wrapping_sub`. A 64-bit `usize` is assumed. */
module Wrapping {

  /** Number of distinct `usize` values. */
  const WORD: nat := 0x1_0000_0000_0000_0000

  type Usize = x: int | 0 <= x < WORD

  /** `a.wrapping_add(b)`, also what `fetch_add` stores. */
  function WrappingAdd(a: Usize, b: Usize): (r: Usize)
    ensures (r - a - b) % WORD == 0
  {
    (a + b) % WORD
  }

  /** `a.wrapping_sub(b)`: the unique word that, added to `b`, gives `a` back. */
  function WrappingSub(a: Usize, b: Usize): (r: Usize)
    ensures WrappingAdd(b, r) == a
  {
    if a >= b then a - b else a + WORD - b
  }

  /** Adding one to a word taken modulo the word size is the same as reducing
      the incremented value. */
  lemma AddOneAfterReduce(x: nat)
    ensures WrappingAdd(x % WORD, 1) == (x + 1) % WORD
  {
  }

  /** Subtracting the receive count from a send count that exceeds it by `n`
      (modulo the word) yields `n` modulo the word: the basis of `len`. */
  lemma SubAfterAdd(r: Usize, n: nat)
    ensures WrappingSub((r + n) % WORD, r) == n % WORD
  {
  }

  /** Moving one unit from the outstanding count `n` to the receive counter
      leaves their wrapped sum unchanged. */
  lemma ReceiveStep(r: Usize, n: nat)
    requires n >= 1
    ensures (WrappingAdd(r, 1) + (n - 1)) % WORD == (r + n) % WORD
  {
  }
}
