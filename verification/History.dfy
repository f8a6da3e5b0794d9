/** Finding the moment something became true in a finite history. */
module History {
  /** The last moment before `j` at which `ps` turned true. */
  lemma {:induction false} LastRise(ps: seq<bool>, i: nat, j: nat) returns (m: nat)
    requires i < j < |ps| && !ps[i] && ps[j]
    ensures i <= m < j && !ps[m] && forall k :: m < k <= j ==> ps[k]
    decreases j
  {
    if ps[j - 1] {
      m := LastRise(ps, i, j - 1);
    } else {
      m := j - 1;
    }
  }
}
