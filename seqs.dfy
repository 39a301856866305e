/** Regrouping of sequence concatenations, stated once so that proofs over longer
  * concatenations need not rediscover it. */
module Seqs {
  lemma {:induction false} ConcatAssoc<E>(a: seq<E>, b: seq<E>, c: seq<E>)
    ensures a + b + c == a + (b + c)
  {
  }

  lemma {:induction false} ConcatAssoc4<E>(a: seq<E>, b: seq<E>, c: seq<E>, d: seq<E>)
    ensures a + b + c + d == a + (b + c + d)
    ensures a + b + c == a + (b + c + [])
  {
  }
}
