/** Folded definitions.

    A predicate whose body is large can be written

      forall m {:trigger Unfold(m)} | m == k :: Body(m)

    which means `Body(k)`, but is used by a proof only where `Unfold(k)` is mentioned. Each such predicate comes with a
    lemma that states its meaning and whose proof mentions it; everywhere else the predicate is a name, and the
    proofs of long methods stay short. Where the body already mentions a function of `m` that proofs do not mention
    by themselves, that function serves as the trigger instead. */
module Folding {
  predicate Unfold<T>(x: T) {
    true
  }

  /** The same for numbers. */
  predicate UnfoldAt(n: nat) {
    true
  }
}
