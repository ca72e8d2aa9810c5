/** A Redux store replaying dispatched actions through a slice reducer. */
module Redux {

  /** The state after dispatching every action of `t`, in order, starting from `s`. */
  function Run<S, A>(reduce: (S, A) -> S, s: S, t: seq<A>): S
    decreases |t|
  {
    if t == [] then s else Run(reduce, reduce(s, t[0]), t[1..])
  }

  /** Dispatching one more action applies the reducer to the state reached so far. */
  lemma {:induction false} RunSnoc<S, A>(reduce: (S, A) -> S, s: S, t: seq<A>, a: A)
    ensures Run(reduce, s, t + [a]) == reduce(Run(reduce, s, t), a)
    decreases |t|
  {
    if t == [] {
      assert [a][1..] == [];
    } else {
      assert (t + [a])[1..] == t[1..] + [a];
      RunSnoc(reduce, reduce(s, t[0]), t[1..], a);
    }
  }

  /** Dispatching `t1` and then `t2` is dispatching `t1 + t2`. */
  lemma {:induction false} RunConcat<S, A>(reduce: (S, A) -> S, s: S, t1: seq<A>, t2: seq<A>)
    ensures Run(reduce, s, t1 + t2) == Run(reduce, Run(reduce, s, t1), t2)
    decreases |t1|
  {
    if t1 == [] {
      assert t1 + t2 == t2;
    } else {
      assert (t1 + t2)[1..] == t1[1..] + t2;
      RunConcat(reduce, reduce(s, t1[0]), t1[1..], t2);
    }
  }
}
