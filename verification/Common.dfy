/** Optional values, results and flattened sequences, shared by all modules. */
module Common {

  datatype Option<+T> = None | Some(value: T)

  datatype Result<+T, +E> = Ok(value: T) | Err(error: E)

  /** The sequences that `f` gives for the elements of `xs`, one after the other. */
  function Collect<A, T>(xs: seq<A>, f: A -> seq<T>): seq<T> {
    if xs == [] then [] else f(xs[0]) + Collect(xs[1..], f)
  }

  lemma {:induction false} CollectConcat<A, T>(a: seq<A>, b: seq<A>, f: A -> seq<T>)
    ensures Collect(a + b, f) == Collect(a, f) + Collect(b, f)
  {
    if a == [] {
      assert a + b == b;
    } else {
      assert (a + b)[1..] == a[1..] + b;
      CollectConcat(a[1..], b, f);
    }
  }

  lemma CollectOne<A, T>(x: A, f: A -> seq<T>)
    ensures Collect([x], f) == f(x)
  {
    assert Collect([x][1..], f) == [];
  }

  lemma CollectPush<A, T>(xs: seq<A>, x: A, f: A -> seq<T>)
    ensures Collect(xs + [x], f) == Collect(xs, f) + f(x)
  {
    CollectConcat(xs, [x], f);
    CollectOne(x, f);
  }

  lemma CollectHead<A, T>(xs: seq<A>, f: A -> seq<T>)
    requires xs != []
    ensures Collect(xs, f) == f(xs[0]) + Collect(xs[1..], f)
  {}
}
