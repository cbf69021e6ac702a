/**
 * Right-to-left function composition.
 *
 * `compose(f1, ..., fn)` returns the identity for an empty list and otherwise
 * folds the list from the left, seeding the fold with `f1`: every step wraps
 * the accumulated function `f` and the next function `g` into `x => f(g(x))`.
 * All functions here take a single argument, the rightmost one included.
 */
module Compose {

  /** The closure one step of the fold builds: `x => f(g(x))`. */
  function After<T>(f: T -> T, g: T -> T): T -> T
  {
    x => f(g(x))
  }

  /** The seedless left fold over the functions: `acc` is what has been folded so far. */
  function Reduce<T>(acc: T -> T, rest: seq<T -> T>): T -> T
    decreases |rest|
  {
    if rest == [] then acc else Reduce(After(acc, rest[0]), rest[1..])
  }

  /** `compose(...fs)`: the identity for no functions, the fold otherwise. */
  function Compose<T>(fs: seq<T -> T>): (r: T -> T)
    ensures |fs| == 1 ==> r == fs[0]
  {
    if |fs| == 0 then x => x else Reduce(fs[0], fs[1..])
  }

  /** Reference meaning of composition: `fs[0](fs[1](... fs[|fs| - 1](x)))`. */
  function Nested<T>(fs: seq<T -> T>, x: T): T
    decreases |fs|
  {
    if fs == [] then x else fs[0](Nested(fs[1..], x))
  }

  /** With no functions the composite returns its argument unchanged. */
  lemma ComposeEmpty<T>(x: T)
    ensures Compose([])(x) == x
  {
  }

  /** Folding `rest` into `acc` applies the nested `rest` first and `acc` last. */
  lemma {:induction false} ReduceIsNested<T>(acc: T -> T, rest: seq<T -> T>, x: T)
    ensures Reduce(acc, rest)(x) == acc(Nested(rest, x))
    decreases |rest|
  {
    if rest != [] {
      ReduceIsNested(After(acc, rest[0]), rest[1..], x);
    }
  }

  /** The left fold of closures equals right-to-left nested application. */
  lemma {:induction false} ComposeIsNested<T>(fs: seq<T -> T>, x: T)
    ensures Compose(fs)(x) == Nested(fs, x)
  {
    if fs != [] {
      ReduceIsNested(fs[0], fs[1..], x);
    }
  }

  lemma {:induction false} NestedAppend<T>(fs: seq<T -> T>, gs: seq<T -> T>, x: T)
    ensures Nested(fs + gs, x) == Nested(fs, Nested(gs, x))
    decreases |fs|
  {
    if fs != [] {
      assert (fs + gs)[1..] == fs[1..] + gs;
      NestedAppend(fs[1..], gs, x);
    } else {
      assert fs + gs == gs;
    }
  }

  /** Composing a concatenation is composing the composites. */
  lemma ComposeAppend<T>(fs: seq<T -> T>, gs: seq<T -> T>, x: T)
    ensures Compose(fs + gs)(x) == Compose(fs)(Compose(gs)(x))
  {
    ComposeIsNested(fs + gs, x);
    ComposeIsNested(gs, x);
    ComposeIsNested(fs, Compose(gs)(x));
    NestedAppend(fs, gs, x);
  }

  /** The tags read from the last to the first. */
  function LastToFirst<A>(tags: seq<A>): seq<A>
  {
    seq(|tags|, j requires 0 <= j < |tags| => tags[|tags| - 1 - j])
  }

  /** Reading last to first, the first tag comes at the end. */
  lemma LastToFirstFront<A>(tags: seq<A>)
    requires tags != []
    ensures LastToFirst(tags) == LastToFirst(tags[1..]) + [tags[0]]
  {
    assert LastToFirst(tags)[..|tags| - 1] == LastToFirst(tags[1..]);
  }

  /** Reading last to first keeps every tag, each as often as it occurs. */
  lemma {:induction false} LastToFirstMultiset<A>(tags: seq<A>)
    ensures multiset(LastToFirst(tags)) == multiset(tags)
  {
    if tags != [] {
      LastToFirstFront(tags);
      LastToFirstMultiset(tags[1..]);
      assert tags == [tags[0]] + tags[1..];
    }
  }

  lemma {:induction false} NestedTags<A>(fs: seq<seq<A> -> seq<A>>, tags: seq<A>, s: seq<A>)
    requires |fs| == |tags|
    requires forall i, t :: 0 <= i < |fs| ==> fs[i](t) == t + [tags[i]]
    ensures Nested(fs, s) == s + LastToFirst(tags)
    decreases |fs|
  {
    if fs != [] {
      NestedTags(fs[1..], tags[1..], s);
      LastToFirstFront(tags);
    }
  }

  /**
   * Application order: when the i-th function appends the tag `tags[i]`, the
   * composite appends the tags last to first, each of them exactly once.
   */
  lemma TagsInReverse<A>(fs: seq<seq<A> -> seq<A>>, tags: seq<A>, s: seq<A>)
    requires |fs| == |tags|
    requires forall i, t :: 0 <= i < |fs| ==> fs[i](t) == t + [tags[i]]
    ensures Compose(fs)(s) == s + LastToFirst(tags)
    ensures forall j :: 0 <= j < |tags| ==> Compose(fs)(s)[|s| + |tags| - 1 - j] == tags[j]
    ensures multiset(Compose(fs)(s)[|s|..]) == multiset(tags)
  {
    ComposeIsNested(fs, s);
    NestedTags(fs, tags, s);
    assert Compose(fs)(s)[|s|..] == LastToFirst(tags);
    LastToFirstMultiset(tags);
  }
}
