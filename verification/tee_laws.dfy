/**
 Algebraic laws of the `Pair` combinators and of `tee`: each operation is tied
 to a partner (its inverse, another operation, or the array view) for all
 inputs.
 */
module PairLaws {
  import opened Pairs

  // ---------------------------------------------------------------------------
  // tee and split

  /** `tee` is `split`, and both put the one value in each slot of the array view. */
  lemma TeeDuplicates<T>(v: T)
    ensures Tee(v) == Pair.Split(v)
    ensures Tee(v).ToArray() == [v, v]
    ensures Tee(v).At(0) == Tee(v).At(1) == Some(v)
  {
  }

  /**
   The pairs `tee` can produce are exactly the pairs whose slots agree, and
   exactly the pairs `swap` leaves unchanged.
   */
  lemma TeeImageIsSwapFixedPoints<T>(p: Pair<T>)
    ensures (exists v :: p == Tee(v)) <==> p.first == p.second
    ensures (exists v :: p == Tee(v)) <==> p.Swap() == p
  {
    if p.first == p.second {
      assert p == Tee(p.first);
    }
  }

  // ---------------------------------------------------------------------------
  // fromArray and toArray

  /** `fromArray` undoes `toArray`. */
  lemma FromArrayToArray<T>(p: Pair<T>)
    ensures Pair.FromArray(p.ToArray()) == p
  {
  }

  /** `toArray` undoes `fromArray` on every two-element array. */
  lemma ToArrayFromArray<T>(a: seq<T>)
    requires |a| == 2
    ensures Pair.FromArray(a).ToArray() == a
    ensures Pair.FromArray(a).first == a[0] && Pair.FromArray(a).second == a[1]
  {
  }

  /**
   `fromArray` is a bijection from two-element arrays onto pairs: every pair
   comes from some array, and from only one.
   */
  lemma FromArrayBijective<T>(p: Pair<T>, a: seq<T>, b: seq<T>)
    requires |a| == 2 && |b| == 2
    ensures exists s :: |s| == 2 && Pair.FromArray(s) == p
    ensures Pair.FromArray(a) == Pair.FromArray(b) <==> a == b
  {
    var s := p.ToArray();
    assert Pair.FromArray(s) == p;
    if Pair.FromArray(a) == Pair.FromArray(b) {
      assert a == Pair.FromArray(a).ToArray();
    }
  }

  // ---------------------------------------------------------------------------
  // swap

  /** `swap` is an involution. */
  lemma SwapInvolution<T>(p: Pair<T>)
    ensures p.Swap().Swap() == p
    ensures p.Swap().first == p.second && p.Swap().second == p.first
  {
  }

  // ---------------------------------------------------------------------------
  // map

  /**
   With no second mapper, `map` broadcasts the first mapper to both slots:
   it is the same as passing that mapper twice.
   */
  lemma MapBroadcast<T, U>(p: Pair<T>, f: T -> U)
    ensures p.Map(f, None) == p.Map(f, Some(f))
    ensures p.Map(f, None) == Pair(f(p.first), f(p.second))
  {
  }

  /** With two mappers, each slot is mapped by its own mapper. */
  lemma MapTwoMappers<T, U>(p: Pair<T>, f: T -> U, g: T -> U)
    ensures p.Map(f, Some(g)) == Pair(f(p.first), g(p.second))
  {
  }

  /**
   When a second mapper is supplied the first mapper does not reach `second`,
   and the second mapper never reaches `first`.
   */
  lemma MapSlotsIndependent<T, U>(p: Pair<T>, f: T -> U, f': T -> U, g: T -> U, g': Option<T -> U>)
    ensures p.Map(f, Some(g)).second == p.Map(f', Some(g)).second
    ensures p.Map(f, Some(g)).first == p.Map(f, g').first
  {
  }

  /** Mapping commutes with swapping, the mappers trading places. */
  lemma MapSwap<T, U>(p: Pair<T>, f: T -> U, g: T -> U)
    ensures p.Swap().Map(g, Some(f)) == p.Map(f, Some(g)).Swap()
    ensures p.Swap().Map(f, None) == p.Map(f, None).Swap()
  {
  }

  /** `map` is a functor: identity and composition. */
  lemma MapFunctor<T, U, V>(p: Pair<T>, f: T -> U, g: T -> U, h: U -> V, k: U -> V)
    ensures p.Map(x => x, None) == p
    ensures p.Map(f, Some(g)).Map(h, Some(k)) == p.Map(x => h(f(x)), Some(x => k(g(x))))
  {
  }

  /** Mapping a tee'd value is tee'ing the mapped value. */
  lemma MapTee<T, U>(v: T, f: T -> U)
    ensures Tee(v).Map(f, None) == Tee(f(v))
  {
  }

  // ---------------------------------------------------------------------------
  // do

  /** An array result `[x, y]` of the `do` mapper becomes `Pair(x, y)`. */
  lemma DoArrayResult<T, U>(p: Pair<T>, mapper: (T, T) -> Shape<U>, x: U, y: U)
    requires mapper(p.first, p.second) == AsArray(x, y)
    ensures p.Do(mapper) == Pair(x, y)
  {
  }

  /** A pair result of the `do` mapper is handed back unchanged. */
  lemma DoPairResult<T, U>(p: Pair<T>, mapper: (T, T) -> Shape<U>, q: Pair<U>)
    requires mapper(p.first, p.second) == AsPair(q)
    ensures p.Do(mapper) == q
  {
  }

  /**
   The `do` mapper receives `(first, second)` in that order, and returning
   `q` as an array or as a pair makes no difference.
   */
  lemma DoArgumentsAndShapes<T, U>(p: Pair<T>, q: Pair<U>)
    ensures p.Do((a, b) => AsPair(Pair(a, b))) == p
    ensures p.Do((a, b) => AsArray(b, a)) == p.Swap()
    ensures p.Do((a, b) => AsArray(q.ToArray()[0], q.ToArray()[1])) == p.Do((a, b) => AsPair(q))
  {
  }

  /** `do` subsumes `map`: mapping each slot on its own is a joint mapper. */
  lemma DoGeneralisesMap<T, U>(p: Pair<T>, f: T -> U, g: T -> U)
    ensures p.Do((a, b) => AsArray(f(a), g(b))) == p.Map(f, Some(g))
    ensures p.Do((a, b) => AsPair(Pair(f(a), f(b)))) == p.Map(f, None)
  {
  }

  // ---------------------------------------------------------------------------
  // reduce

  /** Reducing with the projections yields the slots. */
  lemma ReduceProjections<T>(p: Pair<T>)
    ensures p.Reduce((a, b) => a) == p.first
    ensures p.Reduce((a, b) => b) == p.second
  {
  }

  /**
   `reduce` sees `(first, second)` in order: it can rebuild the array view
   and the swapped pair, and on a swapped pair it sees the arguments exchanged.
   */
  lemma ReduceArguments<T, U>(p: Pair<T>, unifier: (T, T) -> U)
    ensures p.Reduce((a, b) => [a, b]) == p.ToArray()
    ensures p.Reduce((a, b) => Pair(b, a)) == p.Swap()
    ensures p.Swap().Reduce(unifier) == p.Reduce((a, b) => unifier(b, a))
  {
  }

  // ---------------------------------------------------------------------------
  // process

  /**
   `process` returns `second` whenever the processor returns, whatever the
   processor; a present processor is called once with `first`, an absent one
   not at all.
   */
  lemma ProcessReturnsSecond<T>(p: Pair<T>, processor: T -> ())
    ensures p.Process(Some(processor)).value == p.Process(None).value == p.Reduce((a, b) => b)
    ensures p.Process(Some(processor)).calls == [p.first]
    ensures p.Process(None).calls == []
  {
  }

  /** On a tee'd value, `process` consumes one copy and hands back the other. */
  lemma ProcessTee<T>(v: T, processor: T -> ())
    ensures Tee(v).Process(Some(processor)) == Processed([v], v)
  {
  }

  // ---------------------------------------------------------------------------
  // shape: length and index views

  /** `length` is 2 and the index views 0 and 1 read `first` and `second`. */
  lemma IndexViews<T>(p: Pair<T>, i: int)
    ensures p.Length() == 2
    ensures p.At(0) == Some(p.first) && p.At(1) == Some(p.second)
    ensures i != 0 && i != 1 ==> p.At(i) == None
  {
  }

  // ---------------------------------------------------------------------------
  // worked examples

  /** `tee(5).map(x => x * 2).swap().toArray()` is `[10, 10]`. */
  lemma ExampleTeeMapSwap()
    ensures Tee(5).Map(x => x * 2, None) == Pair(10, 10)
    ensures Tee(5).Map(x => x * 2, None).Swap() == Pair(10, 10)
    ensures Tee(5).Map(x => x * 2, None).Swap().ToArray() == [10, 10]
  {
  }

  /** `Pair.fromArray(["a", "b"]).do((x, y) => [y, x])` is `Pair("b", "a")`. */
  lemma ExampleFromArrayDo()
    ensures Pair.FromArray(["a", "b"]).Do((x, y) => AsArray(y, x)) == Pair("b", "a")
  {
  }
}
