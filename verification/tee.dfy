/**
 Model of the immutable homogeneous two-slot container `Pair<T>` and the free
 function `tee` (src/tee.ts). No operation changes its receiver, so a `Pair`
 is a plain datatype; `do` hands back the mapper's own pair when it returns
 one. The optional callbacks of the TypeScript code are `Option`s, and every
 callback is a total, effect-free function.
 */
module Pairs {

  /** An optional argument: `None` stands for a callback that is `undefined` or `null`. */
  datatype Option<+T> = None | Some(value: T)

  /**
   The value a `do` mapper may return: either a `Pair` or a two-element array
   `[x, y]`, whose arity the TypeScript type `[U, U]` fixes. The array case is
   normalised to a `Pair` exactly once, by `Do`.
   */
  datatype Shape<U> = AsPair(pair: Pair<U>) | AsArray(x: U, y: U) {

    /** The pair this result stands for; an array goes through `FromArray`. */
    function Normalise(): (r: Pair<U>)
      ensures AsPair? ==> r == pair
      ensures AsArray? ==> r.ToArray() == [x, y]
    {
      match this
      case AsPair(p) => p
      case AsArray(x, y) => Pair.FromArray([x, y])
    }
  }

  /**
   What `process` makes observable: the arguments the processor was invoked
   with, in order, and the value `process` hands back.
   */
  datatype Processed<T> = Processed(calls: seq<T>, value: T)

  /** The pair: two values of one type, fixed at construction. */
  datatype Pair<T> = Pair(first: T, second: T) {

    /** The `length` getter: the number of index views, which is also the array length. */
    function Length(): (n: nat)
      ensures n == |ToArray()|
      ensures forall i :: 0 <= i < n <==> At(i).Some?
    {
      2
    }

    /**
     The index views `0` and `1`: derived from the fields, never stored apart.
     Any other numeric index reads `undefined`, here `None`.
     */
    function At(i: int): (r: Option<T>)
      ensures r.Some? <==> 0 <= i < |ToArray()|
      ensures r.Some? ==> r.value == ToArray()[i]
    {
      if i == 0 then Some(first)
      else if i == 1 then Some(second)
      else None
    }

    /** `Pair.split`: both slots hold `value`. */
    static function Split(value: T): (r: Pair<T>)
      ensures r.first == value && r.second == value
      ensures r.Swap() == r
    {
      Pair(value, value)
    }

    /** `Pair.fromArray`: the TypeScript parameter type `[T, T]` fixes the arity; there is no runtime check. */
    static function FromArray(a: seq<T>): (r: Pair<T>)
      requires |a| == 2
      ensures r.ToArray() == a
      ensures r.At(0) == Some(a[0]) && r.At(1) == Some(a[1])
    {
      Pair(a[0], a[1])
    }

    /**
     `map`: the first mapper maps `first`; `second` is mapped by the second
     mapper when one is given and by the first mapper otherwise.
     */
    function Map<U>(firstMapper: T -> U, secondMapper: Option<T -> U>): (r: Pair<U>)
      ensures r.At(0) == Some(firstMapper(first))
      ensures secondMapper.Some? ==> r.At(1) == Some(secondMapper.value(second))
      ensures secondMapper.None? ==> r.At(1) == Some(firstMapper(second))
    {
      var mappedSecond := match secondMapper
        case Some(g) => g(second)
        case None => firstMapper(second);
      Pair(firstMapper(first), mappedSecond)
    }

    /**
     `do`: the mapper sees both slots, `first` then `second`; an array result
     becomes a pair, a pair result is returned as it is.
     */
    function Do<U>(mapper: (T, T) -> Shape<U>): (r: Pair<U>)
      ensures mapper(first, second).AsPair? ==> r == mapper(first, second).pair
      ensures mapper(first, second).AsArray? ==>
        r.ToArray() == [mapper(first, second).x, mapper(first, second).y]
    {
      mapper(first, second).Normalise()
    }

    /** `swap`: a new pair with the slots exchanged. */
    function Swap(): (r: Pair<T>)
      ensures r.ToArray() == [second, first]
    {
      Pair(second, first)
    }

    /** `toArray`: the two slots, in order, as a two-element sequence. */
    function ToArray(): (r: seq<T>)
      ensures |r| == 2
      ensures Pair(r[0], r[1]) == this
    {
      [first, second]
    }

    /** `reduce`: collapses the pair with a two-argument unifier. */
    function Reduce<U>(unifier: (T, T) -> U): U {
      unifier(first, second)
    }

    /**
     `process`: a present processor is invoked exactly once, with `first`,
     for its effect only; whenever the processor returns, the result is `second`.
     */
    function Process(processor: Option<T -> ()>): (r: Processed<T>)
      ensures r.value == second
      ensures |r.calls| == (if processor.Some? then 1 else 0)
      ensures forall k :: 0 <= k < |r.calls| ==> r.calls[k] == first
    {
      match processor
      case Some(_) => Processed([first], second)
      case None => Processed([], second)
    }
  }

  /** `tee`: duplicates one value into both slots of a pair. */
  function Tee<T>(value: T): (r: Pair<T>)
    ensures r.first == value && r.second == value
  {
    Pair.Split(value)
  }
}
