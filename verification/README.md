# node-object-tee: the `Pair` container and `tee`, in Dafny

This project models the core of `src/tee.ts`: the immutable homogeneous
two-slot container `Pair<T>` with its combinators, and the free function
`tee`, which duplicates one value into both slots.

- `tee.dfy`, module `Pairs`: the data model and the operations.
  - `Pair<T> = Pair(first, second)` is a datatype. No operation changes its receiver; `do` hands back the mapper's pair itself when the mapper returns one.
  - The getter `length` is `Length`. The index views `0`/`1` are `At(i)`, which gives `None` for any other index (JavaScript's `undefined`).
  - The static methods are `Pair.Split` and `Pair.FromArray`.
  - The combinators are `Map`, `Do`, `Swap`, `ToArray`, `Reduce` and `Process`.
  - The free function is `Tee`.
  - An optional callback (`secondMapper?`, `processor?`) is an `Option`. `undefined` and `null` are both `None`, as `??` and the explicit check in `process` treat them alike.
  - A `do` mapper may return a `Pair` or a two-element array. `Shape<U>` (`AsPair(pair) | AsArray(x, y)`) covers both, with the `[U, U]` arity built into `AsArray`, and `Shape.Normalise` turns it into a `Pair` once.
  - The processor's side effect is made observable. `Process` returns a `Processed(calls, value)`: the arguments the processor was invoked with, in order, and the returned value.
- `tee_laws.dfy`, module `PairLaws`: lemmas that tie each operation to a partner for all inputs.
  - `swap` is an involution, and its fixed points are exactly the outputs of `tee`.
  - `fromArray` and `toArray` are mutually inverse, so `fromArray` is a bijection.
  - `map` broadcasts a single mapper, keeps the two slots independent, is a functor and commutes with `swap`.
  - `do` subsumes `map` and `swap`, and treats the array and pair shapes alike.
  - `reduce` sees `(first, second)` in order.
  - `process` returns `second` whenever the processor returns.
  - Two end-to-end examples are stated as lemmas.

## Model

| member | source | states |
|---|---|---|
| `Pairs.Pair.Length` | src/tee.ts:17-19 | `length` equals the length of the array view, and the index views are defined exactly at positions below it |
| `Pairs.Pair.At` | src/tee.ts:28-37 | the index views are defined only at 0 and 1, and there they read the array view, i.e. `first` and `second` |
| `Pairs.Pair.Split` | src/tee.ts:43-45 | `split(v)` puts `v` in both slots, and the result is unchanged by `swap` |
| `Pairs.Pair.FromArray` | src/tee.ts:49-51 | on a two-element array, `fromArray` gives a pair whose array view is that array and whose index views are its elements |
| `Pairs.Pair.Map` | src/tee.ts:57-61 | the first mapper maps `first`; `second` is mapped by the second mapper if given, else by the first |
| `Pairs.Pair.Do` | src/tee.ts:66-70 | the mapper's result at `(first, second)` is returned as is when it is a pair; when it is an array, the result's array view is that array |
| `Pairs.Shape.Normalise` | src/tee.ts:69 | a pair result is kept; an array result becomes the pair whose array view it is |
| `Pairs.Pair.Swap` | src/tee.ts:74-76 | the array view of the swapped pair is the original array view reversed |
| `Pairs.Pair.ToArray` | src/tee.ts:80-82 | `toArray` has two elements and rebuilds the very pair it came from |
| `Pairs.Pair.Process` | src/tee.ts:89-97 | `process` returns `second`; the processor is called once when present and never when absent, and only ever with `first` |
| `Pairs.Tee` | src/tee.ts:102-104 | `tee(v)` has `v` in both slots |
| `PairLaws.TeeDuplicates` | src/tee.ts:102-104 | `tee` is `split`; its array view is `[v, v]` and both index views read `v` |
| `PairLaws.TeeImageIsSwapFixedPoints` | src/tee.ts:74-104 | a pair comes from `tee` iff its slots are equal iff `swap` leaves it unchanged |
| `PairLaws.FromArrayToArray` | src/tee.ts:49-51 | `fromArray(p.toArray()) == p` for every pair |
| `PairLaws.ToArrayFromArray` | src/tee.ts:80-82 | `fromArray(a).toArray() == a` for every two-element array, with `first == a[0]` and `second == a[1]` |
| `PairLaws.FromArrayBijective` | src/tee.ts:49-51 | every pair is `fromArray` of some two-element array, and two arrays give the same pair only if they are equal |
| `PairLaws.SwapInvolution` | src/tee.ts:74-76 | `swap` exchanges the slots, and swapping twice gives the original pair |
| `PairLaws.MapBroadcast` | src/tee.ts:57-61 | with no second mapper, `map(f)` is `map(f, f)`: `f` is applied to both slots |
| `PairLaws.MapTwoMappers` | src/tee.ts:57-61 | `map(f, g)` is `Pair(f(first), g(second))` |
| `PairLaws.MapSlotsIndependent` | src/tee.ts:57-61 | with a second mapper, the result's `second` does not depend on the first mapper, and its `first` never depends on the second mapper |
| `PairLaws.MapSwap` | src/tee.ts:57-61 | mapping a swapped pair is swapping the mapped pair, with the two mappers exchanged |
| `PairLaws.MapFunctor` | src/tee.ts:57-61 | mapping with the identity is the identity; two maps in a row are one map with the composed mappers |
| `PairLaws.MapTee` | src/tee.ts:57-61 | `tee(v).map(f)` is `tee(f(v))` |
| `PairLaws.DoArrayResult` | src/tee.ts:66-70 | when the mapper returns `[x, y]`, `do` gives `Pair(x, y)` |
| `PairLaws.DoPairResult` | src/tee.ts:66-70 | when the mapper returns a pair, `do` returns that pair unchanged |
| `PairLaws.DoArgumentsAndShapes` | src/tee.ts:66-70 | the mapper receives `(first, second)` in that order; returning a pair's array view or the pair itself gives the same result |
| `PairLaws.DoGeneralisesMap` | src/tee.ts:57-70 | `do` with a mapper that maps each slot on its own equals `map` with those mappers |
| `PairLaws.ReduceProjections` | src/tee.ts:86-88 | reducing with `(a, b) => a` yields `first`; reducing with `(a, b) => b` yields `second` |
| `PairLaws.ReduceArguments` | src/tee.ts:74-88 | `reduce` can rebuild the array view and the swapped pair; reducing a swapped pair equals reducing with the unifier's arguments exchanged |
| `PairLaws.ProcessReturnsSecond` | src/tee.ts:89-97 | whenever the processor returns, `process` returns the same value with or without a processor, namely `reduce((a, b) => b)`; the call trace is `[first]` or empty |
| `PairLaws.ProcessTee` | src/tee.ts:89-104 | on `tee(v)`, `process` calls the processor once with `v` and returns `v` |
| `PairLaws.IndexViews` | src/tee.ts:17-37 | `length` is 2; index 0 reads `first`, index 1 reads `second`, and every other index reads nothing |
| `PairLaws.ExampleTeeMapSwap` | src/tee.ts:57-104 | `tee(5).map(x => x * 2)` is `Pair(10, 10)`, swapping it changes nothing, and its array view is `[10, 10]` |
| `PairLaws.ExampleFromArrayDo` | src/tee.ts:49-70 | `fromArray(["a", "b"]).do((x, y) => [y, x])` is `Pair("b", "a")` |

## Left out

- `injectTee` (src/tee.ts:135-158): it patches a JavaScript prototype in place with `Object.create`, `delete` and `Object.defineProperty`. That is the host object model, not pair logic.
- `TeeObject`, `ITeeObject` and `teeImpl` (src/tee.ts:106-129): they only call `tee(this)`, so `Tee` covers their behaviour.
- The property descriptors of the index views (non-enumerable, non-configurable): these are reflection concerns. Only the values the views read are modelled.
- Reference identity: the model cannot express whether both slots share one object or hold copies. Dafny values have no identity, so only equality is stated.
- Pairs.Pair.FromArray: it requires a two-element array. The TypeScript parameter type `[T, T]` fixes the arity and the code makes no runtime check, so the model has no error path.
- Pairs.Pair.Map: it states which mapper produces each slot, not how many times a mapper is evaluated. A pure model has no invocation count for `map`. When no second mapper is given, the code does apply the first mapper to `second` (`secondMapper ?? firstMapper`), and so does the model.
- Pairs.Pair.Reduce: it has no contract of its own, because its result is just the unifier's value. Its behaviour is stated by `PairLaws.ReduceProjections` and `PairLaws.ReduceArguments`.
- A processor's own effects and any value it returns: `Process` records only which arguments the processor was invoked with.
- Callbacks are modelled as total, effect-free functions (`T -> U`, `(T, T) -> Shape<U>`, `T -> ()`). In `src/tee.ts` nothing catches, so an exception thrown by a mapper, unifier or processor escapes the operation; for `process` (src/tee.ts:93-96) `second` is then never returned. The order of `map`'s two mapper calls (src/tee.ts:59-60) is not modelled either.
