# SwifterPractice playground, modelled in Dafny

The playground demonstrates a handful of Swift language mechanics. This model covers
the parts that have behaviour:

- a reverse sequence adapter: `ReverseIterator<T>`, a class holding an array and a
  `currentIndex` cursor that `next()` moves from the last element down to the first, and
  `ReverseSequence<T>`, a struct whose `makeIterator()` builds a fresh cursor
  (`reverse_sequence.dfy`, module `ReverseSequences`);
- exchanging two `inout` values, through a temporary (`swap1`) and by a tuple assignment
  (`swap2`) (`tuple_swap.dfy`, module `Tuples`);
- the `MyCar` struct and its mutating `changeColor()` (`vehicle.dfy`, module `Vehicles`);
- the `??`, `&&` and `||` operators and `logIfTrue`/`logIfTrue2`, which take a deferred
  closure argument (`autoclosure.dfy`, module `Autoclosures`). `??`, `&&` and `||` evaluate
  the closure only on one branch; `logIfTrue`/`logIfTrue2` evaluate it exactly once and
  print only when it returns true. The closure is a `Thunk` object with a `calls` counter, so each contract
  says how often the closure ran;
- Swift's `Optional` as `Option` (`optional.dfy`, module `Optionals`).

`Contents.swift` holds all of this. The two pages repeat it: `Protocol_and_Tuple` lines 14-82
repeat the car, the iterator, the sequence and the swaps, and `Autoclosure` lines 7-61 repeat
the autoclosure material. Each member below is cited at one of the identical copies.

The iterator's abstract state is `Pending()`, the elements the following `next()` calls will
produce: the reverse of `elements[..currentIndex + 1]`. `Next` removes the head of it, and
`Drain` (the `for ... in` loop) collects all of it. Swift's field name `array` is a reserved
word in Dafny, so the field is called `elements`.

## Model

| member | source | states |
|---|---|---|
| `ReverseSequences.ReverseIterator.constructor` | MyPlayground.playground/Contents.swift:33-36 | the cursor starts at `count - 1` (so at -1 for an empty array), the invariant `-1 <= currentIndex < count` holds, and the pending output is the whole array reversed |
| `ReverseSequences.ReverseIterator.Next` | MyPlayground.playground/Contents.swift:38-46 | returns nil exactly when `currentIndex < 0` and then changes nothing (so nil stays terminal); otherwise returns the element at `currentIndex` (always in bounds) and decrements the cursor by one; the array is never written; the invariant is preserved and the returned element is the head of the pending output |
| `ReverseSequences.Drain` | MyPlayground.playground/Pages/Protocol_and_Tuple.xcplaygroundpage/Contents.swift:65-67 | the `for ... in` loop calls `next()` until nil, which terminates (the cursor plus one strictly decreases), collects exactly the pending output and leaves the cursor exhausted at -1 |
| `ReverseSequences.ReverseSequence.MakeIterator` | MyPlayground.playground/Contents.swift:60-62 | returns a newly allocated cursor over the sequence's array, positioned at the last element, whose pending output is the reversed array |
| `ReverseSequences.ReverseSequence.Traverse` | MyPlayground.playground/Pages/Protocol_and_Tuple.xcplaygroundpage/Contents.swift:50-67 | a full traversal yields exactly `count` elements, element `k` being `array[count - 1 - k]`: the reverse of the array |
| `ReverseSequences.ReverseSequence.TraverseTwice` | MyPlayground.playground/Contents.swift:51-62 | two cursors from `makeIterator()`, advanced interleaved, do not disturb each other, and both traversals give the same reversed array: the sequence is restartable |
| `ReverseSequences.SampleTraversal` | MyPlayground.playground/Contents.swift:65-68 | traversing `[0, 1, 2, 3, 4, 5]` yields 5, 4, 3, 2, 1, 0 |
| `ReverseSequences.ReversedAt` | MyPlayground.playground/Pages/Protocol_and_Tuple.xcplaygroundpage/Contents.swift:37-45 | the reverse order that `next()` produces has the input's length and holds `s[count - 1 - k]` at position `k` |
| `ReverseSequences.ReversedLength` | MyPlayground.playground/Pages/Protocol_and_Tuple.xcplaygroundpage/Contents.swift:30-45 | the iterator produces as many elements as the array has |
| `ReverseSequences.ReversedIsMirror` | MyPlayground.playground/Pages/Protocol_and_Tuple.xcplaygroundpage/Contents.swift:50-61 | the recursive definition of the produced order equals the index-by-index mirror of the array |
| `Tuples.Swap1` | MyPlayground.playground/Contents.swift:74-78 | after the exchange through a temporary, `a` holds the old `b` and `b` the old `a` |
| `Tuples.Swap2` | MyPlayground.playground/Contents.swift:81-83 | the tuple assignment has the same postcondition as `swap1` |
| `Tuples.SwapTwice` | MyPlayground.playground/Pages/Protocol_and_Tuple.xcplaygroundpage/Contents.swift:73-82 | swapping twice restores both original values, both for `swap1` followed by `swap2` and for `swap2` followed by `swap1` |
| `Vehicles.MyCar.constructor` | MyPlayground.playground/Pages/Protocol_and_Tuple.xcplaygroundpage/Contents.swift:14-16 | the memberwise initializer `MyCar(color:)` gives a car of the given colour, blue when the argument is omitted; the wheel count is the constant 4 |
| `Vehicles.MyCar.ChangeColor` | MyPlayground.playground/Pages/Protocol_and_Tuple.xcplaygroundpage/Contents.swift:18-20 | `changeColor()` makes the car red; its frame lets it write only the colour, so the wheel count (a constant 4) is untouched |
| `Autoclosures.Thunk.constructor` | MyPlayground.playground/Pages/Autoclosure.xcplaygroundpage/Contents.swift:26 | wrapping an expression into a closure evaluates nothing: the call count starts at 0 |
| `Autoclosures.Thunk.Call` | MyPlayground.playground/Pages/Autoclosure.xcplaygroundpage/Contents.swift:21-22 | invoking the closure yields its value and counts exactly one more invocation |
| `Autoclosures.Coalesce` | MyPlayground.playground/Contents.swift:132-139 | `??` on `.some(v)` returns `v` without invoking the default; on `.none` it invokes the default exactly once and returns its value; the result always equals option-or-default |
| `Autoclosures.And` | MyPlayground.playground/Pages/Autoclosure.xcplaygroundpage/Contents.swift:53-55 | `&&` invokes `rhs` once when `lhs` is true and never otherwise, and its result equals the boolean conjunction `lhs && rhs()` |
| `Autoclosures.Or` | MyPlayground.playground/Contents.swift:155-157 | `\|\|` invokes `rhs` once when `lhs` is false and never otherwise, and its result equals the boolean disjunction `lhs \|\| rhs()` |
| `Autoclosures.LogIfTrue` | MyPlayground.playground/Pages/Autoclosure.xcplaygroundpage/Contents.swift:7-11 | the predicate closure is invoked exactly once, and the line `true` is printed exactly when it returns true |
| `Autoclosures.LogIfTrue2` | MyPlayground.playground/Pages/Autoclosure.xcplaygroundpage/Contents.swift:21-25 | the autoclosure variant invokes the predicate exactly once and prints `true 2` exactly when it returns true |
| `Autoclosures.CurrentLevel` | MyPlayground.playground/Pages/Autoclosure.xcplaygroundpage/Contents.swift:31-44 | `level ?? startLevel` with `level` nil and `startLevel` 1 is 1, the default being evaluated once |
| `Autoclosures.Practice` | MyPlayground.playground/Pages/Autoclosure.xcplaygroundpage/Contents.swift:50-61 | `flag && flag2` with `flag` false is false and never evaluates `flag2`; `flag \|\| flag2` evaluates `flag2` once and is true |

## Left out

- Console output: `print` in the `for ... in` loop and in `logIfTrue`/`logIfTrue2`. The loop body (which also indexes the array by each produced element) is not modelled; the line `logIfTrue`/`logIfTrue2` would print is returned as an `Option<string>`.
- The top-level `logIfTrue(...)` and `logIfTrue2(2 > 1)` call statements, which only print.
- The `Vehicle` protocol and its dynamic dispatch, and UIKit's `UIColor`: the colour is an enumeration of the two colours used, blue and red.
- Vehicles.MyCar: Swift's `MyCar` is a struct, a value type; the model is a class, so copying a car (and the independence of copies) is not modelled.
- The generic `Sequence`/`IteratorProtocol` conformance and the `@autoclosure` call-site wrapping, which are compile-time language features; iteration is explicit `Next` calls and a closure is an explicit `Thunk`.
- Autoclosures.Thunk: a closure always returns the same value and has no effect other than being counted; closures with side effects or varying results are not modelled (the playground's closures are pure expressions such as `2 > 1`).
- The commented-out `CGRect.divided` / `CGRectDivide` material: it is not code, and it is floating-point geometry from CoreGraphics.
- Swift's `Int` is 64 bits wide; the model uses unbounded integers. The only arithmetic, `count - 1` and `currentIndex -= 1` on values between -1 and `count`, cannot overflow.
