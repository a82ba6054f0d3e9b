/**
 * The reverse sequence adapter of the playground: `ReverseIterator<T>`, a cursor
 * class that hands out the elements of an array from the last one to the first,
 * and `ReverseSequence<T>`, a struct that builds a fresh such cursor on demand.
 * Swift arrays are values, so the stored array is a `seq<T>`; Swift calls it `array`,
 * a reserved word in Dafny, so here it is `elements`.
 */
module ReverseSequences {
  import opened Optionals

  /** The elements of `s` from the last one to the first. */
  function Reversed<T>(s: seq<T>): (r: seq<T>)
  {
    if s == [] then [] else [s[|s| - 1]] + Reversed(s[..|s| - 1])
  }

  /** Pointwise meaning of `Reversed`: same length, position `k` holds `s[|s| - 1 - k]`. */
  lemma {:induction false} ReversedAt<T>(s: seq<T>, k: int)
    requires 0 <= k < |s|
    ensures |Reversed(s)| == |s|
    ensures Reversed(s)[k] == s[|s| - 1 - k]
  {
    if k == 0 {
      ReversedLength(s);
    } else {
      ReversedAt(s[..|s| - 1], k - 1);
    }
  }

  lemma {:induction false} ReversedLength<T>(s: seq<T>)
    ensures |Reversed(s)| == |s|
  {
    if s != [] {
      ReversedLength(s[..|s| - 1]);
    }
  }

  /** `Reversed` agrees with the index-by-index reference definition. */
  lemma ReversedIsMirror<T>(s: seq<T>)
    ensures Reversed(s) == seq(|s|, k requires 0 <= k < |s| => s[|s| - 1 - k])
  {
    ReversedLength(s);
    forall k | 0 <= k < |s|
      ensures Reversed(s)[k] == s[|s| - 1 - k]
    {
      ReversedAt(s, k);
    }
  }

  /** Cursor over `elements` that walks from the last index down to 0. */
  class ReverseIterator<T> {
    var elements: seq<T>
    var currentIndex: int

    /** The cursor is at most one step past either end. */
    ghost predicate Valid()
      reads this
    {
      -1 <= currentIndex < |elements|
    }

    /** The elements that the following calls of `Next` will produce, in order. */
    ghost function Pending(): (r: seq<T>)
      reads this
      requires Valid()
    {
      Reversed(elements[..currentIndex + 1])
    }

    constructor (elements: seq<T>)
      ensures Valid()
      ensures this.elements == elements && currentIndex == |elements| - 1
      ensures Pending() == Reversed(elements)
    {
      this.elements := elements;
      currentIndex := |elements| - 1;
      assert elements[..|elements|] == elements;
    }

    /** Returns `None` once the cursor is below 0, otherwise the element under it, moving one step left. */
    method Next() returns (element: Option<T>)
      requires Valid()
      modifies this`currentIndex
      ensures Valid() && elements == old(elements)
      ensures element.None? <==> old(currentIndex) < 0
      ensures element.None? ==> currentIndex == old(currentIndex)
      ensures element.Some? ==>
                element.value == elements[old(currentIndex)] && currentIndex == old(currentIndex) - 1
      ensures old(Pending()) == if element.None? then [] else [element.value] + Pending()
    {
      if currentIndex < 0 {
        element := None;
      } else {
        element := Some(elements[currentIndex]);
        assert elements[..currentIndex + 1][..currentIndex] == elements[..currentIndex];
        currentIndex := currentIndex - 1;
      }
    }
  }

  /**
   * The `for ... in` loop over a reverse iterator: calls `Next` until it returns `None`,
   * collecting what it produced. The cursor ends exhausted, so any later `Next` returns `None`.
   */
  method Drain<T>(it: ReverseIterator<T>) returns (out: seq<T>)
    requires it.Valid()
    modifies it`currentIndex
    ensures it.Valid() && it.elements == old(it.elements)
    ensures out == old(it.Pending())
    ensures it.currentIndex == -1
  {
    out := [];
    var done := false;
    while !done
      invariant it.Valid() && it.elements == old(it.elements)
      invariant out + it.Pending() == old(it.Pending())
      invariant done ==> it.currentIndex == -1
      decreases it.currentIndex + 1, !done
    {
      var element := it.Next();
      match element
      case None =>
        done := true;
      case Some(x) =>
        out := out + [x];
    }
    assert it.elements[..0] == [];
  }

  /** The `ReverseSequence` struct: an array that is traversed backwards. */
  datatype ReverseSequence<T> = ReverseSequence(elements: seq<T>) {

    /** A new cursor, positioned at the last element; the sequence itself is a value and stays as it is. */
    method MakeIterator() returns (it: ReverseIterator<T>)
      ensures fresh(it) && it.Valid()
      ensures it.elements == elements && it.currentIndex == |elements| - 1
      ensures it.Pending() == Reversed(elements)
    {
      it := new ReverseIterator(elements);
    }

    /** One full traversal: exactly `|elements|` elements, the last one first. */
    method Traverse() returns (out: seq<T>)
      ensures out == Reversed(elements)
      ensures |out| == |elements|
      ensures forall k :: 0 <= k < |elements| ==> out[k] == elements[|elements| - 1 - k]
    {
      var it := MakeIterator();
      out := Drain(it);
      ReversedIsMirror(elements);
    }

    /**
     * Two cursors made by `MakeIterator` do not disturb each other: the first one is advanced
     * once, the second one is drained completely, then the first one is drained; both runs
     * yield the same elements.
     */
    method TraverseTwice() returns (first: seq<T>, second: seq<T>)
      ensures first == second == Reversed(elements)
    {
      var it1 := MakeIterator();
      var it2 := MakeIterator();
      var head := it1.Next();
      second := Drain(it2);
      var rest := Drain(it1);
      first := if head.Some? then [head.value] + rest else rest;
    }
  }

  /** The traversal of `[0, 1, 2, 3, 4, 5]` produces 5, 4, 3, 2, 1, 0. */
  method SampleTraversal() returns (out: seq<int>)
    ensures out == [5, 4, 3, 2, 1, 0]
  {
    var s := ReverseSequence([0, 1, 2, 3, 4, 5]);
    out := s.Traverse();
  }
}
