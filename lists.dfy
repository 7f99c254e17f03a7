/**
 * The two index-based array idioms the editor uses on its lists:
 * `xs.map((x, i) => i === index ? change(x) : x)` to edit one entry and
 * `xs.filter((_, i) => i !== index)` to drop one.
 */
module Lists {

  /** `xs.map((x, i) => i === index ? change(x) : x)`: the entry at position
      index is replaced by its changed copy, every other entry is kept; an index
      outside the list matches no position and the list comes back as it was. */
  function UpdateAt<T>(xs: seq<T>, index: int, change: T -> T): (r: seq<T>)
    ensures |r| == |xs|
    ensures forall k :: 0 <= k < |xs| && k != index ==> r[k] == xs[k]
    ensures 0 <= index < |xs| ==> r[index] == change(xs[index])
    ensures !(0 <= index < |xs|) ==> r == xs
  {
    var r := seq(|xs|, k requires 0 <= k < |xs| => if k == index then change(xs[k]) else xs[k]);
    assert !(0 <= index < |xs|) ==> r == xs;
    r
  }

  /** `xs.filter((_, i) => i !== index)`, walked position by position: the
      elements of xs whose position is not index, in their original order. */
  function WithoutIndex<T>(xs: seq<T>, index: int): (r: seq<T>)
    ensures 0 <= index < |xs| ==> r == xs[..index] + xs[index + 1..]
    ensures !(0 <= index < |xs|) ==> r == xs
    decreases |xs|
  {
    if xs == [] then []
    else
      var front, last := xs[..|xs| - 1], xs[|xs| - 1];
      var r := WithoutIndex(front, index) + (if |xs| - 1 == index then [] else [last]);
      assert 0 <= index < |xs| - 1 ==> front[index + 1..] + [last] == xs[index + 1..];
      assert index == |xs| - 1 ==> front == xs[..index] && xs[index + 1..] == [];
      assert front + [last] == xs;
      r
  }

  /** Filtering keeps only elements that were already in the list. */
  lemma WithoutIndexSubset<T>(xs: seq<T>, index: int)
    ensures forall y :: y in WithoutIndex(xs, index) ==> y in xs
  {
  }
}
