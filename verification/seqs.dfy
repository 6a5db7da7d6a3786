/** The two `Array.prototype.splice` forms the store uses: removing one
    element and inserting one element. */
module Seqs {

  /** `xs.splice(i, 1)`: drops the element at `i`. */
  function RemoveAt<T>(xs: seq<T>, i: int): (r: seq<T>)
    requires 0 <= i < |xs|
    ensures |r| == |xs| - 1
    ensures forall j :: 0 <= j < i ==> r[j] == xs[j]
    ensures forall j :: i <= j < |r| ==> r[j] == xs[j + 1]
    ensures multiset(r) + multiset{xs[i]} == multiset(xs)
  {
    assert xs == xs[..i] + [xs[i]] + xs[i + 1..];
    xs[..i] + xs[i + 1..]
  }

  /** `xs.splice(i, 0, x)`: places `x` at `i`, shifting the rest up. */
  function InsertAt<T>(xs: seq<T>, i: int, x: T): (r: seq<T>)
    requires 0 <= i <= |xs|
    ensures |r| == |xs| + 1
    ensures r[i] == x
    ensures forall j :: 0 <= j < i ==> r[j] == xs[j]
    ensures forall j :: i < j < |r| ==> r[j] == xs[j - 1]
    ensures multiset(r) == multiset(xs) + multiset{x}
  {
    assert xs == xs[..i] + xs[i..];
    xs[..i] + [x] + xs[i..]
  }

  /** Inserting and then removing at the same place is the identity. */
  lemma RemoveAfterInsert<T>(xs: seq<T>, i: int, x: T)
    requires 0 <= i <= |xs|
    ensures RemoveAt(InsertAt(xs, i, x), i) == xs
  {
  }

  /** Removing an element and putting it back where it was is the identity. */
  lemma InsertAfterRemove<T>(xs: seq<T>, i: int)
    requires 0 <= i < |xs|
    ensures InsertAt(RemoveAt(xs, i), i, xs[i]) == xs
  {
  }

  lemma MultisetCancel<T>(a: multiset<T>, b: multiset<T>, x: T)
    requires a + multiset{x} == b + multiset{x}
    ensures a == b
  {
    forall e ensures a[e] == b[e] {
      assert (a + multiset{x})[e] == (b + multiset{x})[e];
    }
  }

  /** Where the moved element lands: the target index is corrected by one
      when it lies past the source, since removal shifted it down. */
  function Destination(from: int, to: int): int {
    if to > from then to - 1 else to
  }

  /** The layer move of the store: for a target at the end, push a copy and
      then splice out the original; otherwise splice the item out and splice
      it back in at the corrected target. */
  function MoveItem<T>(xs: seq<T>, from: int, to: int): (r: seq<T>)
    requires 0 <= from < |xs|
    requires 0 <= to <= |xs|
    ensures |r| == |xs|
    ensures multiset(r) == multiset(xs)
    ensures to <= from ==> r[to] == xs[from]
    ensures from < to < |xs| ==> r[to - 1] == xs[from]
    ensures to == |xs| ==> r[|xs| - 1] == xs[from]
    ensures RemoveAt(r, Destination(from, to)) == RemoveAt(xs, from)
  {
    if to == |xs| then
      var pushed := xs + [xs[from]];
      assert multiset(pushed) == multiset(xs) + multiset{xs[from]};
      var r := RemoveAt(pushed, from);
      assert pushed[from] == xs[from];
      MultisetCancel(multiset(r), multiset(xs), xs[from]);
      r
    else
      var item := xs[from];
      var rest := RemoveAt(xs, from);
      InsertAt(rest, Destination(from, to), item)
  }

  /** Both branches of the move follow one rule: remove, then reinsert at
      the corrected target. */
  lemma MoveItemIsRemoveThenInsert<T>(xs: seq<T>, from: int, to: int)
    requires 0 <= from < |xs|
    requires 0 <= to <= |xs|
    ensures MoveItem(xs, from, to) == InsertAt(RemoveAt(xs, from), Destination(from, to), xs[from])
  {
    var r := MoveItem(xs, from, to);
    var d := Destination(from, to);
    InsertAfterRemove(r, d);
  }

  /** Moving the element back from where it landed restores the sequence. */
  lemma MoveItemUndo<T>(xs: seq<T>, from: int, to: int)
    requires 0 <= from < |xs|
    requires 0 <= to <= |xs|
    ensures var d := Destination(from, to);
            var back := if from > d then from + 1 else from;
            back <= |xs| && MoveItem(MoveItem(xs, from, to), d, back) == xs
  {
    var d := Destination(from, to);
    var back := if from > d then from + 1 else from;
    var moved := MoveItem(xs, from, to);
    assert Destination(d, back) == from;
    MoveItemIsRemoveThenInsert(moved, d, back);
    InsertAfterRemove(xs, from);
  }
}
