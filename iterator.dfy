/**
 * Iterator.ts: a `Collection` wraps an array; its `CollectionIterator` keeps
 * an index that `next` reads at and then increments, reporting `done` once
 * the index has reached the array's length. Reading past the end yields
 * `undefined`, and the index keeps growing.
 */
module Iterator {
  import opened Wrappers

  /** `IteratorResult_`: a value (`None` for `undefined`) and the `done` flag. */
  datatype IteratorResult<T> = IteratorResult(value: Option<T>, done: bool)

  /** What `next` returns when called with the index at `k`. */
  function ResultAt<T>(items: seq<T>, k: nat): (r: IteratorResult<T>)
    ensures r.done <==> k >= |items|
    ensures !r.done ==> r.value == Some(items[k])
    ensures r.done ==> r.value == None
  {
    if k < |items| then IteratorResult(Some(items[k]), false) else IteratorResult(None, true)
  }

  class Collection<T> {
    var items: seq<T>

    constructor (items: seq<T>)
      ensures this.items == items
    {
      this.items := items;
    }

    /** `createIterator`: a fresh iterator over this collection, at index 0. */
    method CreateIterator() returns (it: CollectionIterator<T>)
      ensures fresh(it) && it.collection == this && it.index == 0
    {
      it := new CollectionIterator(this);
    }

    /** `getItems`. */
    function GetItems(): seq<T>
      reads this
    {
      items
    }
  }

  class CollectionIterator<T> {
    const collection: Collection<T>
    var index: nat

    /** A new iterator starts at index 0. */
    constructor (collection: Collection<T>)
      ensures this.collection == collection && index == 0
    {
      this.collection := collection;
      index := 0;
    }

    /**
     * `next`: the item at the current index (`undefined` past the end), with
     * `done` exactly when the index has reached the length; then the index
     * goes up by one, past the end too. The collection is not touched.
     */
    method Next() returns (r: IteratorResult<T>)
      modifies this
      ensures r == ResultAt(collection.GetItems(), old(index))
      ensures index == old(index) + 1
    {
      var items := collection.GetItems();
      var value := if index < |items| then Some(items[index]) else None;
      var done := index >= |items|;
      index := index + 1;
      r := IteratorResult(value, done);
    }
  }

  /**
   * `n` successive calls of `next` on a new iterator: call `k` (from 0)
   * yields item `k` while `k` is below the length, and every call from the
   * length on reports `done`.
   */
  method Results<T>(items: seq<T>, n: nat) returns (rs: seq<IteratorResult<T>>)
    ensures |rs| == n
    ensures forall k :: 0 <= k < n && k < |items| ==> rs[k] == IteratorResult(Some(items[k]), false)
    ensures forall k :: |items| <= k < n ==> rs[k].done
  {
    var collection := new Collection(items);
    var iter := collection.CreateIterator();
    rs := [];
    while |rs| < n
      invariant iter.index == |rs| <= n
      invariant iter.collection == collection && collection.items == items
      invariant forall k :: 0 <= k < |rs| ==> rs[k] == ResultAt(items, k)
    {
      var r := iter.Next();
      rs := rs + [r];
    }
  }

  /**
   * The driver loop: `next` until `done`, logging each value. It logs the
   * items exactly, in order.
   */
  method Drive<T>(items: seq<T>) returns (out: seq<T>)
    ensures out == items
  {
    var collection := new Collection(items);
    var iter := collection.CreateIterator();
    out := [];
    var result := iter.Next();
    while !result.done
      invariant iter.collection == collection && collection.items == items
      invariant |out| <= |items| && out == items[..|out|]
      invariant iter.index == |out| + 1
      invariant result == ResultAt(items, |out|)
      decreases |items| - |out|
    {
      out := out + [result.value.value];
      result := iter.Next();
    }
  }

  /** The driver over `[1, 2, 3, 4, 5]` logs 1, 2, 3, 4, 5. */
  method Scenario() returns (out: seq<int>)
    ensures out == [1, 2, 3, 4, 5]
  {
    out := Drive([1, 2, 3, 4, 5]);
  }
}
