/** The item collections an indicator view can be bound to, seen only through
    the capabilities the view tests for at run time. */
module Collections {

  /** An enumerable collection. `items` is what enumerating it yields;
      `isCollection` says it also has a direct element count (`ICollection`),
      `notifies` that it raises change notifications (`INotifyCollectionChanged`).
      The direct count of an `ICollection` is taken to be `|items|`, the number
      of elements its enumerator yields. */
  class Collection {
    var items: seq<int>
    const isCollection: bool
    const notifies: bool

    constructor (items: seq<int>, isCollection: bool, notifies: bool)
      ensures this.items == items
      ensures this.isCollection == isCollection && this.notifies == notifies
    {
      this.items := items;
      this.isCollection := isCollection;
      this.notifies := notifies;
    }

    /** The owner of the collection changes its contents (an add, remove,
        replace, move or reset alike). */
    method SetItems(newItems: seq<int>)
      modifies this
      ensures items == newItems
    {
      items := newItems;
    }
  }

  /** An enumerator over the items a collection held when it was created.
      `yielded` is the number of elements it has moved past, `calls` a
      ghost count of the times MoveNext was called on it. */
  class Enumerator {
    const items: seq<int>
    var yielded: nat
    ghost var calls: nat

    ghost predicate Valid()
      reads this
    {
      yielded <= |items|
    }

    constructor (items: seq<int>)
      ensures Valid()
      ensures this.items == items && yielded == 0 && calls == 0
    {
      this.items := items;
      yielded := 0;
      calls := 0;
    }

    /** Advances to the next element; false once every element has been yielded. */
    method MoveNext() returns (advanced: bool)
      requires Valid()
      modifies this
      ensures Valid()
      ensures advanced <==> old(yielded) < |items|
      ensures yielded == if advanced then old(yielded) + 1 else old(yielded)
      ensures calls == old(calls) + 1
    {
      advanced := yielded < |items|;
      if advanced {
        yielded := yielded + 1;
      }
      calls := calls + 1;
    }
  }

  /** The `sender` of a collection-changed notification as the handler sees
      it: null, an object that is not enumerable, or an enumerable collection. */
  datatype Sender = NullSender | NotEnumerable | Enumerable(source: Collection)

  /** The sender passed when a (possibly null) items source is recounted. */
  function SenderOf(source: Collection?): Sender
  {
    if source == null then NullSender else Enumerable(source)
  }

  /** Number of elements of a (possibly null) source; null counts as empty. */
  function SourceCount(source: Collection?): nat
    reads source
  {
    if source == null then 0 else |source.items|
  }

  /** Number of elements a sender holds; a null or non-enumerable sender holds none. */
  function SenderCount(s: Sender): nat
    reads if s.Enumerable? then {s.source} else {}
  {
    if s.Enumerable? then |s.source.items| else 0
  }

  /** Recounting through the sender built from a source gives the source's
      length, and 0 for a null source. */
  lemma SenderOfCount(source: Collection?)
    ensures SenderCount(SenderOf(source)) == SourceCount(source)
  {
  }
}
