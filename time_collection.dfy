/**
 * TimeCollection (Core/Collections/TimeCollection.cs): a list of points where a point in
 * the same time frame as the last one replaces it instead of being appended.
 */
module TimeCollections {
  import opened Wrappers
  import opened Events
  import opened Points
  import opened Conversion
  import opened IndexCollections

  /** Cutting the two times divides by the span only for a time that is not null. */
  predicate Comparable(a: Point, b: Point, span: int)
  {
    (a.time.Some? || b.time.Some?) ==> span != 0
  }

  /** `Equals(Cut(a.Time, span), Cut(b.Time, span))`: two null times are equal too. */
  predicate SameFrame(a: Point, b: Point, span: int)
    requires Comparable(a, b, span)
  {
    Round(a.time, Some(span)) == Round(b.time, Some(span))
  }

  /** `TimeCollection.Add(item, span)` reaches the comparison only when there is a last point. */
  predicate CanAdd(items: seq<Point>, item: Point, span: int)
  {
    |items| > 0 ==> Comparable(items[|items| - 1], item, span)
  }

  /** The list after `TimeCollection.Add(item, span)`. */
  function Collapsed(items: seq<Point>, item: Point, span: int): seq<Point>
    requires CanAdd(items, item, span)
  {
    if |items| > 0 && SameFrame(items[|items| - 1], item, span) then items[|items| - 1 := item]
    else items + [item]
  }

  /** No two neighbours share a time frame (and each pair can be compared). */
  predicate FramesApart(items: seq<Point>, span: int)
  {
    forall i :: 0 < i < |items| ==>
      Comparable(items[i - 1], items[i], span) && !SameFrame(items[i - 1], items[i], span)
  }

  /**
   * Adding keeps neighbours in distinct time frames, leaves the earlier points untouched,
   * ends the list with the item and grows it by at most one.
   */
  lemma CollapsedKeepsFramesApart(items: seq<Point>, item: Point, span: int)
    requires FramesApart(items, span) && CanAdd(items, item, span)
    ensures var r := Collapsed(items, item, span);
      FramesApart(r, span) && |items| <= |r| <= |items| + 1 && r[|r| - 1] == item
      && (|items| > 0 ==> r[..|items| - 1] == items[..|items| - 1])
  {
    var r := Collapsed(items, item, span);
    if |items| > 0 && SameFrame(items[|items| - 1], item, span) {
      forall i | 0 < i < |r|
        ensures Comparable(r[i - 1], r[i], span) && !SameFrame(r[i - 1], r[i], span)
      {
        if i == |r| - 1 {
          assert Comparable(items[i - 1], items[i], span) && !SameFrame(items[i - 1], items[i], span);
        } else {
          assert r[i - 1] == items[i - 1] && r[i] == items[i];
        }
      }
    } else {
      forall i | 0 < i < |r|
        ensures Comparable(r[i - 1], r[i], span) && !SameFrame(r[i - 1], r[i], span)
      {
        if i < |items| { assert r[i - 1] == items[i - 1] && r[i] == items[i]; }
      }
    }
  }

  class TimeCollection {
    const store: IndexCollection<Point>

    constructor ()
      ensures fresh(store) && store.items == [] && store.events == []
    {
      store := new IndexCollection<Point>();
    }

    /**
     * TimeCollection.Add: replaces the last point through the indexer when it lies in the
     * same time frame as `item`, and appends otherwise. Only when there is a last point are
     * the two times cut, and a zero span divides by zero there unless both times are null.
     */
    method Add(item: Point, span: int)
      requires CanAdd(store.items, item, span)
      modifies store
      ensures store.items == Collapsed(old(store.items), item, span)
      ensures |old(store.items)| > 0 && SameFrame(old(store.items)[|old(store.items)| - 1], item, span) ==>
        store.events == old(store.events) + [
          OnItem(Message(Action.Update, Some(old(store.items)[|old(store.items)| - 1]), Some(item))),
          OnCollection(Message(Action.Update, None, Some(store.items)))]
      ensures !(|old(store.items)| > 0 && SameFrame(old(store.items)[|old(store.items)| - 1], item, span)) ==>
        store.events == old(store.events) + CreateEvents(old(store.items), [item]) + [OnCollection(Message(Create, None, Some(store.items)))]
    {
      var previous := LastOrNone(store.items);
      if previous.Some? {
        if Round(item.time, Some(span)) == Round(previous.value.time, Some(span)) {
          store.Set(store.Count() - 1, item);
          return;
        }
      }
      store.Add([item]);
    }
  }
}
