/**
 * IndexCollection (Core/Collections/IndexCollection.cs): a list that publishes every
 * change on an item stream and a collection stream.
 */
module IndexCollections {
  import opened Wrappers
  import opened Events

  /** The last element of a list, null when it is empty. */
  function LastOrNone<T>(s: seq<T>): (r: Option<T>)
    ensures r.Some? <==> |s| > 0
    ensures r.Some? ==> r.value == s[|s| - 1]
  {
    if |s| == 0 then None else Some(s[|s| - 1])
  }

  /** `List.Remove`: drops the first element equal to `x`; a list without `x` is unchanged. */
  function RemoveFirst<T(==)>(s: seq<T>, x: T): (r: seq<T>)
  {
    if s == [] then []
    else if s[0] == x then s[1..]
    else [s[0]] + RemoveFirst(s[1..], x)
  }

  /** RemoveFirst takes out exactly one occurrence of a present element and nothing else. */
  lemma {:induction false} RemoveFirstCounts<T>(s: seq<T>, x: T)
    ensures x in s ==> multiset(RemoveFirst(s, x)) == multiset(s) - multiset{x}
    ensures x in s ==> |RemoveFirst(s, x)| == |s| - 1
    ensures x !in s ==> RemoveFirst(s, x) == s
  {
    if s != [] {
      RemoveFirstCounts(s[1..], x);
      assert s == [s[0]] + s[1..];
      if s[0] != x {
        assert x in s ==> x in s[1..];
      }
    }
  }

  /** The part of the list before the removed element is kept as it was. */
  lemma {:induction false} RemoveFirstSplit<T>(s: seq<T>, x: T, i: nat)
    requires i < |s| && s[i] == x && x !in s[..i]
    ensures RemoveFirst(s, x) == s[..i] + s[i + 1..]
  {
    if i > 0 {
      assert s[0] != x by { assert s[0] == s[..i][0]; }
      assert s[1..][i - 1] == x;
      assert x !in s[1..][..i - 1] by { assert s[1..][..i - 1] == s[..i][1..]; }
      RemoveFirstSplit(s[1..], x, i - 1);
      assert s[..i] == [s[0]] + s[1..][..i - 1];
    }
  }

  /** The item messages that `Add` publishes for `xs` when the list held `before`. */
  function CreateEvents<T>(before: seq<T>, xs: seq<T>): seq<Emission<T, seq<T>>>
  {
    if xs == [] then []
    else
      var init := xs[..|xs| - 1];
      CreateEvents(before, init) + [OnItem(Message(Create, LastOrNone(before + init), Some(xs[|xs| - 1])))]
  }

  /**
   * Add publishes one Create item message per added element, in order, each naming as
   * Previous the element that was last in the list just before it was appended.
   */
  lemma {:induction false} CreateEventsAt<T>(before: seq<T>, xs: seq<T>, k: nat)
    requires k < |xs|
    ensures |CreateEvents(before, xs)| == |xs|
    ensures CreateEvents(before, xs)[k]
      == OnItem(Message(Create, if |before| + k == 0 then None else Some((before + xs)[|before| + k - 1]), Some(xs[k])))
    decreases |xs|
  {
    var init := xs[..|xs| - 1];
    if k < |xs| - 1 {
      CreateEventsAt(before, init, k);
      if |before| + k > 0 {
        assert (before + init)[|before| + k - 1] == (before + xs)[|before| + k - 1];
      }
    } else {
      if |init| > 0 { CreateEventsAt(before, init, 0); } else { assert CreateEvents(before, init) == []; }
      assert |before + init| > 0 ==> (before + init)[|before + init| - 1] == (before + xs)[|before| + k - 1];
    }
  }

  class IndexCollection<T(==)> {
    /** `_items`. */
    var items: seq<T>
    /** Everything published on the item and collection streams, oldest first. */
    var events: seq<Emission<T, seq<T>>>

    constructor ()
      ensures items == [] && events == []
    {
      items := [];
      events := [];
    }

    function Count(): (n: nat)
      reads this
      ensures n == |items|
    {
      |items|
    }

    /** The indexer's getter. */
    function At(index: int): T
      reads this
      requires 0 <= index < |items|
    {
      items[index]
    }

    /**
     * The indexer's setter: replaces one element and publishes Update with the replaced
     * element as Previous. An index outside the list throws in the source.
     */
    method Set(index: int, item: T)
      requires 0 <= index < |items|
      modifies this
      ensures items == old(items)[index := item]
      ensures events == old(events) + [
        OnItem(Message(Action.Update, Some(old(items)[index]), Some(item))),
        OnCollection(Message(Action.Update, None, Some(items)))]
    {
      var itemMessage := Message(Action.Update, Some(items[index]), Some(item));
      items := items[index := item];
      events := events + [OnItem(itemMessage), OnCollection(Message(Action.Update, None, Some(items)))];
    }

    /** Appends each element, publishing a Create item message for each and one Create collection message at the end. */
    method Add(xs: seq<T>)
      modifies this
      ensures items == old(items) + xs
      ensures events == old(events) + CreateEvents(old(items), xs) + [OnCollection(Message(Create, None, Some(items)))]
    {
      var i := 0;
      while i < |xs|
        invariant 0 <= i <= |xs|
        invariant items == old(items) + xs[..i]
        invariant events == old(events) + CreateEvents(old(items), xs[..i])
      {
        assert xs[..i + 1][..i] == xs[..i];
        var itemMessage := Message(Create, LastOrNone(items), Some(xs[i]));
        items := items + [xs[i]];
        events := events + [OnItem(itemMessage)];
        i := i + 1;
      }
      assert xs[..i] == xs;
      events := events + [OnCollection(Message(Create, None, Some(items)))];
    }

    /** Removes the first element equal to `item` and publishes Delete, also when there was none. */
    method Remove(item: T)
      modifies this
      ensures items == RemoveFirst(old(items), item)
      ensures events == old(events) + [
        OnItem(Message(Delete, Some(item), None)),
        OnCollection(Message(Delete, None, Some(items)))]
    {
      items := RemoveFirst(items, item);
      events := events + [OnItem(Message(Delete, Some(item), None)), OnCollection(Message(Delete, None, Some(items)))];
    }

    /** Publishes Update for `item` without changing the list. */
    method Update(item: T)
      modifies this
      ensures items == old(items)
      ensures events == old(events) + [
        OnItem(Message(Action.Update, None, Some(item))),
        OnCollection(Message(Action.Update, None, Some(items)))]
    {
      events := events + [OnItem(Message(Action.Update, None, Some(item))), OnCollection(Message(Action.Update, None, Some(items)))];
    }

    /** Empties the list without publishing anything. */
    method Clear()
      modifies this
      ensures items == [] && events == old(events)
    {
      items := [];
    }

    /**
     * Not a member of the source class: stands for a caller that changes the fields of a
     * stored element through its reference, which changes the list and publishes nothing.
     */
    method Mutate(index: int, item: T)
      requires 0 <= index < |items|
      modifies this
      ensures items == old(items)[index := item] && events == old(events)
    {
      items := items[index := item];
    }
  }
}
