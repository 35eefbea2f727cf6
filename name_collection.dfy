/**
 * NameCollection (Core/Collections/NameCollection.cs): a dictionary that publishes every
 * change on an item stream and a dictionary stream.
 */
module NameCollections {
  import opened Wrappers
  import opened Events
  import opened IndexCollections

  predicate Distinct<K(==)>(s: seq<K>)
  {
    forall i, j :: 0 <= i < j < |s| ==> s[i] != s[j]
  }

  /** Taking a key out of a list of distinct keys leaves exactly the other keys, still distinct. */
  lemma {:induction false} RemoveFirstDistinct<K>(s: seq<K>, x: K)
    requires Distinct(s)
    ensures Distinct(RemoveFirst(s, x))
    ensures forall y :: y in RemoveFirst(s, x) <==> y in s && y != x
  {
    if s != [] {
      assert Distinct(s[1..]) by {
        forall i, j | 0 <= i < j < |s[1..]| ensures s[1..][i] != s[1..][j] { assert s[1..][i] == s[i + 1]; }
      }
      if s[0] == x {
        assert forall y :: y in s[1..] ==> y != x by {
          forall y | y in s[1..] ensures y != x {
            var j :| 0 <= j < |s[1..]| && s[1..][j] == y;
            assert s[j + 1] == y;
          }
        }
        assert s == [s[0]] + s[1..];
      } else {
        RemoveFirstDistinct(s[1..], x);
        var r := RemoveFirst(s[1..], x);
        assert s[0] !in s[1..] by {
          forall j | 0 <= j < |s[1..]| ensures s[1..][j] != s[0] { assert s[1..][j] == s[j + 1]; }
        }
        assert s == [s[0]] + s[1..];
        assert RemoveFirst(s, x) == [s[0]] + r;
        forall i, j | 0 <= i < j < |[s[0]] + r| ensures ([s[0]] + r)[i] != ([s[0]] + r)[j] {
          if i == 0 { assert ([s[0]] + r)[j] == r[j - 1]; assert r[j - 1] in r; }
          else { assert ([s[0]] + r)[i] == r[i - 1] && ([s[0]] + r)[j] == r[j - 1]; }
        }
      }
    }
  }

  /**
   * `keys` is the enumeration order of the dictionary: insertion order, with removed keys
   * taken out. `nameOf` is how `Add(TValue)` finds the key of a value (its `Name`).
   */
  class NameCollection<K(==,!new), V(==)> {
    var keys: seq<K>
    var items: map<K, V>
    /** Everything published on the item and dictionary streams, oldest first. */
    var events: seq<Emission<V, map<K, V>>>
    const nameOf: V -> K

    ghost predicate Valid()
      reads this
    {
      Distinct(keys) && (forall k :: k in items <==> k in keys)
    }

    constructor (nameOf: V -> K)
      ensures Valid() && keys == [] && items == map[] && events == [] && this.nameOf == nameOf
    {
      keys := [];
      items := map[];
      events := [];
      this.nameOf := nameOf;
    }

    /** The value of the last pair in enumeration order, null for an empty dictionary. */
    function LastValue(): (r: Option<V>)
      reads this
      requires Valid()
      ensures r.Some? <==> |items| > 0
    {
      if |keys| == 0 then
        assert items.Keys == {};
        None
      else Some(items[keys[|keys| - 1]])
    }

    /** The indexer's getter: the stored value, or null (`default`) for a missing key. */
    function Get(key: K): (r: Option<V>)
      reads this
      ensures r.Some? <==> key in items
      ensures r.Some? ==> r.value == items[key]
    {
      if key in items then Some(items[key]) else None
    }

    /**
     * `Add(index, dataItem, action)`: stores the value under the key and publishes `action`,
     * naming as Previous the last value in enumeration order before the write, and then the
     * dictionary as it is after the write.
     */
    method Put(key: K, value: V, action: Action)
      requires Valid()
      modifies this
      ensures Valid()
      ensures items == old(items)[key := value]
      ensures keys == if key in old(items) then old(keys) else old(keys) + [key]
      ensures events == old(events) + [
        OnItem(Message(action, old(LastValue()), Some(value))),
        OnCollection(Message(action, None, Some(items)))]
    {
      var itemMessage := Message(action, LastValue(), Some(value));
      if key !in items {
        keys := keys + [key];
      }
      items := items[key := value];
      events := events + [OnItem(itemMessage), OnCollection(Message(action, None, Some(items)))];
    }

    /** `Add(index, dataItem)` and `Add(KeyValuePair)`: a Create write. */
    method Add(key: K, value: V)
      requires Valid()
      modifies this
      ensures Valid()
      ensures items == old(items)[key := value]
      ensures keys == if key in old(items) then old(keys) else old(keys) + [key]
      ensures events == old(events) + [
        OnItem(Message(Create, old(LastValue()), Some(value))),
        OnCollection(Message(Create, None, Some(items)))]
    {
      Put(key, value, Create);
    }

    /** `Add(dataItem)`: a Create write under the value's own name. */
    method AddNamed(value: V)
      requires Valid()
      modifies this
      ensures Valid()
      ensures items == old(items)[nameOf(value) := value]
      ensures events == old(events) + [
        OnItem(Message(Create, old(LastValue()), Some(value))),
        OnCollection(Message(Create, None, Some(items)))]
    {
      Put(nameOf(value), value, Create);
    }

    /** The indexer's setter: an Update write. */
    method Set(key: K, value: V)
      requires Valid()
      modifies this
      ensures Valid()
      ensures items == old(items)[key := value]
      ensures events == old(events) + [
        OnItem(Message(Action.Update, old(LastValue()), Some(value))),
        OnCollection(Message(Action.Update, None, Some(items)))]
    {
      Put(key, value, Action.Update);
    }

    /** Empties the dictionary and publishes Clear messages with no values. */
    method Clear()
      requires Valid()
      modifies this
      ensures Valid() && items == map[] && keys == []
      ensures events == old(events) + [OnItem(Message(Action.Clear, None, None)), OnCollection(Message(Action.Clear, None, None))]
    {
      keys := [];
      items := map[];
      events := events + [OnItem(Message(Action.Clear, None, None)), OnCollection(Message(Action.Clear, None, None))];
    }

    /**
     * Removes a present key, publishing Delete with the removed value as Previous and then
     * the dictionary without it; a missing key changes nothing, publishes nothing and gives false.
     */
    method Remove(key: K) returns (response: bool)
      requires Valid()
      modifies this
      ensures Valid()
      ensures response <==> key in old(items)
      ensures items == old(items) - {key}
      ensures forall k :: k in keys <==> k in old(keys) && k != key
      ensures !response ==> keys == old(keys) && events == old(events)
      ensures response ==> events == old(events) + [
        OnItem(Message(Delete, Some(old(items)[key]), None)),
        OnCollection(Message(Delete, None, Some(items)))]
    {
      if key !in items {
        return false;
      }
      var itemMessage := Message(Delete, Some(items[key]), None);
      RemoveFirstDistinct(keys, key);
      keys := RemoveFirst(keys, key);
      items := items - {key};
      events := events + [OnItem(itemMessage), OnCollection(Message(Delete, None, Some(items)))];
      return true;
    }
  }
}
