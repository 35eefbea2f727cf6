/**
 * The bracket hierarchy of orders: every order lists its legs (`Orders`), which are
 * orders again. Cancelling an order cancels its legs recursively
 * (Gateway/Simulation/GatewayClient.cs:266-281), which ends only because the hierarchy
 * has no cycle; a ranking that decreases from an order to each leg witnesses that.
 */
module OrderTrees {
  import opened Wrappers
  import opened IndexCollections
  import opened Transactions

  /** The legs of every order of an arena. */
  function Links(orders: map<OrderRef, Order>): (links: map<OrderRef, seq<OrderRef>>)
    ensures links.Keys == orders.Keys
    ensures forall r :: r in links ==> links[r] == orders[r].children
  {
    map r | r in orders :: orders[r].children
  }

  /** Two arenas with the same orders and the same legs have the same hierarchy. */
  lemma LinksFrame(o1: map<OrderRef, Order>, o2: map<OrderRef, Order>)
    requires o1.Keys == o2.Keys
    requires forall r :: r in o1 ==> o1[r].children == o2[r].children
    ensures Links(o1) == Links(o2)
  {
  }

  /**
   * The simulated exchange only fills, places and cancels orders: their legs, instrument,
   * identity, type, size and parent stay as they were.
   */
  predicate KeepsTerms(o1: map<OrderRef, Order>, o2: map<OrderRef, Order>)
  {
    && o1.Keys == o2.Keys
    && forall x :: x in o1 ==>
      && o2[x].children == o1[x].children && o2[x].instrument == o1[x].instrument
      && o2[x].orderType == o1[x].orderType && o2[x].size == o1[x].size
      && o2[x].container == o1[x].container && o2[x].id == o1[x].id
  }

  lemma KeepsTermsLinks(o1: map<OrderRef, Order>, o2: map<OrderRef, Order>)
    requires KeepsTerms(o1, o2)
    ensures Links(o1) == Links(o2)
  {
    LinksFrame(o1, o2);
  }

  /** Every leg is an order of the arena and ranks strictly below its parent. */
  predicate Ranked(links: map<OrderRef, seq<OrderRef>>, rank: map<OrderRef, nat>)
  {
    forall r :: r in links ==>
      && r in rank
      && forall i :: 0 <= i < |links[r]| ==> links[r][i] in links && links[r][i] in rank && rank[links[r][i]] < rank[r]
  }

  predicate AllIn(links: map<OrderRef, seq<OrderRef>>, xs: seq<OrderRef>)
  {
    forall i :: 0 <= i < |xs| ==> xs[i] in links
  }

  /** A new order whose legs rank below `h` extends a ranked hierarchy, ranked `h`. */
  lemma RankedAdd(links: map<OrderRef, seq<OrderRef>>, rank: map<OrderRef, nat>, r: OrderRef, cs: seq<OrderRef>, h: nat)
    requires Ranked(links, rank) && r !in links
    requires forall c :: c in cs ==> c in links && c in rank && rank[c] < h
    ensures Ranked(links[r := cs], rank[r := h])
  {
    var links', rank' := links[r := cs], rank[r := h];
    forall x | x in links'
      ensures x in rank' && forall i :: 0 <= i < |links'[x]| ==> links'[x][i] in links' && links'[x][i] in rank' && rank'[links'[x][i]] < rank'[x]
    {
      if x != r {
        forall i | 0 <= i < |links'[x]|
          ensures links'[x][i] != r && rank'[links'[x][i]] == rank[links'[x][i]]
        {
          assert links[x][i] in links;
        }
      }
    }
  }

  /** A list within a hierarchy stays within a larger one. */
  lemma AllInGrow(links: map<OrderRef, seq<OrderRef>>, links': map<OrderRef, seq<OrderRef>>, xs: seq<OrderRef>)
    requires AllIn(links, xs) && links.Keys <= links'.Keys
    ensures AllIn(links', xs)
  {
  }

  /** The number of orders in the hierarchy below and including `r`, shared legs counted once per path. */
  function Weight(links: map<OrderRef, seq<OrderRef>>, rank: map<OrderRef, nat>, r: OrderRef): (w: nat)
    requires Ranked(links, rank) && r in links
    ensures w >= 1
    decreases rank[r], 1, 0
  {
    1 + WeightBelow(links, rank, links[r], rank[r])
  }

  function WeightBelow(links: map<OrderRef, seq<OrderRef>>, rank: map<OrderRef, nat>, xs: seq<OrderRef>, bound: nat): nat
    requires Ranked(links, rank)
    requires forall i :: 0 <= i < |xs| ==> xs[i] in links && rank[xs[i]] < bound
    decreases bound, 0, |xs|
  {
    if xs == [] then 0 else Weight(links, rank, xs[0]) + WeightBelow(links, rank, xs[1..], bound)
  }

  /** The weight of a list of orders: the sum of their weights. */
  function TotalWeight(links: map<OrderRef, seq<OrderRef>>, rank: map<OrderRef, nat>, xs: seq<OrderRef>): nat
    requires Ranked(links, rank) && AllIn(links, xs)
  {
    if xs == [] then 0 else Weight(links, rank, xs[0]) + TotalWeight(links, rank, xs[1..])
  }

  lemma {:induction false} BelowIsTotal(links: map<OrderRef, seq<OrderRef>>, rank: map<OrderRef, nat>, xs: seq<OrderRef>, bound: nat)
    requires Ranked(links, rank)
    requires forall i :: 0 <= i < |xs| ==> xs[i] in links && rank[xs[i]] < bound
    ensures WeightBelow(links, rank, xs, bound) == TotalWeight(links, rank, xs)
    decreases |xs|
  {
    if xs != [] {
      BelowIsTotal(links, rank, xs[1..], bound);
    }
  }

  /** An order weighs one more than its legs together. */
  lemma WeightOfLegs(links: map<OrderRef, seq<OrderRef>>, rank: map<OrderRef, nat>, r: OrderRef)
    requires Ranked(links, rank) && r in links
    ensures AllIn(links, links[r])
    ensures Weight(links, rank, r) == 1 + TotalWeight(links, rank, links[r])
  {
    BelowIsTotal(links, rank, links[r], rank[r]);
  }

  lemma {:induction false} TotalWeightAppend(links: map<OrderRef, seq<OrderRef>>, rank: map<OrderRef, nat>, xs: seq<OrderRef>, ys: seq<OrderRef>)
    requires Ranked(links, rank) && AllIn(links, xs) && AllIn(links, ys)
    ensures AllIn(links, xs + ys)
    ensures TotalWeight(links, rank, xs + ys) == TotalWeight(links, rank, xs) + TotalWeight(links, rank, ys)
    decreases |xs|
  {
    if xs != [] {
      TotalWeightAppend(links, rank, xs[1..], ys);
      assert (xs + ys)[0] == xs[0];
      assert (xs + ys)[1..] == xs[1..] + ys;
    } else {
      assert xs + ys == ys;
    }
  }

  /** A listed order weighs no more than the whole list. */
  lemma {:induction false} WeightInList(links: map<OrderRef, seq<OrderRef>>, rank: map<OrderRef, nat>, xs: seq<OrderRef>, i: nat)
    requires Ranked(links, rank) && AllIn(links, xs) && i < |xs|
    ensures Weight(links, rank, xs[i]) <= TotalWeight(links, rank, xs)
    decreases i
  {
    if i > 0 {
      WeightInList(links, rank, xs[1..], i - 1);
    }
  }

  /** Removing one occurrence of a listed order takes away exactly its weight. */
  lemma {:induction false} TotalWeightRemove(links: map<OrderRef, seq<OrderRef>>, rank: map<OrderRef, nat>, xs: seq<OrderRef>, x: OrderRef)
    requires Ranked(links, rank) && AllIn(links, xs)
    ensures AllIn(links, RemoveFirst(xs, x))
    ensures x in xs ==> TotalWeight(links, rank, RemoveFirst(xs, x)) + Weight(links, rank, x) == TotalWeight(links, rank, xs)
    ensures x !in xs ==> TotalWeight(links, rank, RemoveFirst(xs, x)) == TotalWeight(links, rank, xs)
    decreases |xs|
  {
    if xs != [] && xs[0] != x {
      TotalWeightRemove(links, rank, xs[1..], x);
      assert RemoveFirst(xs, x) == [xs[0]] + RemoveFirst(xs[1..], x);
      assert x in xs ==> x in xs[1..];
    }
  }

  /** `RemoveFirst` applied for each element of `ps` in turn. */
  function RemoveAll<T(==)>(xs: seq<T>, ps: seq<T>): seq<T>
    decreases |ps|
  {
    if ps == [] then xs else RemoveAll(RemoveFirst(xs, ps[0]), ps[1..])
  }

  lemma {:induction false} RemoveAllAppend<T>(xs: seq<T>, ps: seq<T>, qs: seq<T>)
    ensures RemoveAll(xs, ps + qs) == RemoveAll(RemoveAll(xs, ps), qs)
    decreases |ps|
  {
    if ps != [] {
      assert (ps + qs)[0] == ps[0];
      assert (ps + qs)[1..] == ps[1..] + qs;
      RemoveAllAppend(RemoveFirst(xs, ps[0]), ps[1..], qs);
    } else {
      assert ps + qs == qs;
    }
  }

  lemma RemoveFirstMultiset<T>(xs: seq<T>, x: T)
    ensures multiset(RemoveFirst(xs, x)) == multiset(xs) - multiset{x}
  {
    RemoveFirstCounts(xs, x);
  }

  lemma DifferenceTwice<T>(a: multiset<T>, b: multiset<T>, c: multiset<T>)
    ensures a - b - c == a - (b + c)
  {
    forall z
      ensures (a - b - c)[z] == (a - (b + c))[z]
    {
    }
  }

  /** Removing each of `ps` once takes their multiset away, never going below zero copies. */
  lemma {:induction false} RemoveAllMultiset<T>(xs: seq<T>, ps: seq<T>)
    ensures multiset(RemoveAll(xs, ps)) == multiset(xs) - multiset(ps)
    decreases |ps|
  {
    if ps != [] {
      RemoveFirstMultiset(xs, ps[0]);
      RemoveAllMultiset(RemoveFirst(xs, ps[0]), ps[1..]);
      assert ps == [ps[0]] + ps[1..];
      assert multiset(ps) == multiset{ps[0]} + multiset(ps[1..]);
      DifferenceTwice(multiset(xs), multiset{ps[0]}, multiset(ps[1..]));
    }
  }

  /** Removing elements never lists anything new and never adds weight. */
  lemma {:induction false} RemoveAllWeight(links: map<OrderRef, seq<OrderRef>>, rank: map<OrderRef, nat>, xs: seq<OrderRef>, ps: seq<OrderRef>)
    requires Ranked(links, rank) && AllIn(links, xs)
    ensures AllIn(links, RemoveAll(xs, ps))
    ensures TotalWeight(links, rank, RemoveAll(xs, ps)) <= TotalWeight(links, rank, xs)
    decreases |ps|
  {
    if ps != [] {
      TotalWeightRemove(links, rank, xs, ps[0]);
      RemoveAllWeight(links, rank, RemoveFirst(xs, ps[0]), ps[1..]);
    }
  }

  /** The orders CancelOrders visits, in visiting order: each order, then its legs' subtrees. */
  function Preorder(links: map<OrderRef, seq<OrderRef>>, rank: map<OrderRef, nat>, refs: seq<OrderRef>): (p: seq<OrderRef>)
    requires Ranked(links, rank) && AllIn(links, refs)
    ensures AllIn(links, p)
    decreases TotalWeight(links, rank, refs)
  {
    if refs == [] then []
    else
      WeightOfLegs(links, rank, refs[0]);
      [refs[0]] + Preorder(links, rank, links[refs[0]]) + Preorder(links, rank, refs[1..])
  }

  /**
   * The visit reaches every order of the subtrees of `refs` and nothing else: it lists
   * each of `refs`, the legs of everything it lists, and only orders that are one of
   * `refs` or a leg of something it lists.
   */
  lemma {:induction false} PreorderClosed(links: map<OrderRef, seq<OrderRef>>, rank: map<OrderRef, nat>, refs: seq<OrderRef>)
    requires Ranked(links, rank) && AllIn(links, refs)
    ensures forall i :: 0 <= i < |refs| ==> refs[i] in Preorder(links, rank, refs)
    ensures forall x, c :: x in Preorder(links, rank, refs) && c in links[x] ==> c in Preorder(links, rank, refs)
    ensures forall x :: x in Preorder(links, rank, refs) ==>
      x in refs || exists y :: y in Preorder(links, rank, refs) && x in links[y]
    decreases TotalWeight(links, rank, refs)
  {
    if refs != [] {
      WeightOfLegs(links, rank, refs[0]);
      var legs := links[refs[0]];
      PreorderClosed(links, rank, legs);
      PreorderClosed(links, rank, refs[1..]);
      var p := Preorder(links, rank, refs);
      assert p == [refs[0]] + Preorder(links, rank, legs) + Preorder(links, rank, refs[1..]);
      forall i | 0 <= i < |refs|
        ensures refs[i] in p
      {
        if i > 0 { assert refs[i] == refs[1..][i - 1]; }
      }
      forall x | x in p
        ensures x in refs || exists y :: y in p && x in links[y]
      {
        if x in Preorder(links, rank, legs) {
          if x in legs {
            assert refs[0] in p && x in links[refs[0]];
          } else {
            var y :| y in Preorder(links, rank, legs) && x in links[y];
            assert y in p;
          }
        } else if x in Preorder(links, rank, refs[1..]) {
          if x in refs[1..] {
            assert x in refs;
          } else {
            var y :| y in Preorder(links, rank, refs[1..]) && x in links[y];
            assert y in p;
          }
        }
      }
    }
  }

  /** The arena with every order of `visited` marked Cancelled. */
  function MarkCancelled(orders: map<OrderRef, Order>, visited: seq<OrderRef>): (r: map<OrderRef, Order>)
    ensures KeepsTerms(orders, r)
  {
    map x | x in orders :: if x in visited then orders[x].(status := Some(Cancelled)) else orders[x]
  }

  /** Marking in two rounds marks the union; marking twice is marking once. */
  lemma MarkCancelledTwice(orders: map<OrderRef, Order>, p: seq<OrderRef>, q: seq<OrderRef>)
    ensures MarkCancelled(MarkCancelled(orders, p), q) == MarkCancelled(orders, p + q)
  {
    var m1 := MarkCancelled(MarkCancelled(orders, p), q);
    var m2 := MarkCancelled(orders, p + q);
    forall x | x in orders
      ensures m1[x] == m2[x]
    {
    }
  }
}
