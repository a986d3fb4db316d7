/**
 * The two open lists the path searches of app/navigation.py use, `PriorityQueue`
 * and `Stack` from the `utils` module. That module is not part of this model;
 * the queue is modelled with the behaviour of the well-known `utils.py` these
 * names come from: `update` leaves an entry whose priority is already at most
 * the new one alone, lowers the priority of an entry in place otherwise (it
 * keeps its insertion counter), and pushes a new entry when the item is absent;
 * `pop` removes the entry with the least (priority, insertion counter). The
 * queue is kept as its entries in insertion order, so the counter is the
 * position. A stack is a sequence whose end is its top.
 */
module OpenLists {
  import opened Basics

  /** The items of a queue, in insertion order. */
  function Entries<T>(q: seq<(T, int)>): (items: seq<T>)
    ensures |items| == |q|
    ensures forall i :: 0 <= i < |q| ==> items[i] == q[i].0
  {
    if q == [] then [] else [q[0].0] + Entries(q[1..])
  }

  /** `PriorityQueue.update(item, prio)`. */
  function Update<T(==,!new)>(q: seq<(T, int)>, item: T, prio: int): (r: seq<(T, int)>)
    ensures forall x :: x in Entries(r) <==> x in Entries(q) || x == item
    ensures item !in Entries(q) ==> r == q + [(item, prio)]
    ensures item in Entries(q) ==> |r| == |q|
  {
    if q == [] then [(item, prio)]
    else if q[0].0 == item then (if q[0].1 <= prio then q else [(item, prio)] + q[1..])
    else [q[0]] + Update(q[1..], item, prio)
  }

  /** The priority of an item's entry; `None` when the item is not in the queue. */
  function PriorityOf<T(==)>(q: seq<(T, int)>, x: T): (p: Option<int>)
    ensures p.Some? <==> x in Entries(q)
  {
    if q == [] then None
    else if q[0].0 == x then Some(q[0].1)
    else PriorityOf(q[1..], x)
  }

  /** The priority `update` leaves on an item that had priority `was` (if it was queued) and was updated with `prio`. */
  function Lower(was: Option<int>, prio: int): (p: int)
    ensures p <= prio && (was.Some? ==> p <= was.value)
    ensures p == prio || (was.Some? && p == was.value)
  {
    if was.Some? && was.value <= prio then was.value else prio
  }

  /**
   * An update gives the updated item the smaller of its old priority and the
   * new one (the new one when it was absent) and leaves every other item's
   * priority as it was.
   */
  lemma {:induction false} UpdatePriorityOf<T(!new)>(q: seq<(T, int)>, item: T, prio: int, x: T)
    ensures PriorityOf(Update(q, item, prio), x)
         == if x == item then Some(Lower(PriorityOf(q, item), prio)) else PriorityOf(q, x)
  {
    if q != [] {
      if q[0].0 == item {
        assert ([(item, prio)] + q[1..])[1..] == q[1..];
      } else {
        UpdatePriorityOf(q[1..], item, prio, x);
        assert ([q[0]] + Update(q[1..], item, prio))[1..] == Update(q[1..], item, prio);
      }
    }
  }

  /**
   * After an update the item's entry carries the smaller of its old priority
   * and the new one, and every other entry keeps its priority.
   */
  lemma {:induction false} UpdatePriority<T(!new)>(q: seq<(T, int)>, item: T, prio: int, j: int)
    requires NoDuplicates(Entries(q))
    requires 0 <= j < |q| && q[j].0 == item
    ensures |Update(q, item, prio)| == |q|
    ensures Update(q, item, prio)[j] == (item, if q[j].1 <= prio then q[j].1 else prio)
    ensures forall i :: 0 <= i < |q| && i != j ==> Update(q, item, prio)[i] == q[i]
  {
    assert Entries(q)[j] == item;
    if q[0].0 != item {
      assert j > 0;
      assert Entries(q[1..]) == Entries(q)[1..];
      UpdatePriority(q[1..], item, prio, j - 1);
    } else {
      assert Entries(q)[0] == item;
    }
  }

  /** An update never introduces a second entry for an item. */
  lemma {:induction false} UpdateKeepsNoDuplicates<T(!new)>(q: seq<(T, int)>, item: T, prio: int)
    requires NoDuplicates(Entries(q))
    ensures NoDuplicates(Entries(Update(q, item, prio)))
  {
    if q != [] {
      var tail := Entries(q[1..]);
      assert Entries(q) == [q[0].0] + tail;
      NoDuplicatesTail(q[0].0, tail);
      if q[0].0 == item {
        assert Entries(Update(q, item, prio)) == Entries(q);
      } else {
        UpdateKeepsNoDuplicates(q[1..], item, prio);
        NoDuplicatesCons(q[0].0, Entries(Update(q[1..], item, prio)));
      }
    }
  }

  lemma NoDuplicatesTail<T>(x: T, s: seq<T>)
    requires NoDuplicates([x] + s)
    ensures NoDuplicates(s) && x !in s
  {
    var t := [x] + s;
    forall i, j | 0 <= i < j < |s|
      ensures s[i] != s[j]
    {
      assert s[i] == t[i + 1] && s[j] == t[j + 1];
    }
    forall i | 0 <= i < |s|
      ensures s[i] != x
    {
      assert s[i] == t[i + 1] && x == t[0];
    }
  }

  lemma NoDuplicatesCons<T>(x: T, s: seq<T>)
    requires NoDuplicates(s) && x !in s
    ensures NoDuplicates([x] + s)
  {
    var t := [x] + s;
    forall i, j | 0 <= i < j < |t|
      ensures t[i] != t[j]
    {
      assert t[j] == s[j - 1];
      if i > 0 {
        assert t[i] == s[i - 1];
      }
    }
  }

  /** The position `pop` takes from: the first entry of least priority. */
  function PopIndex<T>(q: seq<(T, int)>): (i: nat)
    requires q != []
    ensures i < |q|
    ensures forall j :: 0 <= j < |q| ==> q[i].1 <= q[j].1
    ensures forall j :: 0 <= j < i ==> q[j].1 > q[i].1
  {
    if |q| == 1 then 0
    else
      var k := PopIndex(q[1..]) + 1;
      if q[0].1 <= q[k].1 then 0 else k
  }

  /** Updating a queue whose entries all have priority p with priority p leaves every priority at p. */
  lemma {:induction false} UpdateKeepsEqualPriorities<T(!new)>(q: seq<(T, int)>, item: T, p: int)
    requires forall j :: 0 <= j < |q| ==> q[j].1 == p
    ensures forall j :: 0 <= j < |Update(q, item, p)| ==> Update(q, item, p)[j].1 == p
  {
    if q != [] && q[0].0 != item {
      UpdateKeepsEqualPriorities(q[1..], item, p);
    }
  }

  /** With every priority equal (breadth-first search pushes 0 each time) the queue pops first-in, first-out. */
  lemma EqualPrioritiesPopFirst<T>(q: seq<(T, int)>, p: int)
    requires q != []
    requires forall j :: 0 <= j < |q| ==> q[j].1 == p
    ensures PopIndex(q) == 0
  {
  }

  function RemoveAt<T>(q: seq<T>, i: nat): (r: seq<T>)
    requires i < |q|
    ensures |r| == |q| - 1
    ensures forall j :: 0 <= j < i ==> r[j] == q[j]
    ensures forall j :: i < j < |q| ==> r[j - 1] == q[j]
  {
    q[..i] + q[i + 1..]
  }

  /** Removing an entry removes its item from the items, at the same position. */
  lemma EntriesRemoveAt<T>(q: seq<(T, int)>, i: nat)
    requires i < |q|
    ensures Entries(RemoveAt(q, i)) == RemoveAt(Entries(q), i)
  {
    var rest := RemoveAt(q, i);
    var l, r := Entries(rest), RemoveAt(Entries(q), i);
    forall j | 0 <= j < |l|
      ensures l[j] == r[j]
    {
      var k := if j < i then j else j + 1;
      assert rest[j] == q[k] && r[j] == Entries(q)[k];
    }
  }

  lemma RemoveKeepsEqualPriorities<T>(q: seq<(T, int)>, i: nat, p: int)
    requires i < |q| && forall j :: 0 <= j < |q| ==> q[j].1 == p
    ensures forall j :: 0 <= j < |RemoveAt(q, i)| ==> RemoveAt(q, i)[j].1 == p
  {
  }

  /** Removing one entry keeps every item of another entry. */
  lemma RemoveKeepsOthers<T>(q: seq<(T, int)>, i: nat, x: T)
    requires i < |q| && x in Entries(q) && x != q[i].0
    ensures x in Entries(RemoveAt(q, i))
  {
    EntriesRemoveAt(q, i);
    var e := Entries(q);
    var j :| 0 <= j < |e| && e[j] == x;
    if j < i {
      assert RemoveAt(e, i)[j] == x;
    } else {
      assert RemoveAt(e, i)[j - 1] == x;
    }
  }

  /** Removing an entry from a queue without duplicates leaves no entry for its item. */
  lemma RemoveKeepsNoDuplicates<T>(q: seq<(T, int)>, i: nat)
    requires i < |q| && NoDuplicates(Entries(q))
    ensures NoDuplicates(Entries(RemoveAt(q, i)))
    ensures q[i].0 !in Entries(RemoveAt(q, i))
  {
    EntriesRemoveAt(q, i);
    RemoveAtNoDuplicates(Entries(q), i);
  }

  lemma RemoveAtNoDuplicates<T>(e: seq<T>, i: nat)
    requires i < |e| && NoDuplicates(e)
    ensures NoDuplicates(RemoveAt(e, i))
    ensures e[i] !in RemoveAt(e, i)
  {
    var r := e[..i] + e[i + 1..];
    assert r == RemoveAt(e, i);
    forall a, b | 0 <= a < b < |r|
      ensures r[a] != r[b]
    {
      var a', b' := if a < i then a else a + 1, if b < i then b else b + 1;
      assert r[a] == e[a'] && r[b] == e[b'];
    }
    forall a | 0 <= a < |r|
      ensures r[a] != e[i]
    {
      var a' := if a < i then a else a + 1;
      assert r[a] == e[a'];
    }
  }
}
