/**
  The circular doubly linked priority queue of `src/lib/include/queue.h`, at the
  level of its `prev` and `next` pointers. The ghost sequence `ring` lists the
  nodes from the head back to the head; `Linked` says that the pointers spell it
  out in both directions, and every operation is specified on `Elems()`, the
  elements between the two occurrences of the head.
  */
module LinkQueue {
  import opened PriorityOrder

  class Link {
    var prev: Link?
    var next: Link?
    var prio: int

    constructor (prio: int)
      ensures prev == null && next == null && this.prio == prio
    {
      this.prio := prio;
      prev, next := null, null;
    }
  }

  ghost function PriosOf(s: seq<Link>): (ps: seq<int>)
    reads set l | l in s
    ensures |ps| == |s| && forall i :: 0 <= i < |s| ==> ps[i] == s[i].prio
  {
    seq(|s|, i requires 0 <= i < |s| reads set l | l in s => s[i].prio)
  }

  lemma PriosInsert(s: seq<Link>, ps: seq<int>, k: nat, e: Link)
    requires ps == PriosOf(s) && k <= |s|
    ensures PriosOf(InsertAt(s, k, e)) == InsertAt(ps, k, e.prio)
  {}

  lemma InnerInsert<T>(r: seq<T>, k: nat, x: T)
    requires k + 2 <= |r|
    ensures InsertAt(r, k + 1, x)[1..|r|] == InsertAt(r[1..|r| - 1], k, x)
  {}

  lemma InnerRemove<T>(r: seq<T>, k: nat)
    requires 0 < k < |r| - 1
    ensures RemoveAt(r, k)[1..|r| - 2] == RemoveAt(r[1..|r| - 1], k - 1)
  {}

  class Queue {
    const head: Link
    ghost var ring: seq<Link>
    ghost var nodes: set<Link>

    ghost predicate Shape()
      reads this
    {
      && |ring| >= 2 && ring[0] == head && ring[|ring| - 1] == head
      && (forall i :: 0 <= i < |ring| ==> ring[i] in nodes)
      && (forall i, j :: 0 <= i < j < |ring| - 1 ==> ring[i] != ring[j])
    }

    /** `next` and `prev` are mutual inverses along the ring. */
    ghost predicate Linked()
      reads this, nodes
    {
      && Shape()
      && (forall i, j :: 0 <= i < j == i + 1 < |ring| ==> ring[i].next == ring[j])
      && (forall i, j :: 0 <= i < j == i + 1 < |ring| ==> ring[j].prev == ring[i])
    }

    ghost function Elems(): seq<Link>
      requires Shape()
      reads this
    {
      ring[1..|ring| - 1]
    }

    ghost predicate Valid()
      reads this, nodes
    {
      Linked() && Ascending(PriosOf(Elems()))
    }

    /** `INIT_LIST_HEAD`. */
    constructor ()
      ensures Valid() && Elems() == [] && fresh(nodes)
    {
      var h := new Link(0);
      h.prev, h.next := h, h;
      head := h;
      ring := [h, h];
      nodes := {h};
    }

    /** `queue_empty`. */
    method IsEmpty() returns (r: bool)
      requires Linked()
      ensures r <==> Elems() == []
    {
      assert ring[0].next == ring[1];
      r := head.next == head;
    }

    /** `queue_top`. */
    method Top() returns (r: Link?)
      requires Linked()
      ensures r == if Elems() == [] then null else Elems()[|Elems()| - 1]
    {
      var none := IsEmpty();
      assert ring[|ring| - 1].prev == ring[|ring| - 2];
      r := if none then null else head.prev;
    }

    /** `queue_bottom`. */
    method Bottom() returns (r: Link?)
      requires Linked()
      ensures r == if Elems() == [] then null else Elems()[0]
    {
      var none := IsEmpty();
      assert ring[0].next == ring[1];
      r := if none then null else head.next;
    }

    /** The walk of `queue_add`. */
    method FindPosition(p: int) returns (cur: Link, ghost k: nat)
      requires Linked()
      ensures k == Rank(PriosOf(Elems()), p) && cur == ring[k + 1]
    {
      assert ring[0].next == ring[1];
      cur, k := head.next, 0;
      while cur != head && cur.prio < p
        invariant 0 <= k <= |ring| - 2 && cur == ring[k + 1]
        invariant forall i :: 0 <= i < k ==> Elems()[i].prio < p
        decreases |ring| - k
      {
        assert ring[k + 1].next == ring[k + 2];
        cur, k := cur.next, k + 1;
      }
      RankUnique(PriosOf(Elems()), p, k);
    }

    /** A node whose links are null is in no ring. */
    lemma Unlinked(e: Link)
      requires Linked() && e.next == null
      ensures e !in ring
    {
      forall i | 0 <= i < |ring| - 1 ensures ring[i] != e {
        assert ring[i].next == ring[i + 1];
      }
    }

    /** `queue_add`. Its link assertion is the precondition. */
    method Add(e: Link)
      requires Valid()
      requires e.prev == null && e.next == null
      modifies this`ring, this`nodes, nodes`prev, nodes`next, e`prev, e`next
      ensures Valid() && nodes == old(nodes) + {e}
      ensures Elems() == InsertAt(old(Elems()), Rank(PriosOf(old(Elems())), e.prio), e)
    {
      Unlinked(e);
      ghost var before, ps := Elems(), PriosOf(Elems());
      var cur, k := FindPosition(e.prio);
      InnerInsert(ring, k, e);
      LinkBefore(e, cur, k);
      assert Elems() == InsertAt(before, k, e);
      PriosInsert(before, ps, k, e);
      InsertAscending(ps, e.prio);
    }

    /** The four pointer writes of `queue_add`. */
    method LinkBefore(e: Link, cur: Link, ghost k: nat)
      requires Linked() && k + 1 < |ring| && cur == ring[k + 1] && e !in ring
      modifies this`ring, this`nodes, nodes`prev, nodes`next, e`prev, e`next
      ensures Linked() && nodes == old(nodes) + {e}
      ensures ring == InsertAt(old(ring), k + 1, e)
    {
      assert ring[k].next == ring[k + 1] && ring[k + 1].prev == ring[k];
      e.next := cur;
      e.prev := cur.prev;
      cur.prev.next := e;
      cur.prev := e;
      ring := InsertAt(ring, k + 1, e);
      nodes := nodes + {e};
    }

    /** The pointer writes shared by `queue_out` and `queue_del`. */
    method Unlink(e: Link, ghost k: nat)
      requires Linked() && 0 < k < |ring| - 1 && ring[k] == e
      modifies this`ring, this`nodes, nodes`prev, nodes`next
      ensures Linked() && ring == RemoveAt(old(ring), k) && nodes == old(nodes) - {e}
      ensures e.prev == null && e.next == null
    {
      assert ring[k].next == ring[k + 1] && ring[k].prev == ring[k - 1];
      e.prev.next := e.next;
      e.next.prev := e.prev;
      e.next := null;
      e.prev := null;
      ring := RemoveAt(ring, k);
      nodes := nodes - {e};
    }

    /** `queue_out`: unlinks the last element, if there is one. */
    method Out() returns (r: Link?)
      requires Valid()
      modifies this`ring, this`nodes, nodes`prev, nodes`next
      ensures Valid()
      ensures old(Elems()) == [] ==> r == null && Elems() == [] && nodes == old(nodes)
      ensures old(Elems()) != [] ==>
                && r == old(Elems())[|old(Elems())| - 1]
                && Elems() == old(Elems())[..|old(Elems())| - 1]
                && r.prev == null && r.next == null && nodes == old(nodes) - {r}
                && (forall x :: x in Elems() ==> x.prio <= r.prio)
    {
      r := Top();
      if r == null { return; }
      ghost var k := |Elems()| - 1;
      ghost var before := Elems();
      assert forall i :: 0 <= i < k ==> before[i].prio <= r.prio by {
        assert forall i :: 0 <= i < k ==> PriosOf(before)[i] <= PriosOf(before)[k];
      }
      Remove(r, k);
      assert Elems() == before[..k];
    }

    /** `queue_del`: unlinks exactly the given element. It never looks at priorities. */
    method Del(e: Link, ghost k: nat)
      requires Linked() && k < |Elems()| && Elems()[k] == e
      modifies this`ring, this`nodes, nodes`prev, nodes`next
      ensures Linked() && Elems() == RemoveAt(old(Elems()), k)
      ensures e !in Elems() && e.prev == null && e.next == null && nodes == old(nodes) - {e}
    {
      InnerRemove(ring, k + 1);
      Unlink(e, k + 1);
    }

    /** Removing one element of a sorted queue leaves it sorted. */
    method Remove(e: Link, ghost k: nat)
      requires Valid() && k < |Elems()| && Elems()[k] == e
      modifies this`ring, this`nodes, nodes`prev, nodes`next
      ensures Valid() && Elems() == RemoveAt(old(Elems()), k)
      ensures e !in Elems() && e.prev == null && e.next == null && nodes == old(nodes) - {e}
    {
      ghost var ps := PriosOf(Elems());
      RemoveAscending(ps, k);
      Del(e, k);
      assert PriosOf(Elems()) == RemoveAt(ps, k);
    }

    /** The element gets a new priority and leaves the ring. */
    method Detach(e: Link, p: int, ghost k: nat)
      requires Valid() && k < |Elems()| && Elems()[k] == e
      modifies this`ring, this`nodes, nodes`prev, nodes`next, e`prio
      ensures Valid() && e.prio == p && e.prev == null && e.next == null && e in old(nodes) && nodes == old(nodes) - {e}
      ensures Elems() == RemoveAt(old(Elems()), k) && PriosOf(Elems()) == RemoveAt(old(PriosOf(Elems())), k)
    {
      ghost var ps := PriosOf(Elems());
      RemoveAscending(ps, k);
      e.prio := p;
      Del(e, k);
      assert PriosOf(Elems()) == RemoveAt(ps, k);
    }

    /** How `chprio` moves a queued process: new priority, `queue_del`, `queue_add`. */
    method Reprioritise(e: Link, p: int, ghost k: nat)
      requires Valid() && k < |Elems()| && Elems()[k] == e
      modifies this`ring, this`nodes, nodes`prev, nodes`next, e`prio, e`prev, e`next
      ensures Valid() && e.prio == p && nodes == old(nodes)
      ensures Elems() == InsertAt(RemoveAt(old(Elems()), k), Rank(RemoveAt(old(PriosOf(Elems())), k), p), e)
    {
      hide Ascending, Rank, InsertAt, RemoveAt, PriosOf;
      Detach(e, p, k);
      Add(e);
    }
  }
}
