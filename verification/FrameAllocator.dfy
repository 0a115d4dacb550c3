/**
  The frame allocator of `src/kernel/memory/frame_dist.c`: a list of free frames
  threaded through their first words.
  */
module FrameAllocator {
  import opened Common
  import opened PageTables

  ghost predicate Disjoint(a: seq<nat>, b: seq<nat>) {
    forall i, j :: 0 <= i < |a| && 0 <= j < |b| ==> a[i] != b[j]
  }

  lemma DistinctSplit(a: seq<nat>, b: seq<nat>)
    ensures Distinct(a + b) <==> Distinct(a) && Distinct(b) && Disjoint(a, b)
  {
    var s := a + b;
    if Distinct(s) {
      assert forall i :: 0 <= i < |a| ==> s[i] == a[i];
      assert forall j :: 0 <= j < |b| ==> s[|a| + j] == b[j];
    }
  }

  /** Parts of disjoint sequences are disjoint. */
  lemma DisjointParts(a: seq<nat>, b: seq<nat>, i: nat, j: nat, k: nat, l: nat)
    requires Disjoint(a, b) && i <= j <= |a| && k <= l <= |b|
    ensures Disjoint(a[i..j], b[k..l])
  {}

  lemma DisjointSum(a: seq<nat>, b: seq<nat>, c: seq<nat>)
    ensures Disjoint(a, b + c) <==> Disjoint(a, b) && Disjoint(a, c)
  {
    var s := b + c;
    if Disjoint(a, s) {
      assert forall i :: 0 <= i < |b| ==> s[i] == b[i];
      assert forall i :: 0 <= i < |c| ==> s[|b| + i] == c[i];
    }
  }

  lemma NotIn(a: seq<nat>, b: seq<nat>, x: nat)
    requires Disjoint(a, b) && x in a
    ensures x !in b
  {}

  /** The list that starts at `head` runs through `free` in this order and ends with a null link. */
  ghost predicate Chain(frames: map<nat, Frame>, head: nat, free: seq<nat>) {
    && free != [] && free[0] == head
    && (forall i :: 0 <= i < |free| ==> free[i] in frames && free[i] != 0)
    && (forall i :: 0 <= i < |free| - 1 ==> frames[free[i]] == Link(free[i + 1]))
    && frames[free[|free| - 1]] == Link(0)
  }

  /** What `release_frame` checks; the upper bound itself passes the check. */
  predicate Releasable(low: nat, high: nat, frame: nat) {
    low <= frame <= high && frame % FRAME_SIZE == 0
  }

  /** The list contents do not depend on frames outside it. */
  lemma ChainFrame(frames: map<nat, Frame>, frames': map<nat, Frame>, head: nat, free: seq<nat>)
    requires Chain(frames, head, free)
    requires forall f :: f in free ==> f in frames' && frames'[f] == frames[f]
    ensures Chain(frames', head, free)
  {}

  lemma ChainKnown(frames: map<nat, Frame>, head: nat, free: seq<nat>)
    requires Chain(frames, head, free)
    ensures |free| >= 1
  {}

  /** Two reads of the same list agree: the list is determined by the frames. */
  lemma {:induction false} ChainUnique(frames: map<nat, Frame>, head: nat, a: seq<nat>, b: seq<nat>)
    requires Chain(frames, head, a) && Chain(frames, head, b)
    ensures a == b
    decreases |a|
  {
    assert |a| > 1 ==> frames[a[0]] == Link(a[1]);
    assert |b| > 1 ==> frames[b[0]] == Link(b[1]);
    if |a| > 1 {
      assert Chain(frames, a[1], a[1..]) && Chain(frames, b[1], b[1..]);
      ChainUnique(frames, a[1], a[1..], b[1..]);
      assert a == [a[0]] + a[1..] && b == [b[0]] + b[1..];
    }
  }

  /** The frames once `frame` is the head of the list. */
  function Relinked(frames: map<nat, Frame>, head: nat, frame: nat): map<nat, Frame> { frames[frame := Link(head)] }

  /** Once a free frame is linked to the head again, the list never ends. */
  lemma {:induction false} NoEnd(frames: map<nat, Frame>, head: nat, free: seq<nat>, i: nat, j: nat, s: seq<nat>)
    requires Chain(frames, head, free) && Distinct(free) && j <= i < |free|
    ensures !Chain(Relinked(frames, head, free[i]), free[j], s)
    decreases |s|
  {
    var frames' := Relinked(frames, head, free[i]);
    if Chain(frames', free[j], s) {
      var next := if j < i then j + 1 else 0;
      assert frames'[free[j]] == Link(free[next]);
      assert |s| > 1 && s[1] == free[next];
      assert Chain(frames', free[next], s[1..]);
      NoEnd(frames, head, free, i, next, s[1..]);
      assert false;
    }
  }

  /** `release_frame` leaves a list that ends if and only if the frame was not free already. */
  lemma ReleaseExact(frames: map<nat, Frame>, head: nat, free: seq<nat>, frame: nat)
    requires Chain(frames, head, free) && Distinct(free) && frame != 0
    ensures (exists s :: Chain(Relinked(frames, head, frame), frame, s)) <==> frame !in free
  {
    if frame in free {
      var i :| 0 <= i < |free| && free[i] == frame;
      forall s ensures !Chain(Relinked(frames, head, frame), frame, s) { NoEnd(frames, head, free, i, i, s); }
    } else {
      var s := [frame] + free;
      assert forall k :: 0 < k < |s| ==> s[k] == free[k - 1];
      assert Chain(Relinked(frames, head, frame), frame, s);
    }
  }

  /** The list built by `init_frames`. */
  lemma ListIsChain(frames: map<nat, Frame>, low: nat, high: nat, list: seq<nat>)
    requires low > 0 && low % FRAME_SIZE == 0 && list != []
    requires forall i :: 0 <= i < |list| ==> list[i] == low + FRAME_SIZE * i && list[i] in frames
    requires forall i :: 0 <= i < |list| - 1 ==> frames[list[i]] == Link(low + FRAME_SIZE * (i + 1))
    requires frames[list[|list| - 1]] == Link(0)
    requires list[|list| - 1] < high <= list[|list| - 1] + FRAME_SIZE
    ensures Chain(frames, low, list) && Distinct(list)
    ensures forall f :: f in list ==> Releasable(low, high, f)
    ensures |list| == (high - low + FRAME_SIZE - 1) / FRAME_SIZE
  {
    forall f | f in list ensures Releasable(low, high, f) {
      var i :| 0 <= i < |list| && list[i] == f;
      assert f <= list[|list| - 1];
    }
  }

  class FrameList {
    const low: nat   // _free_memory_start
    const high: nat  // _memory_end
    var frames: map<nat, Frame>
    var memPtr: nat
    ghost var free: seq<nat>

    ghost predicate Valid()
      reads this
    {
      Chain(frames, memPtr, free) && Distinct(free) && low > 0 && high < PHYSICAL_LIMIT
      && (forall f :: f in free ==> Releasable(low, high, f))
    }

    /** `init_frames`: every whole frame below the end of memory, in ascending order. */
    constructor (low: nat, high: nat)
      requires 0 < low < high < PHYSICAL_LIMIT && low % FRAME_SIZE == 0
      ensures Valid() && this.low == low && this.high == high
      ensures |free| == (high - low + FRAME_SIZE - 1) / FRAME_SIZE
      ensures forall i :: 0 <= i < |free| ==> free[i] == low + FRAME_SIZE * i
      ensures forall f :: f in frames <==> f in free
    {
      this.low, this.high := low, high;
      var mem: map<nat, Frame> := map[];
      var cur := low;
      ghost var list: seq<nat> := [];
      while cur + FRAME_SIZE < high
        invariant cur == low + FRAME_SIZE * |list| && cur < high
        invariant forall i :: 0 <= i < |list| ==> list[i] == low + FRAME_SIZE * i
        invariant forall f :: f in mem <==> f in list
        invariant forall i :: 0 <= i < |list| ==> mem[list[i]] == Link(low + FRAME_SIZE * (i + 1))
        decreases high - cur
      {
        mem := mem[cur := Link(cur + FRAME_SIZE)];
        list := list + [cur];
        cur := cur + FRAME_SIZE;
      }
      mem := mem[cur := Link(0)];
      list := list + [cur];
      frames, memPtr, free := mem, low, list;
      ListIsChain(mem, low, high, list);
    }

    /** `get_frame`: the most recently released frame; the last one is never handed out. */
    method GetFrame() returns (frame: nat)
      requires Valid()
      modifies this`memPtr, this`free
      ensures Valid()
      ensures |old(free)| == 1 ==> frame == 0 && free == old(free)
      ensures |old(free)| > 1 ==> frame == old(free)[0] && old(free) == [frame] + free && frame !in free && frame != 0
    {
      assert |free| > 1 ==> frames[free[0]] == Link(free[1]);
      if frames[memPtr] == Link(0) {
        return 0;
      }
      frame := memPtr;
      memPtr := frames[memPtr].next;
      free := free[1..];
    }

    /** `release_frame`: the frame's first word becomes the link to the former head. */
    method ReleaseFrame(frame: nat)
      requires Valid() && (Releasable(low, high, frame) ==> frame !in free)
      modifies this`frames, this`memPtr, this`free
      ensures Valid()
      ensures !Releasable(low, high, frame) ==> frames == old(frames) && free == old(free)
      ensures Releasable(low, high, frame) ==> free == [frame] + old(free) && frames == old(frames)[frame := Link(old(memPtr))]
    {
      if !Releasable(low, high, frame) { return; }
      frames := frames[frame := Link(memPtr)];
      memPtr := frame;
      free := [frame] + free;
    }

    /** `create_page_table`: a cleared table, or null. */
    method CreatePageTable() returns (table: nat)
      requires Valid()
      modifies this`frames, this`memPtr, this`free
      ensures Valid()
      ensures |old(free)| == 1 ==> table == 0 && free == old(free) && frames == old(frames)
      ensures |old(free)| > 1 ==>
                && table == old(free)[0] && old(free) == [table] + free && table !in free && table != 0
                && frames == old(frames)[table := Table(seq(PT_SIZE, i => BLANK))]
    {
      table := GetFrame();
      if table == 0 { return; }
      frames := frames[table := Table(seq(PT_SIZE, i => BLANK))];
    }
  }
}
