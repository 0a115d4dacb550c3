/**
  The ring buffer inside a message queue (`src/kernel/msgqueue.c`): an array, the
  index of its first free cell (`iffc`) and a message count. The oldest message
  sits `number_of_msgs` cells behind `iffc`, modulo the capacity.
  */
module MessageRing {
  import opened Arithmetic

  /** The values of the three C fields; the capacity is the length of `arr`. */
  datatype Ring = Ring(arr: seq<int>, iffc: nat, num: nat)

  ghost predicate RingOk(r: Ring) {
    && r.num <= |r.arr|
    && (if |r.arr| == 0 then r.iffc == 0 else r.iffc < |r.arr|)
  }

  /** C's `%`, which truncates toward zero. */
  function Rem(a: int, b: int): int
    requires b > 0
  {
    if a >= 0 then a % b else -((-a) % b)
  }

  /** The helper `mod`. */
  function Mod(a: int, b: int): int
    requires b > 0
  {
    var r := Rem(a, b);
    if r < 0 then r + b else r
  }

  /** Cell of the j-th oldest message, without division. */
  function Cell(r: Ring, j: int): int {
    var c := r.iffc - r.num + j;
    if c < 0 then c + |r.arr| else c
  }

  /** The stored messages, oldest first. */
  function Stored(r: Ring): (s: seq<int>)
    requires RingOk(r)
    ensures |s| == r.num
  {
    seq(r.num, j requires 0 <= j < r.num => r.arr[Cell(r, j)])
  }

  function Blank(size: nat): (r: Ring)
    ensures RingOk(r) && Stored(r) == [] && |r.arr| == size
  {
    Ring(seq(size, _ => 0), 0, 0)
  }

  function IsEmpty(r: Ring): bool { r.num == 0 }

  function IsFull(r: Ring): bool { r.num == |r.arr| }

  /** `add_message`. */
  function Put(r: Ring, m: int): Ring
    requires RingOk(r) && !IsFull(r)
  {
    Ring(r.arr[r.iffc := m], (r.iffc + 1) % |r.arr|, r.num + 1)
  }

  /** `pop_oldest_msg`: the value read and the ring left behind. */
  function OldestIndex(r: Ring): int
    requires RingOk(r) && !IsEmpty(r)
  {
    Mod(r.iffc - r.num, |r.arr|)
  }

  function Drop(r: Ring): Ring
    requires RingOk(r) && !IsEmpty(r)
  {
    r.(num := r.num - 1)
  }

  lemma ModOnce(a: int, b: int)
    requires b > 0 && -b <= a < b
    ensures Mod(a, b) == if a < 0 then a + b else a
  {
    if 0 <= a {
      ModSmall(a, b);
    } else if a == -b {
      ModEqual(b, 0, b, 1);
    } else {
      ModSmall(-a, b);
    }
  }

  /** Adding appends at the young end. */
  lemma PutAppends(r: Ring, m: int)
    requires RingOk(r) && !IsFull(r)
    ensures RingOk(Put(r, m)) && Stored(Put(r, m)) == Stored(r) + [m]
  {
    var n := |r.arr|;
    var r' := Put(r, m);
    assert r'.iffc == if r.iffc + 1 == n then 0 else r.iffc + 1 by {
      if r.iffc + 1 == n { ModEqual(n, 0, n, 1); } else { ModSmall(r.iffc + 1, n); }
    }
    forall j | 0 <= j < r'.num ensures Stored(r')[j] == (Stored(r) + [m])[j] {
      if j < r.num {
        assert Cell(r', j) == Cell(r, j) != r.iffc;
      }
    }
  }

  /** Popping returns the oldest message and leaves the others in order. */
  lemma DropOldest(r: Ring)
    requires RingOk(r) && !IsEmpty(r)
    ensures 0 <= OldestIndex(r) < |r.arr|
    ensures r.arr[OldestIndex(r)] == Stored(r)[0]
    ensures RingOk(Drop(r)) && Stored(Drop(r)) == Stored(r)[1..]
  {
    ModOnce(r.iffc - r.num, |r.arr|);
    var r' := Drop(r);
    forall j | 0 <= j < r'.num ensures Stored(r')[j] == Stored(r)[1..][j] {
      assert Cell(r', j) == Cell(r, j + 1);
    }
  }

  /** The ring as the C code keeps it: an array updated in place. */
  class RingBuffer {
    const msgArr: array<int>
    var iffc: nat
    var numberOfMsgs: nat

    ghost function View(): Ring
      reads this, msgArr
    {
      Ring(msgArr[..], iffc, numberOfMsgs)
    }

    ghost predicate Valid()
      reads this, msgArr
    {
      RingOk(View())
    }

    constructor (size: nat)
      ensures Valid() && fresh(msgArr) && msgArr.Length == size && Stored(View()) == []
    {
      msgArr := new int[size];
      iffc, numberOfMsgs := 0, 0;
    }

    method AddMessage(message: int)
      requires Valid() && numberOfMsgs < msgArr.Length
      modifies this, msgArr
      ensures Valid() && View() == Put(old(View()), message)
      ensures Stored(View()) == Stored(old(View())) + [message]
    {
      PutAppends(View(), message);
      msgArr[iffc] := message;
      numberOfMsgs := numberOfMsgs + 1;
      iffc := (iffc + 1) % msgArr.Length;
    }

    method PopOldest() returns (message: int)
      requires Valid() && numberOfMsgs > 0
      modifies this
      ensures Valid() && View() == Drop(old(View()))
      ensures [message] + Stored(View()) == Stored(old(View()))
    {
      DropOldest(View());
      var index := Mod(iffc - numberOfMsgs, msgArr.Length);
      numberOfMsgs := numberOfMsgs - 1;
      message := msgArr[index];
    }

    /** The two assignments of `preset`. */
    method Reset()
      modifies this
      ensures Valid() && Stored(View()) == [] && msgArr[..] == old(msgArr[..])
    {
      numberOfMsgs := 0;
      iffc := 0;
    }
  }
}
