/**
  The system calls on semaphores (`src/kernel/process/semaphore_api.c`).
  */
module SemaphoreCalls {
  import opened PriorityOrder
  import opened KernelState
  import opened KernelInvariant
  import opened KernelMoves
  import opened MessageCalls

  const KILL_CALL := -3  // the enumerator after SRESET_CALL = -4

  function SetSem(k: K, id: SemId, s: Sem): K {
    k.(sems := k.sems[id := s])
  }

  // ----- wait -----

  function WaiterPrios(procs: map<Pid, Proc>, w: seq<Pid>): (ps: seq<int>)
    requires forall i :: 0 <= i < |w| ==> w[i] in procs
    ensures |ps| == |w| && forall i :: 0 <= i < |w| ==> ps[i] == procs[w[i]].prio
  {
    seq(|w|, i requires 0 <= i < |w| => procs[w[i]].prio)
  }

  /** Where `wait` inserts a waiter of priority p: before the first strictly lower one. */
  function WaitRank(ps: seq<int>, p: int, from: nat): (r: nat)
    requires from <= |ps|
    ensures from <= r <= |ps|
    ensures forall i :: from <= i < r ==> ps[i] >= p
    ensures r < |ps| ==> ps[r] < p
    decreases |ps| - from
  {
    if from == |ps| || p > ps[from] then from else WaitRank(ps, p, from + 1)
  }

  lemma WaitersKnown(k: K, id: SemId)
    requires Mid(k) && id in k.sems
    ensures SemOk(k.procs, id, k.sems[id])
    ensures forall i :: 0 <= i < |k.sems[id].waiters| ==> k.sems[id].waiters[i] in k.procs
  {}

  /** Whether `wait` refuses: the count could not be lowered. */
  function WaitEntry(s: Sem): Cause {
    if s.count == MIN_COUNT then Refused else Immediate
  }

  /** The running process enters `wait`: the result is taken to be 0. */
  function EnterWait(k: K, id: SemId): K
    requires k.current in k.procs && id in k.sems
  {
    SetProc(k, k.current,
            k.procs[k.current].(semSignal := SIGNAL_CALL, call := InWait(id), release := WaitEntry(k.sems[id])))
  }

  lemma EnterWaitKeeps(k: K, id: SemId)
    requires Inv(k) && id in k.sems
    ensures Inv(EnterWait(k, id))
  {
    SetRunning(k, k.procs[k.current].(semSignal := SIGNAL_CALL, call := InWait(id), release := WaitEntry(k.sems[id])));
  }

  /** The running process joins the waiters of a semaphore whose count was not positive. */
  function Join(k: K, id: SemId): K
    requires k.current in k.procs && id in k.sems
    requires forall i :: 0 <= i < |k.sems[id].waiters| ==> k.sems[id].waiters[i] in k.procs
  {
    var s := k.sems[id];
    var cur := k.procs[k.current];
    var r := WaitRank(WaiterPrios(k.procs, s.waiters), cur.prio, 0);
    SetSem(SetProc(k, k.current, cur.(state := BlockedSemaphore, semId := id, release := Pending)),
           id, Sem(s.count - 1, InsertAt(s.waiters, r, k.current)))
  }

  lemma JoinSems(procs: map<Pid, Proc>, sems: map<SemId, Sem>, id: SemId, c: Pid, pr: Proc, r: nat)
    requires SemsOk(procs, sems) && id in sems && c in procs && r <= |sems[id].waiters|
    requires !procs[c].state.BlockedSemaphore? && pr.state.BlockedSemaphore? && pr.semId == id
    requires MIN_COUNT < sems[id].count <= 0
    ensures SemsOk(procs[c := pr], sems[id := Sem(sems[id].count - 1, InsertAt(sems[id].waiters, r, c))])
  {
    var s := sems[id];
    var w' := InsertAt(s.waiters, r, c);
    var procs', sems' := procs[c := pr], sems[id := Sem(s.count - 1, w')];
    assert SemOk(procs, id, s);
    forall i | i in sems' ensures SemOk(procs', i, sems'[i]) {
      assert SemOk(procs, i, sems[i]);
    }
    assert w'[r] == c;
    forall p | p in procs' && procs'[p].state.BlockedSemaphore?
      ensures procs'[p].semId in sems' && p in sems'[procs'[p].semId].waiters
    {
      if p != c && procs[p].semId == id {
        var j :| 0 <= j < |s.waiters| && s.waiters[j] == p;
        assert w'[if j < r then j else j + 1] == p;
      }
    }
  }

  lemma JoinKeeps(k: K, id: SemId)
    requires Inv(k) && k.current != IDLE && id in k.sems && MIN_COUNT < k.sems[id].count <= 0
    requires k.procs[k.current].call == InWait(id)
    ensures forall i :: 0 <= i < |k.sems[id].waiters| ==> k.sems[id].waiters[i] in k.procs
    ensures Mid(Join(k, id))
  {
    hide MemberOf, SortedOf, SemsOk, MsgsOk, TreeOk, IdleOk, ProcsOk;
    WaitersKnown(k, id);
    RunningUnlinked(k);
    var cur := k.procs[k.current];
    var pr := cur.(state := BlockedSemaphore, semId := id, release := Pending);
    var r := WaitRank(WaiterPrios(k.procs, k.sems[id].waiters), cur.prio, 0);
    JoinSems(k.procs, k.sems, id, k.current, pr, r);
    SetKeeps(k, k.current, pr);
    BlockProcs(k.procs, k.current, pr, k.births);
  }

  /** Changing only the count of a semaphore that has, and keeps, the right number of waiters. */
  lemma SetCountKeeps(k: K, id: SemId, count: int)
    requires Inv(k) && id in k.sems && MIN_COUNT <= count <= MAX_COUNT
    requires |k.sems[id].waiters| == (if count < 0 then -count else 0)
    ensures Inv(SetSem(k, id, k.sems[id].(count := count)))
  {
    hide MemberOf, SortedOf, MsgsOk, TreeOk, IdleOk, ProcsOk;
    var sems' := k.sems[id := k.sems[id].(count := count)];
    forall i | i in sems' ensures SemOk(k.procs, i, sems'[i]) {
      assert SemOk(k.procs, i, k.sems[i]);
    }
  }

  /** `wait`. */
  function SWait(k: K, id: SemId): (r: K)
    requires Inv(k) && k.current != IDLE
    ensures Inv(r)
  {
    if id !in k.sems then k
    else
      EnterWaitKeeps(k, id);
      var k0 := EnterWait(k, id);
      var s := k.sems[id];
      if s.count == MIN_COUNT then k0
      else if s.count - 1 < 0 then
        WaitersKnown(k, id);
        JoinKeeps(k0, id);
        Schedule(Join(k0, id))
      else
        LessOne(k0, id);
        Schedule(SetSem(k0, id, s.(count := s.count - 1)))
  }

  /** A count that stays non-negative may be lowered. */
  lemma LessOne(k: K, id: SemId)
    requires Inv(k) && id in k.sems && k.sems[id].count > 0
    ensures Mid(SetSem(k, id, k.sems[id].(count := k.sems[id].count - 1)))
  {
    hide MemberOf, SortedOf, MsgsOk, TreeOk, IdleOk, ProcsOk, SemsOk;
    WaitersKnown(k, id);
    SetCountKeeps(k, id, k.sems[id].count - 1);
  }

  /** `try_wait`. */
  function STryWait(k: K, id: SemId): (r: K)
    requires Inv(k) && k.current != IDLE
    ensures Inv(r)
  {
    if id !in k.sems || k.sems[id].count <= 0 then k
    else
      var s := k.sems[id];
      EnterKeeps(k, NoCall);
      LessOne(Enter(k, NoCall), id);
      Schedule(SetSem(Enter(k, NoCall), id, s.(count := s.count - 1)))
  }

  // ----- signal and signaln -----

  lemma ToMidBut(k: K, id: SemId, count: int)
    requires Inv(k) && id in k.sems
    ensures MidBut(SetSem(k, id, k.sems[id].(count := count)), id)
  {
    hide MemberOf, SortedOf, MsgsOk, TreeOk, IdleOk, ProcsOk;
    var k' := SetSem(k, id, k.sems[id].(count := count));
    assert SemOk(k.procs, id, k.sems[id]);
    forall i | i in k'.sems && i != id ensures SemOk(k'.procs, i, k'.sems[i]) {
      assert SemOk(k.procs, i, k.sems[i]);
    }
  }

  lemma FromMidBut(k: K, id: SemId)
    requires MidBut(k, id) && !k.parentBlock
    requires var s := k.sems[id];
             MIN_COUNT <= s.count <= MAX_COUNT && |s.waiters| == (if s.count < 0 then -s.count else 0)
    ensures Inv(k)
  {
    hide MemberOf, SortedOf, MsgsOk, TreeOk, IdleOk, ProcsOk;
    forall i | i in k.sems ensures SemOk(k.procs, i, k.sems[i]) {}
  }

  /** `signal` without its call of `scheduler()`. */
  function SignalOnce(k: K, id: SemId): K
    requires Inv(k) && id in k.sems && k.sems[id].count < MAX_COUNT
  {
    var s := k.sems[id];
    var k1 := SetSem(k, id, s.(count := s.count + 1));
    if s.count + 1 <= 0 then
      SignalUnblocks(k, id);
      Unblock(k1, id, SIGNAL_CALL, Signalled)
    else
      k1
  }

  lemma SignalUnblocks(k: K, id: SemId)
    requires Inv(k) && id in k.sems && k.sems[id].count < 0
    ensures var w := k.sems[id].waiters; w != [] && w[0] in k.procs && k.procs[w[0]].link.Unlinked?
    ensures MidBut(SetSem(k, id, k.sems[id].(count := k.sems[id].count + 1)), id)
  {
    hide MemberOf, SortedOf, MsgsOk, TreeOk, IdleOk, ProcsOk, SemsOk;
    WaitersKnown(k, id);
    ToMidBut(k, id, k.sems[id].count + 1);
    UnblockReady(SetSem(k, id, k.sems[id].(count := k.sems[id].count + 1)), id);
  }

  lemma SignalOnceKeeps(k: K, id: SemId)
    requires Inv(k) && id in k.sems && k.sems[id].count < MAX_COUNT
    ensures var r := SignalOnce(k, id);
            && Inv(r) && r.current == k.current && r.queues == k.queues && r.clock == k.clock && r.procs.Keys == k.procs.Keys
            && r.sems == k.sems[id := Sem(k.sems[id].count + 1,
                                          if k.sems[id].waiters == [] then [] else k.sems[id].waiters[1..])]
  {
    hide MemberOf, SortedOf, MsgsOk, TreeOk, IdleOk, ProcsOk, SemsOk, Unblock;
    WaitersKnown(k, id);
    var s := k.sems[id];
    if s.count + 1 <= 0 {
      var k1 := SetSem(k, id, s.(count := s.count + 1));
      SignalUnblocks(k, id);
      UnblockKeeps(k1, id, SIGNAL_CALL, Signalled);
      UnblockEffect(k1, id, SIGNAL_CALL, Signalled);
      FromMidBut(Unblock(k1, id, SIGNAL_CALL, Signalled), id);
    } else {
      SetCountKeeps(k, id, s.count + 1);
    }
  }

  /** n signals in a row, none of them followed by a scheduling point. */
  function SignalMany(k: K, id: SemId, n: nat): K
    requires Inv(k) && id in k.sems && k.sems[id].count + n <= MAX_COUNT
    decreases n
  {
    if n == 0 then k
    else
      SignalOnceKeeps(k, id);
      SignalMany(SignalOnce(k, id), id, n - 1)
  }

  lemma {:induction false} SignalManyKeeps(k: K, id: SemId, n: nat)
    requires Inv(k) && id in k.sems && k.sems[id].count + n <= MAX_COUNT
    ensures var r := SignalMany(k, id, n);
            var w := k.sems[id].waiters;
            && Inv(r) && r.current == k.current && r.queues == k.queues && r.clock == k.clock && r.procs.Keys == k.procs.Keys
            && r.sems == k.sems[id := Sem(k.sems[id].count + n, if n < |w| then w[n..] else [])]
    decreases n
  {
    hide MemberOf, SortedOf, MsgsOk, TreeOk, IdleOk, ProcsOk, SemsOk, SignalOnce;
    var s := k.sems[id];
    if n == 0 {
      assert Sem(s.count, if 0 < |s.waiters| then s.waiters[0..] else []) == s;
    } else {
      SignalOnceKeeps(k, id);
      SignalManyKeeps(SignalOnce(k, id), id, n - 1);
      assert n < |s.waiters| ==> s.waiters[1..][n - 1..] == s.waiters[n..];
    }
  }

  /** `signal`. */
  function SSignal(k: K, id: SemId): (r: K)
    requires Inv(k)
    ensures Inv(r)
  {
    if id !in k.sems || k.sems[id].count == MAX_COUNT then k
    else
      EnterKeeps(k, NoCall);
      WaitersKnown(k, id);
      SignalOnceKeeps(Enter(k, NoCall), id);
      Schedule(SignalOnce(Enter(k, NoCall), id))
  }

  /** `signaln`. */
  function SSignalN(k: K, id: SemId, n: int): (r: K)
    requires Inv(k)
    ensures Inv(r)
  {
    if id !in k.sems || n < 0 || k.sems[id].count + n > MAX_COUNT then k
    else
      EnterKeeps(k, NoCall);
      SignalManyKeeps(Enter(k, NoCall), id, n);
      Schedule(SignalMany(Enter(k, NoCall), id, n))
  }

  // ----- sreset, sdelete, screate -----

  predicate EndOfSem(code: int, why: Cause) {
    (why.SemDeleted? && code == SDELETE_CALL) || (why.SemReset? && code == SRESET_CALL)
  }

  /** Every waiter is released with the same code. */
  function UnblockAll(k: K, id: SemId, code: int, why: Cause): K
    requires MidBut(k, id) && EndOfSem(code, why)
    decreases |k.sems[id].waiters|
  {
    if k.sems[id].waiters == [] then k
    else
      UnblockKeeps(k, id, code, why);
      UnblockEffect(k, id, code, why);
      UnblockAll(Unblock(k, id, code, why), id, code, why)
  }

  lemma {:induction false} UnblockAllKeeps(k: K, id: SemId, code: int, why: Cause)
    requires MidBut(k, id) && EndOfSem(code, why)
    ensures var r := UnblockAll(k, id, code, why);
            && MidBut(r, id) && id in k.sems && r.sems == k.sems[id := k.sems[id].(waiters := [])]
            && r.current == k.current && r.parentBlock == k.parentBlock
            && r.queues == k.queues && r.clock == k.clock && r.procs.Keys == k.procs.Keys
    decreases |k.sems[id].waiters|
  {
    hide MemberOf, SortedOf, MsgsOk, TreeOk, IdleOk, ProcsOk, Unblock;
    if k.sems[id].waiters == [] {
      assert k.sems[id].(waiters := []) == k.sems[id];
    } else {
      UnblockKeeps(k, id, code, why);
      UnblockEffect(k, id, code, why);
      UnblockAllKeeps(Unblock(k, id, code, why), id, code, why);
    }
  }

  /** The C conversion `(int16_t) count`. */
  function ToInt16(c: int): int {
    (c + 32768) % 65536 - 32768
  }

  lemma SelfMidBut(k: K, id: SemId)
    requires Inv(k) && id in k.sems
    ensures MidBut(k, id)
  {
    hide MemberOf, SortedOf, MsgsOk, TreeOk, IdleOk, ProcsOk, SemsOk, SemsBut;
    ToMidBut(k, id, k.sems[id].count);
    assert SetSem(k, id, k.sems[id].(count := k.sems[id].count)) == k;
  }

  /** `sreset` up to its call of `scheduler()`. */
  function ResetSem(k: K, id: SemId, c: int): K
    requires Inv(k) && id in k.sems
  {
    SelfMidBut(k, id);
    SetSem(UnblockAll(k, id, SRESET_CALL, SemReset), id, Sem(ToInt16(c), []))
  }

  lemma ResetSemKeeps(k: K, id: SemId, c: int)
    requires Inv(k) && id in k.sems
    ensures var r := ResetSem(k, id, c);
            && MidBut(r, id) && r.sems == k.sems[id := Sem(ToInt16(c), [])] && !r.parentBlock && r.current == k.current
            && r.queues == k.queues && r.clock == k.clock && r.procs.Keys == k.procs.Keys
  {
    hide MemberOf, SortedOf, MsgsOk, TreeOk, IdleOk, ProcsOk, SemsOk, SemsBut, UnblockAll;
    SelfMidBut(k, id);
    UnblockAllKeeps(k, id, SRESET_CALL, SemReset);
    ResetCount(UnblockAll(k, id, SRESET_CALL, SemReset), id, ToInt16(c));
  }

  lemma ResetCount(k: K, id: SemId, count: int)
    requires MidBut(k, id) && k.sems[id].waiters == []
    ensures MidBut(SetSem(k, id, Sem(count, [])), id)
  {
    hide MemberOf, SortedOf, MsgsOk, TreeOk, IdleOk, ProcsOk;
  }

  lemma MidButMayLeave(k: K, id: SemId)
    requires MidBut(k, id)
    ensures CurrentMayLeave(k)
  {}

  /** `sreset`. */
  function SReset(k: K, id: SemId, c: int): (r: K)
    requires Inv(k)
    ensures id !in k.sems || c < 0 || ToInt16(c) >= 0 ==> Inv(r)
  {
    if id !in k.sems || c < 0 then k
    else
      EnterKeeps(k, NoCall);
      ResetSemKeeps(Enter(k, NoCall), id, c);
      var k1 := ResetSem(Enter(k, NoCall), id, c);
      MidButMayLeave(k1, id);
      if ToInt16(c) >= 0 then
        FromMidBut(k1, id);
        Schedule(k1)
      else
        Dispatch(k1)
  }

  function DropSem(k: K, id: SemId): K {
    k.(sems := k.sems - {id})
  }

  lemma DropSemKeeps(k: K, id: SemId)
    requires MidBut(k, id) && k.sems[id].waiters == [] && !k.parentBlock
    ensures Inv(DropSem(k, id))
  {
    hide MemberOf, SortedOf, MsgsOk, TreeOk, IdleOk, ProcsOk;
  }

  /** `sdelete`. */
  function SDelete(k: K, id: SemId): (r: K)
    requires Inv(k)
    ensures Inv(r)
  {
    if id !in k.sems then k
    else
      EnterKeeps(k, NoCall);
      var k0 := Enter(k, NoCall);
      SelfMidBut(k0, id);
      UnblockAllKeeps(k0, id, SDELETE_CALL, SemDeleted);
      var k1 := UnblockAll(k0, id, SDELETE_CALL, SemDeleted);
      DropSemKeeps(k1, id);
      Schedule(DropSem(k1, id))
  }

  /** `screate`, with the identifier it draws as a parameter. */
  function SCreate(k: K, id: SemId, count: int): (r: K)
    requires Inv(k) && id !in k.sems && count <= MAX_COUNT
    ensures Inv(r)
  {
    if count < 0 then k
    else
      EnterKeeps(k, NoCall);
      SCreateKeeps(Enter(k, NoCall), id, count);
      SetSem(Enter(k, NoCall), id, Sem(count, []))
  }

  lemma SCreateKeeps(k: K, id: SemId, count: nat)
    requires Inv(k) && id !in k.sems && count <= MAX_COUNT
    ensures Inv(SetSem(k, id, Sem(count, [])))
  {
    hide MemberOf, SortedOf, MsgsOk, TreeOk, IdleOk, ProcsOk;
    var sems' := k.sems[id := Sem(count, [])];
    forall i | i in sems' ensures SemOk(k.procs, i, sems'[i]) {
      if i != id { assert SemOk(k.procs, i, k.sems[i]); }
    }
  }
}
