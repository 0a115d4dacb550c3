/**
  The kernel's own form of these operations: global tables updated in place, loops over
  queues. Every method is proved to have exactly the effect of its specification function
  on the view of the fields.
  */
module KernelObject {
  import opened Common
  import opened PriorityOrder
  import opened MessageRing
  import opened KernelState
  import opened KernelInvariant
  import opened KernelMoves
  import opened MessageCalls
  import opened SemaphoreCalls
  import opened ProcessCalls
  import opened PriorityLaws
  import opened ChildLists
  import opened ProcessTree
  import opened SleepTheorems
  import opened SchedulerTheorems
  import opened MessageTheorems
  import opened CallEffects
  import opened MessageEffects
  import opened SleepRuns

  class Kernel {
    var procs: map<Pid, Proc>
    var lists: map<ListId, seq<Pid>>
    var current: Pid
    var clock: nat
    var sems: map<SemId, Sem>
    var queues: map<Fid, MsgQueue>
    var parentBlock: bool
    var births: nat

    ghost function View(): K
      reads this
    {
      K(procs, lists, current, clock, sems, queues, parentBlock, births)
    }

    // ----- queue.h on the process lists -----

    /** `queue_add`: walks to the first element whose key is not smaller. */
    method QueueAdd(p: Pid, l: ListId)
      requires Member(View()) && l in lists && p in procs && procs[p].link.Unlinked?
      modifies this`procs, this`lists
      ensures View() == KernelState.QueueAdd(old(View()), l, p)
    {
      ghost var k := View();
      assert Holds(procs, l, lists[l]);
      var s := lists[l];
      ghost var ks := Keys(procs, l, s);
      var x := Key(l, procs[p]);
      var i := 0;
      while i < |s| && Key(l, procs[s[i]]) < x
        invariant 0 <= i <= |s|
        invariant forall j :: 0 <= j < i ==> ks[j] < x
      {
        i := i + 1;
      }
      RankUnique(ks, x, i);
      lists := lists[l := InsertAt(s, i, p)];
      procs := procs[p := procs[p].(link := LinkedIn(l))];
    }

    /** `queue_del`. */
    method QueueDel(p: Pid)
      requires Member(View()) && p in procs && procs[p].link.LinkedIn?
      modifies this`procs, this`lists
      ensures View() == KernelState.QueueDel(old(View()), p)
    {
      var l := procs[p].link.list;
      ListOf(View(), p);
      lists := lists[l := RemoveAt(lists[l], IndexOf(lists[l], p))];
      procs := procs[p := procs[p].(link := Unlinked)];
    }

    /** `queue_out` on a queue that is not empty. */
    method QueueOut(l: ListId) returns (p: Pid)
      requires Member(View()) && l in lists && lists[l] != []
      modifies this`procs, this`lists
      ensures p == Top(old(View()), l) && p in old(procs) && old(procs)[p].link == LinkedIn(l)
      ensures View() == KernelState.QueueDel(old(View()), p)
    {
      TopMember(View(), l);
      assert Distinct(lists[l]) by { assert Holds(procs, l, lists[l]); }
      LastIndex(lists[l]);
      p := lists[l][|lists[l]| - 1];
      lists := lists[l := lists[l][..|lists[l]| - 1]];
      procs := procs[p := procs[p].(link := Unlinked)];
    }

    // ----- scheduler.c -----

    /** `awake_sleeping_process`. */
    method AwakeSleeping()
      requires Member(View())
      modifies this`procs, this`lists
      ensures View() == Awake(old(View()))
    {
      Heads(View());
      while lists[Sleepers] != [] && procs[lists[Sleepers][|lists[Sleepers]| - 1]].wakeTime != 0 &&
            clock > -procs[lists[Sleepers][|lists[Sleepers]| - 1]].wakeTime
        invariant Member(View()) && Sleepers in lists && Ready in lists
        invariant Awake(View()) == Awake(old(View()))
        decreases |lists[Sleepers]|
      {
        ghost var k := View();
        var p := QueueOut(Sleepers);
        QueueAdd(p, Ready);
        assert View() == AwakeOne(k);
        Heads(View());
      }
    }

    /** `free_dead_process`. */
    method FreeDeadProcesses()
      requires Member(View())
      modifies this`procs, this`lists
      ensures View() == FreeDead(old(View()))
    {
      hide MemberOf, SortedOf;
      Heads(View());
      while lists[Dead] != []
        invariant Member(View()) && Dead in lists
        invariant FreeDead(View()) == FreeDead(old(View()))
        decreases |lists[Dead]|
      {
        ghost var k := View();
        var p := QueueOut(Dead);
        procs := procs - {p};
        FreeOne(k, View(), p);
      }
      AllFreed(View());
    }

    /** Makes the top ready process the running one. */
    method SwitchTo()
      requires Member(View()) && Ready in lists && lists[Ready] != []
      modifies this`procs, this`lists, this`current
      ensures View() == SwitchToTop(old(View()))
    {
      hide MemberOf, SortedOf;
      var top := QueueOut(Ready);
      current := top;
      procs := procs[top := procs[top].(state := Actif)];
    }

    /** The choice at the end of `scheduler()`. */
    method ChooseNext()
      requires Member(View()) && CurrentMayLeave(View())
      modifies this`procs, this`lists, this`current
      ensures View() == Choose(old(View()))
    {
      hide MemberOf, SortedOf;
      ghost var k := View();
      Heads(k);
      if lists[Ready] == [] {
        return;
      }
      TopMember(k, Ready);
      var c := current;
      var cur := procs[c];
      if cur.state.Actif? {
        var top := lists[Ready][|lists[Ready]| - 1];
        if procs[top].prio >= cur.prio {
          SwitchTo();
          Heads(View());
          procs := procs[c := cur.(state := Activatable)];
          assert View() == Write(SwitchToTop(k), c, cur.(state := Activatable));
          QueueAdd(c, Ready);
        }
      } else if cur.state.Killed? {
        QueueAdd(c, Dead);
        Heads(View());
        SwitchTo();
      } else {
        SwitchTo();
      }
    }

    /** `scheduler()`, after start-up. */
    method Scheduler()
      requires Member(View()) && CurrentMayLeave(View())
      modifies this`procs, this`lists, this`current
      ensures View() == Dispatch(old(View()))
    {
      hide MemberOf, SortedOf, Awake, Choose;
      AwakeProc(View(), current);
      AwakeSleeping();
      FreeDeadKeeps(View());
      FreeDeadProcesses();
      ChooseNext();
    }

    /** The call of `scheduler()` at the end of a system call. */
    method Reschedule()
      requires Mid(View())
      modifies this`procs, this`lists, this`current
      ensures View() == Schedule(old(View())) && Inv(View())
    {
      MidMayLeave(View());
      Scheduler();
    }

    /** `handle_stimer_interrupt`. */
    method TimerInterrupt()
      requires Inv(View())
      modifies this
      ensures View() == Tick(old(View())) && Inv(View())
    {
      hide MemberOf, SortedOf, SemsOk, MsgsOk, TreeOk, IdleOk, ProcsOk, Schedule;
      clock := clock + 1;
      Reschedule();
    }

    /** The running process notes the call it is in (history only). */
    method NoteCall(call: Call)
      requires Inv(View()) && !call.InWait?
      modifies this`procs
      ensures View() == Enter(old(View()), call) && Inv(View())
    {
      EnterKeeps(View(), call);
      procs := procs[current := procs[current].(call := call, release := Immediate)];
    }

    /** `wait_clock`. */
    method SleepFor(ticks: nat)
      requires Inv(View()) && current != IDLE
      modifies this
      ensures View() == WaitClock(old(View()), ticks)
      ensures Inv(View()) <==> old(clock) + ticks != 0
      ensures old(clock) + ticks != 0 ==> SleepsUntil(View(), old(current), old(clock) + ticks)
    {
      hide MemberOf, SortedOf, SemsOk, MsgsOk, TreeOk, IdleOk, ProcsOk, Dispatch;
      ghost var k := View();
      WaitClockExact(k, ticks);
      if clock + ticks != 0 { WaitClockEffect(k, ticks); }
      RunningUnlinked(k);
      SleepReady(k, ticks);
      Heads(k);
      var p := current;
      procs := procs[p := procs[p].(state := Asleep, wakeTime := -(clock + ticks), call := NoCall, release := Immediate)];
      assert View() == Write(k, p, Sleeping(k, ticks));
      QueueAdd(p, Sleepers);
      Scheduler();
    }

    // ----- msgqueue.c -----

    /** `psend`. */
    method PSendCall(f: Fid, message: int) returns (refused: bool)
      requires Inv(View()) && current != IDLE
      modifies this
      ensures View() == PSend(old(View()), f, message) && Inv(View())
      ensures refused <==> f !in old(queues)
      ensures !refused ==> Arrived(old(View()), View(), f, message)
    {
      hide MemberOf, SortedOf, SemsOk, TreeOk, IdleOk, ProcsOk, Schedule, Arrived;
      ghost var k := View();
      refused := f !in queues;
      if refused { return; }
      SendGoes(k, f, message);
      RunningUnlinked(k);
      QueueHeads(k, f);
      var q := queues[f];
      if IsEmpty(q.ring) && lists[Consumers(f)] != [] {
        NoteCall(InSend(message));
        ghost var k0 := View();
        HandOverKeeps(k0, f, message);
        HandToConsumer(f, message);
        Reschedule();
      } else if IsFull(q.ring) {
        SendBlocks(k, f, message);
        var p := current;
        procs := procs[p := Sending(procs[p], f, message)];
        assert View() == Write(k, p, Sending(k.procs[p], f, message));
        QueueAdd(p, Producers(f));
        Reschedule();
      } else {
        NoteCall(InSend(message));
        StoreKeeps(View(), f, message);
        queues := queues[f := q.(ring := Put(q.ring, message), accepted := q.accepted + [message])];
      }
    }

    /** The first branch of `psend`, in the order of its statements. */
    method HandToConsumer(f: Fid, message: int)
      requires Inv(View()) && f in queues && Consumers(f) in lists && lists[Consumers(f)] != []
      modifies this`procs, this`lists, this`queues
      ensures View() == HandOver(old(View()), f, message)
    {
      hide MemberOf, SortedOf, SemsOk, MsgsOk, TreeOk, IdleOk, ProcsOk;
      ghost var k := View();
      BlockedProc(k, Consumers(f));
      var blocked := QueueOut(Consumers(f));
      procs := procs[blocked := procs[blocked].(state := Activatable)];
      ghost var k1 := View();
      StateKeeps(KernelState.QueueDel(k, blocked), blocked, procs[blocked]);
      QueueAdd(blocked, Ready);
      var pr := procs[blocked];
      procs := procs[blocked := pr.(message := pr.message.(value := message, status := Received),
                                    release := Transferred(message))];
      var q := queues[f];
      queues := queues[f := q.(accepted := q.accepted + [message], delivered := q.delivered + [message])];
      LateFields(k, blocked, k1.procs[blocked], Handed(k.procs[blocked], message));
    }

    /** `preceive`; the message is written at once unless the caller has to wait for it. */
    method PReceiveCall(f: Fid) returns (refused: bool, message: Option<int>)
      requires Inv(View()) && current != IDLE
      modifies this
      ensures View() == PReceive(old(View()), f) && Inv(View())
      ensures refused <==> f !in old(queues)
      ensures message == ReceivedNow(old(View()), f)
    {
      hide MemberOf, SortedOf, SemsOk, MsgsOk, TreeOk, IdleOk, ProcsOk, Schedule;
      ghost var k := View();
      refused, message := f !in queues, None;
      if refused { return; }
      QueueHeads(k, f);
      var q := queues[f];
      if IsEmpty(q.ring) && lists[Producers(f)] != [] {
        var m := MeetProducer(f);
        message := Some(m);
      } else if IsEmpty(q.ring) {
        AwaitMessage(f);
      } else {
        DropOldest(q.ring);
        message := Some(q.ring.arr[OldestIndex(q.ring)]);
        NoteCall(InReceive);
        if IsFull(q.ring) && lists[Producers(f)] != [] {
          RefillKeeps(View(), f);
          TakeFromProducer(f, true);
          Reschedule();
        } else {
          FetchKeeps(View(), f);
          queues := queues[f := Fetched(q)];
        }
      }
    }

    /** The branch of `preceive` that takes the message of a producer from a queue that
        stores none. */
    method MeetProducer(f: Fid) returns (m: int)
      requires Inv(View()) && current != IDLE && f in queues && Producers(f) in lists
      requires IsEmpty(queues[f].ring) && lists[Producers(f)] != []
      modifies this
      ensures View() == PReceive(old(View()), f) && Inv(View()) && ReceivedNow(old(View()), f) == Some(m)
    {
      hide MemberOf, SortedOf, SemsOk, MsgsOk, TreeOk, IdleOk, ProcsOk, Schedule;
      ghost var k := View();
      QueueHeads(k, f);
      TopMember(k, Producers(f));
      m := procs[lists[Producers(f)][|lists[Producers(f)]| - 1]].message.value;
      NoteCall(InReceive);
      TakeDirectKeeps(View(), f);
      TakeFromProducer(f, false);
      Reschedule();
    }

    /** The branch of `preceive` that waits. */
    method AwaitMessage(f: Fid)
      requires Inv(View()) && current != IDLE && f in queues && Producers(f) in lists
      requires IsEmpty(queues[f].ring) && lists[Producers(f)] == []
      modifies this`procs, this`lists, this`current
      ensures View() == PReceive(old(View()), f) && Inv(View())
    {
      hide MemberOf, SortedOf, SemsOk, TreeOk, IdleOk, ProcsOk, Schedule;
      ghost var k := View();
      RunningUnlinked(k);
      ReceiveBlocks(k, f);
      var p := current;
      procs := procs[p := Receiving(procs[p], f)];
      assert View() == Write(k, p, Receiving(k.procs[p], f));
      QueueAdd(p, Consumers(f));
      Reschedule();
    }

    /** The two branches of `preceive` that release a producer. With a ring, the oldest
        message is popped first and the producer's message takes its place. */
    method TakeFromProducer(f: Fid, buffered: bool)
      requires Inv(View()) && f in queues && Producers(f) in lists && lists[Producers(f)] != []
      requires RingOk(queues[f].ring) && (buffered ==> !IsEmpty(queues[f].ring))
      modifies this`procs, this`lists, this`queues
      ensures View() == if buffered then Refill(old(View()), f) else TakeDirect(old(View()), f)
    {
      hide MemberOf, SortedOf, SemsOk, MsgsOk, TreeOk, IdleOk, ProcsOk, Stored;
      ghost var k := View();
      BlockedProc(k, Producers(f));
      var q := queues[f];
      var blocked := QueueOut(Producers(f));
      var m := procs[blocked].message.value;
      if buffered {
        DropOldest(q.ring);
        queues := queues[f := Appended(Fetched(q), m)];
      } else {
        queues := queues[f := q.(accepted := q.accepted + [m], delivered := q.delivered + [m])];
      }
      procs := procs[blocked := Taken(procs[blocked], buffered)];
      OtherQueues(KernelState.QueueDel(k, blocked), blocked, procs[blocked], f, queues[f]);
      QueueAdd(blocked, Ready);
    }

    /** The body of the loop of `free_blocked_queue`. */
    method AbandonTop(l: ListId)
      requires Member(View()) && l in lists && l != Ready && lists[l] != []
      modifies this`procs, this`lists
      ensures Member(View()) && l in lists && |lists[l]| < |old(lists)[l]|
      ensures ReleaseAll(View(), l) == ReleaseAll(old(View()), l)
    {
      hide MemberOf, SortedOf;
      ghost var k := View();
      TopMember(k, l);
      var curr := QueueOut(l);
      procs := procs[curr := Abandoned(procs[curr])];
      StateKeeps(KernelState.QueueDel(k, curr), curr, procs[curr]);
      QueueAdd(curr, Ready);
      AbandonOne(k, l);
    }

    /** `free_blocked_queue`. */
    method FreeBlockedQueue(l: ListId)
      requires Member(View()) && l in lists && l != Ready
      modifies this`procs, this`lists
      ensures View() == ReleaseAll(old(View()), l)
    {
      hide MemberOf, SortedOf;
      while lists[l] != []
        invariant Member(View()) && l in lists
        invariant ReleaseAll(View(), l) == ReleaseAll(old(View()), l)
        decreases |lists[l]|
      {
        AbandonTop(l);
      }
    }

    /** `preset`, which empties the ring before it releases the blocked processes. */
    method PResetCall(f: Fid) returns (refused: bool)
      requires Inv(View())
      modifies this
      ensures View() == PReset(old(View()), f) && Inv(View())
      ensures refused <==> f !in old(queues)
    {
      hide MemberOf, SortedOf, SemsOk, MsgsOk, TreeOk, IdleOk, ProcsOk, ReleaseAll, Schedule;
      refused := f !in queues;
      if refused { return; }
      NoteCall(NoCall);
      ghost var k0 := View();
      QueueHeads(k0, f);
      var blank := MsgQueue(Ring(queues[f].ring.arr, 0, 0), [], []);
      queues := queues[f := blank];
      QueueFieldsApart(k0, f, blank);
      BothReleasedBlank(k0, f, blank);
      FreeBlockedQueue(Consumers(f));
      FreeBlockedQueue(Producers(f));
      Reschedule();
    }

    /** `pdelete`. */
    method PDeleteCall(f: Fid) returns (refused: bool)
      requires Inv(View())
      modifies this
      ensures View() == PDelete(old(View()), f) && Inv(View())
      ensures refused <==> f !in old(queues)
    {
      hide MemberOf, SortedOf, SemsOk, MsgsOk, TreeOk, IdleOk, ProcsOk, ReleaseAll, Schedule;
      refused := f !in queues;
      if refused { return; }
      NoteCall(NoCall);
      ghost var k0 := View();
      QueueHeads(k0, f);
      ReleaseAllKeeps(k0, Consumers(f));
      FreeBlockedQueue(Consumers(f));
      ReleaseAllKeeps(View(), Producers(f));
      FreeBlockedQueue(Producers(f));
      DropQueueKeeps(View(), f);
      queues := queues - {f};
      lists := lists - {Consumers(f), Producers(f)};
      Reschedule();
    }

    /** `pcount`, with its length loops. */
    method PCountCall(f: Fid) returns (refused: bool, count: int)
      requires Inv(View())
      ensures refused <==> f !in queues
      ensures !refused ==> count == PCount(View(), f)
    {
      refused, count := f !in queues, 0;
      if refused { return; }
      QueueHeads(View(), f);
      if lists[Consumers(f)] != [] {
        var n := QueueLength(Consumers(f));
        count := -(n as int);
      } else {
        var n := QueueLength(Producers(f));
        count := queues[f].ring.num + n;
      }
    }

    /** `queue_length`. */
    method QueueLength(l: ListId) returns (len: nat)
      requires l in lists
      ensures len == |lists[l]|
    {
      len := 0;
      var rest := lists[l];
      while rest != []
        invariant len + |rest| == |lists[l]|
      {
        len, rest := len + 1, rest[1..];
      }
    }

    /** `pcreate`. */
    method PCreateCall(size: int) returns (r: int)
      requires Inv(View())
      modifies this
      ensures View() == PCreate(old(View()), size) && Inv(View())
      ensures r == if size < 0 then -1 else FirstFree(old(queues), 0)
    {
      hide MemberOf, SortedOf, SemsOk, MsgsOk, TreeOk, IdleOk, ProcsOk;
      if size < 0 { return -1; }
      r := 0;
      while r < NB_QUEUES && r in queues
        invariant 0 <= r <= NB_QUEUES
        invariant FirstFree(queues, 0) == FirstFree(queues, r)
      {
        r := r + 1;
      }
      if r == NB_QUEUES { return -1; }
      NoteCall(NoCall);
      NewQueueKeeps(View(), r, size);
      queues := queues[r := MsgQueue(Blank(size), [], [])];
      lists := lists[Consumers(r) := []][Producers(r) := []];
    }

    // ----- semaphore_api.c -----

    /** `unblock_process_sem`, in the order of its statements: 1 when nobody waits. */
    method UnblockProcessSem(id: SemId, code: int, why: Cause) returns (r: int)
      requires Member(View()) && id in sems
      requires sems[id].waiters != [] ==> sems[id].waiters[0] in procs && procs[sems[id].waiters[0]].link.Unlinked?
      modifies this`procs, this`lists, this`sems
      ensures r == if old(sems)[id].waiters == [] then 1 else 0
      ensures View() == if old(sems)[id].waiters == [] then old(View()) else Unblock(old(View()), id, code, why)
    {
      hide MemberOf, SortedOf;
      if sems[id].waiters == [] { return 1; }
      ghost var k := View();
      var s := sems[id];
      var p := s.waiters[0];
      var pr := procs[p];
      sems := sems[id := s.(waiters := s.waiters[1..])];
      procs := procs[p := pr.(state := Activatable)];
      ghost var k1 := k.(sems := sems);
      StateKeeps(k1, p, procs[p]);
      QueueAdd(p, Ready);
      procs := procs[p := procs[p].(semSignal := code, release := why)];
      LateAdd(k1, p, pr.(state := Activatable), pr.(state := Activatable, semSignal := code, release := why));
      return 0;
    }

    /** `wait`; the result is the early one, 0 when `sem_signal` is what the caller will get. */
    method WaitCall(id: SemId) returns (early: int)
      requires Inv(View()) && current != IDLE
      modifies this
      ensures View() == SWait(old(View()), id) && Inv(View())
      ensures early == if id !in old(sems) then -1 else if old(sems)[id].count == MIN_COUNT then -2 else 0
    {
      hide MemberOf, SortedOf, SemsOk, MsgsOk, TreeOk, IdleOk, ProcsOk, Schedule;
      if id !in sems { return -1; }
      ghost var k := View();
      RunningUnlinked(k);
      EnterWaitKeeps(k, id);
      WaitersKnown(k, id);
      var s := sems[id];
      procs := procs[current := procs[current].(semSignal := SIGNAL_CALL, call := InWait(id), release := WaitEntry(s))];
      if s.count == MIN_COUNT { return -2; }
      if s.count - 1 < 0 {
        JoinKeeps(View(), id);
        JoinWaiters(id);
      } else {
        SetCountKeeps(View(), id, s.count - 1);
        sems := sems[id := s.(count := s.count - 1)];
      }
      Reschedule();
      return 0;
    }

    /** The insertion loop of `wait`: before the first waiter of strictly lower priority. */
    method JoinWaiters(id: SemId)
      requires current in procs && id in sems
      requires forall i :: 0 <= i < |sems[id].waiters| ==> sems[id].waiters[i] in procs
      modifies this`procs, this`sems
      ensures View() == Join(old(View()), id)
    {
      var s := sems[id];
      var w := s.waiters;
      var prio := procs[current].prio;
      var i := 0;
      while i < |w| && prio <= procs[w[i]].prio
        invariant 0 <= i <= |w|
        invariant forall j :: 0 <= j < i ==> procs[w[j]].prio >= prio
      {
        i := i + 1;
      }
      assert i == WaitRank(WaiterPrios(procs, w), prio, 0);
      sems := sems[id := Sem(s.count - 1, InsertAt(w, i, current))];
      procs := procs[current := procs[current].(state := BlockedSemaphore, semId := id, release := Pending)];
    }

    /** `try_wait`. */
    method TryWaitCall(id: SemId) returns (r: int)
      requires Inv(View()) && current != IDLE
      modifies this
      ensures View() == STryWait(old(View()), id) && Inv(View())
      ensures r == if id !in old(sems) then -1 else if old(sems)[id].count <= 0 then -3 else 0
    {
      hide MemberOf, SortedOf, SemsOk, MsgsOk, TreeOk, IdleOk, ProcsOk, Schedule;
      if id !in sems { return -1; }
      if sems[id].count <= 0 { return -3; }
      WaitersKnown(View(), id);
      NoteCall(NoCall);
      SetCountKeeps(View(), id, sems[id].count - 1);
      sems := sems[id := sems[id].(count := sems[id].count - 1)];
      Reschedule();
      return 0;
    }

    /** `signal`, which leaves out its scheduling point while `parent_block` is set. */
    method SignalCall(id: SemId) returns (r: int)
      requires Inv(View().(parentBlock := false))
      modifies this
      ensures r == if id !in old(sems) then -1 else if old(sems)[id].count == MAX_COUNT then -2 else 0
      ensures r != 0 ==> View() == old(View())
      ensures !old(parentBlock) ==> View() == SSignal(old(View()), id) && Inv(View())
      ensures old(parentBlock) && r == 0 ==>
                View() == SignalOnce(old(View()).(parentBlock := false), id).(parentBlock := true)
    {
      hide MemberOf, SortedOf, SemsOk, MsgsOk, TreeOk, IdleOk, ProcsOk, Unblock, Enter, Schedule;
      if id !in sems { return -1; }
      WaitersKnown(View().(parentBlock := false), id);
      if sems[id].count == MAX_COUNT { return -2; }
      if !parentBlock {
        assert View() == View().(parentBlock := false);
        RunningUnlinked(View());
        NoteCall(NoCall);
        EnterSems(old(View()), NoCall);
      }
      ghost var k := View().(parentBlock := false);
      SignalOnceKeeps(k, id);
      var s := sems[id];
      sems := sems[id := s.(count := s.count + 1)];
      if s.count + 1 <= 0 {
        SignalUnblocks(k, id);
        FlagApart(View(), id, SIGNAL_CALL, Signalled);
        var done := UnblockProcessSem(id, SIGNAL_CALL, Signalled);
      }
      assert View().(parentBlock := false) == SignalOnce(k, id);
      if !parentBlock {
        assert View() == SignalOnce(k, id);
        Reschedule();
      }
      return 0;
    }

    /** `signaln`: the early return in its loop is never taken, so `parent_block` is
        set only while no other process can run. */
    method SignalNCall(id: SemId, count: int) returns (r: int)
      requires Inv(View())
      modifies this
      ensures View() == SSignalN(old(View()), id, count) && Inv(View())
      ensures r == if id !in old(sems) || count < 0 then -1 else if old(sems)[id].count + count > MAX_COUNT then -2 else 0
    {
      hide MemberOf, SortedOf, SemsOk, MsgsOk, TreeOk, IdleOk, ProcsOk, SignalOnce, Enter, Schedule;
      if id !in sems || count < 0 { return -1; }
      if sems[id].count + count > MAX_COUNT { return -2; }
      RunningUnlinked(View());
      NoteCall(NoCall);
      EnterSems(old(View()), NoCall);
      ghost var k := View();
      parentBlock := true;
      var i := 0;
      while i < count
        invariant 0 <= i <= count && parentBlock
        invariant Inv(View().(parentBlock := false)) && id in sems && sems[id].count + (count - i) <= MAX_COUNT
        invariant SignalMany(View().(parentBlock := false), id, count - i) == SignalMany(k, id, count)
      {
        SignalOnceKeeps(View().(parentBlock := false), id);
        var val := SignalCall(id);
        if val != 0 { assert false; }
        i := i + 1;
      }
      parentBlock := false;
      Reschedule();
      return 0;
    }

    /** The loop of `sreset` and `sdelete` that releases every waiter. */
    method UnblockEveryone(id: SemId, code: int, why: Cause)
      requires MidBut(View(), id) && EndOfSem(code, why)
      modifies this`procs, this`lists, this`sems
      ensures View() == UnblockAll(old(View()), id, code, why)
    {
      hide MemberOf, SortedOf, MsgsOk, TreeOk, IdleOk, ProcsOk, Unblock;
      var r := 0;
      while r != 1
        invariant MidBut(View(), id)
        invariant r == 1 ==> sems[id].waiters == []
        invariant UnblockAll(View(), id, code, why) == UnblockAll(old(View()), id, code, why)
        decreases |sems[id].waiters|, if r == 1 then 0 else 1
      {
        ghost var k := View();
        if sems[id].waiters != [] {
          UnblockReady(k, id);
          UnblockKeeps(k, id, code, why);
          UnblockEffect(k, id, code, why);
        }
        r := UnblockProcessSem(id, code, why);
      }
    }

    /** `sreset`. */
    method SResetCall(id: SemId, count: int) returns (r: int)
      requires Inv(View())
      modifies this
      ensures View() == SReset(old(View()), id, count)
      ensures r == if id !in old(sems) || count < 0 then -1 else 0
    {
      hide MemberOf, SortedOf, MsgsOk, TreeOk, IdleOk, ProcsOk, SemsOk, SemsBut, UnblockAll;
      if id !in sems || count < 0 { return -1; }
      NoteCall(NoCall);
      ghost var k0 := View();
      SelfMidBut(k0, id);
      ResetSemKeeps(k0, id, count);
      UnblockEveryone(id, SRESET_CALL, SemReset);
      UnblockAllKeeps(k0, id, SRESET_CALL, SemReset);
      sems := sems[id := sems[id].(count := ToInt16(count))];
      assert View() == ResetSem(k0, id, count);
      MidButMayLeave(View(), id);
      Scheduler();
      return 0;
    }

    /** `sdelete`. */
    method SDeleteCall(id: SemId) returns (r: int)
      requires Inv(View())
      modifies this
      ensures View() == SDelete(old(View()), id) && Inv(View())
      ensures r == if id !in old(sems) then -1 else 0
    {
      hide MemberOf, SortedOf, MsgsOk, TreeOk, IdleOk, ProcsOk, SemsOk, SemsBut, UnblockAll, Schedule;
      if id !in sems { return -1; }
      NoteCall(NoCall);
      ghost var k0 := View();
      SelfMidBut(k0, id);
      UnblockEveryone(id, SDELETE_CALL, SemDeleted);
      UnblockAllKeeps(k0, id, SDELETE_CALL, SemDeleted);
      DropSemKeeps(View(), id);
      sems := sems - {id};
      Reschedule();
      return 0;
    }

    // ----- process_api.c -----

    /** `chprio`: the relinking goes by the state field; the result is the old priority.
        Without result the process was to join a list that has been deleted. */
    method ChPrioCall(p: Pid, prio: int) returns (r: Option<int>)
      requires Inv(View())
      modifies this
      ensures r.None? <==> ChPrio(old(View()), p, prio).NoHead?
      ensures r.Some? ==> ChPrio(old(View()), p, prio) == Done(View())
      ensures r.Some? ==> r.value == if ChPrioAccepts(old(View()), p, prio) then old(procs)[p].prio else -1
      ensures r.Some? && ChPrioAccepts(old(View()), p, prio) ==> p in procs && procs[p].prio == prio
    {
      hide MemberOf, SortedOf, MsgsOk, TreeOk, IdleOk, ProcsOk, SemsOk, Schedule, Fits;
      if prio < MIN_PRIO || prio > MAX_PRIO || p !in procs { return Some(-1); }
      if procs[p].state.Killed? || procs[p].state.Zombie? { return Some(-1); }
      ghost var k := View();
      if ChPrio(k, p, prio).Done? { ChPrioEffect(k, p, prio); }
      FieldKnown(k, p);
      Heads(k);
      var pr := procs[p];
      r := Some(pr.prio);
      if pr.state.Activatable? || pr.state.Actif? { ChPrioWriteKeeps(k, p, prio); }
      if pr.state.Activatable? {
        Relink(p, Ready, prio);
      } else if pr.state.BlockedQueue? {
        if pr.message.blockedHead !in lists { return None; }
        Relink(p, pr.message.blockedHead, prio);
      } else if pr.state.BlockedIo? {
        Relink(p, Io, prio);
      } else {
        procs := procs[p := pr.(prio := prio)];
      }
      assert Done(View()) == ChPrioWrite(k, p, prio);
      if pr.state.Activatable? || pr.state.Actif? {
        Reschedule();
      }
    }

    /** `start` with valid arguments, for a pid and message fields given by the caller. */
    method StartCall(p: Pid, prio: int, junk: Message)
      requires Inv(View()) && p !in procs && MIN_PRIO <= prio <= MAX_PRIO
      modifies this
      ensures View() == Start(old(View()), p, prio, junk) && Inv(View())
    {
      hide MemberOf, SortedOf, MsgsOk, TreeOk, IdleOk, ProcsOk, SemsOk, Schedule;
      RunningUnlinked(View());
      var caller := procs[current].prio;
      NoteCall(NoCall);
      ghost var k0 := View();
      SpawnKeeps(k0, p, prio, junk);
      BornMember(k0, p, prio, junk);
      Heads(k0);
      procs := procs[current := WithChild(procs[current], p, births)][p := NewProc(current, prio, junk, births)];
      births := births + 1;
      QueueAdd(p, Ready);
      if caller < prio {
        Reschedule();
      }
    }

    /** The search of `remove_proc_queue` through the middle of the list, with its test. */
    method SearchWaiters(w: seq<Pid>, p: Pid) returns (w': seq<Pid>, found: Option<Pid>)
      ensures (w', found) == Searched(w, Other(p))
    {
      var iter, prev := 0, 0;
      while iter < |w|
        invariant 0 <= iter <= |w| && prev == if iter == 0 then 0 else iter - 1
        invariant SearchFrom(w, Other(p), iter) == SearchFrom(w, Other(p), 0)
      {
        if w[iter] != p {
          return w[..prev + 1] + w[iter + 1..], Some(w[iter]);
        }
        prev, iter := iter, iter + 1;
      }
      return w, None;
    }

    /** `proc_kill_diag` with `remove_proc_queue`. */
    method LeaveSemaphore(p: Pid)
      requires p in procs && procs[p].semId in sems
      requires forall i :: 0 <= i < |sems[procs[p].semId].waiters| ==> sems[procs[p].semId].waiters[i] in procs
      modifies this`procs, this`sems
      ensures View() == KillWaiter(old(View()), p)
    {
      var id := procs[p].semId;
      var s := sems[id];
      if s.count == MAX_COUNT { return; }
      if s.count + 1 > 0 {
        sems := sems[id := s.(count := s.count + 1)];
        return;
      }
      var w := s.waiters;
      var found: Option<Pid> := None;
      if w == [] {
      } else if |w| == 1 {
        if w[0] == p { w, found := [], Some(p); }
      } else if w[0] == p {
        w, found := w[1..], Some(p);
      } else if w[|w| - 1] == p {
        var iter := 0;
        while iter + 1 != |w| - 1
          invariant 0 <= iter < |w| - 1
        {
          iter := iter + 1;
        }
        w, found := w[..iter + 1], Some(p);
      } else {
        w, found := SearchWaiters(w, p);
      }
      sems := sems[id := Sem(s.count + 1, w)];
      if found.Some? && found.value in procs {
        procs := procs[found.value := procs[found.value].(state := Activatable, semSignal := KILL_CALL)];
      }
    }

    /** `make_children_orphans_and_kill_zombies`: the walk over a list of children. It is
        given up at a process that has been freed. */
    method FreeEndedChildren(es: seq<Child>, ghost lo: nat) returns (ok: bool)
      requires Ages(procs, births) && Within(es, lo, births)
      modifies this`procs
      ensures ok <==> SweepFrom(old(procs), es, lo, births).Swept?
      ensures ok ==> SweepFrom(old(procs), es, lo, births) == Swept(procs)
      decreases births - lo
    {
      var i := 0;
      while i < |es|
        invariant 0 <= i <= |es| && Ages(procs, births)
        invariant SweepFrom(procs, es[i..], lo, births) == SweepFrom(old(procs), es, lo, births)
      {
        var e := es[i];
        assert es[i..][0] == e && es[i..][1..] == es[i + 1..];
        if !Present(procs, e) { return false; }
        if procs[e.pid].state.Zombie? {
          assert Aged(procs[e.pid], births);
          var below := FreeEndedChildren(procs[e.pid].children, e.born);
          if !below { return false; }
          procs := procs - {e.pid};
        }
        i := i + 1;
      }
      return true;
    }

    /** `turn_current_process_into_a_zombie_or_kill_it`. */
    method EndCall(p: Pid) returns (ok: bool)
      requires Endable(View(), p)
      modifies this`procs, this`lists
      ensures ok <==> End(old(View()), p).Done?
      ensures ok ==> End(old(View()), p) == Done(View())
    {
      hide MemberOf, SortedOf, TreeOk;
      ghost var k := View();
      EndMember(k, p);
      SweepExact(k.procs, k.births, p);
      var pr := procs[p].(call := NoCall, release := Immediate);
      var collected := pr.parent.Some? && pr.parent.value in procs && !procs[pr.parent.value].state.Zombie?;
      assert Aged(procs[p], births);
      ok := FreeEndedChildren(pr.children, pr.born);
      if !ok { return; }
      if collected {
        procs := procs[p := pr.(state := Zombie)];
        assert View() == k.(procs := EndProcs(k.procs, k.current, p));
        var q := pr.parent.value;
        if procs[q].state.BlockedWaitChild? {
          Heads(View());
          StateKeeps(View(), q, procs[q].(state := Activatable));
          procs := procs[q := procs[q].(state := Activatable)];
          QueueAdd(q, Ready);
        }
      } else if p == current {
        procs := procs[p := pr.(state := Killed)];
      } else {
        procs := procs - {p};
      }
    }

    /** `kill`; a process that kills itself goes on to `scheduler()`. Without result the
        assertion of `queue_del` has failed, or the walk over the children has come to a
        process that has been freed. */
    method KillCall(p: Pid) returns (r: Option<int>)
      requires Inv(View()) && current != IDLE
      modifies this
      ensures r.None? <==> !Kill(old(View()), p).Done?
      ensures r.Some? ==> Kill(old(View()), p) == Done(View())
      ensures r.Some? ==> r.value == if KillAccepts(old(View()), p) then 0 else -1
    {
      hide MemberOf, SortedOf, SemsOk, MsgsOk, TreeOk, IdleOk, ProcsOk, EndProcess, KillWaiter, Dispatch, Endable, SameFate, End, Exit;
      if p == IDLE || p == KERNEL || p !in procs { return Some(-1); }
      if procs[p].state.Killed? || procs[p].state.Zombie? { return Some(-1); }
      ghost var k := View();
      if p == current {
        var ok := ExitCall();
        return if ok then Some(0) else None;
      }
      LeaveEndable(k, p);
      if procs[p].state.BlockedSemaphore? {
        WaiterListed(k, p);
        LeaveSemaphore(p);
      } else {
        if procs[p].link.Unlinked? { return None; }
        QueueDel(p);
      }
      var ok := EndCall(p);
      return if ok then Some(0) else None;
    }

    /** `exit_process`. */
    method ExitCall() returns (ok: bool)
      requires Inv(View()) && current != IDLE
      modifies this
      ensures ok <==> Exit(old(View())).Done?
      ensures ok ==> Exit(old(View())) == Done(View())
    {
      hide Inv, EndProcess, Dispatch, Endable, ListsWhole, CurrentMayLeave;
      ExitMayLeave(View());
      ok := EndCall(current);
      if ok { Scheduler(); }
    }

    /** `waitpid`: the pid of the child freed, -1 if there is no such child, and no result
        if the caller waits. */
    method WaitPidCall(c: int) returns (r: Option<int>)
      requires Inv(View()) && current != IDLE
      modifies this
      ensures View() == WaitChild(old(View()), c)
      ensures r == Answer(old(View()), c)
      ensures old(current) in old(procs) && WaitAnswer(old(View()), c, r)
    {
      hide MemberOf, SortedOf, SemsOk, MsgsOk, TreeOk, IdleOk, ProcsOk, Schedule, WaitAnswer;
      ghost var k := View();
      OwnChildren(k);
      WaitAnswers(k, c);
      var es := procs[current].children;
      if es == [] { return Some(-1); }
      var i := 0;
      while i < |es| && !(if c < 0 then procs[es[i].pid].state.Zombie? else es[i].pid == c)
        invariant 0 <= i <= |es| && Sought(procs, es, c, i) == Sought(procs, es, c, 0)
      {
        i := i + 1;
      }
      if i == |es| && c >= 0 { return Some(-1); }
      NoteCall(NoCall);
      if i < |es| && procs[es[i].pid].state.Zombie? {
        var child := es[i].pid;
        procs := procs[current := procs[current].(children := RemoveAt(es, i))] - {child};
        return Some(child);
      }
      WaitChildKeeps(View());
      procs := procs[current := procs[current].(state := BlockedWaitChild)];
      Reschedule();
      return None;
    }

    /** The end of `handle_keyboard_interrupt`. */
    method KeyboardInterrupt()
      requires Inv(View())
      modifies this
      ensures View() == KeyPress(old(View())) && Inv(View())
    {
      hide MemberOf, SortedOf, SemsOk, MsgsOk, TreeOk, IdleOk, ProcsOk, Schedule;
      ghost var k := View();
      Heads(k);
      if lists[Io] == [] { return; }
      KeyPressKeeps(k);
      TopMember(k, Io);
      var p := QueueOut(Io);
      procs := procs[p := procs[p].(state := Activatable)];
      StateKeeps(KernelState.QueueDel(k, p), p, procs[p]);
      QueueAdd(p, Ready);
      Reschedule();
    }

    /** `queue_del` and `queue_add` around the write of the priority. */
    method Relink(p: Pid, l: ListId, prio: int)
      requires Member(View()) && p in procs && procs[p].link.LinkedIn? && l in lists
      modifies this`procs, this`lists
      ensures View() == Requeue(old(View()), p, l, prio)
    {
      hide MemberOf, SortedOf;
      ghost var k := View();
      QueueDel(p);
      procs := procs[p := procs[p].(prio := prio)];
      StateKeeps(KernelState.QueueDel(k, p), p, procs[p]);
      QueueAdd(p, l);
    }
  }

  lemma EnterSems(k: K, call: Call)
    requires k.current in k.procs
    ensures Enter(k, call).sems == k.sems && Enter(k, call).parentBlock == k.parentBlock
  {}

  /** Releasing a waiter does not look at `parent_block`. */
  lemma FlagApart(k: K, id: SemId, code: int, why: Cause)
    requires Member(k) && id in k.sems && k.sems[id].waiters != []
    requires k.sems[id].waiters[0] in k.procs && k.procs[k.sems[id].waiters[0]].link.Unlinked?
    ensures Member(k.(parentBlock := false))
    ensures Unblock(k.(parentBlock := false), id, code, why) == Unblock(k, id, code, why).(parentBlock := false)
    ensures Unblock(k, id, code, why).parentBlock == k.parentBlock
  {
    hide MemberOf, SortedOf;
    Heads(k);
  }

  /** Fields that are not the sort key may be written before or after `queue_add`. */
  lemma LateAdd(k: K, p: Pid, early: Proc, late: Proc)
    requires Member(k) && p in k.procs && k.procs[p].link.Unlinked?
    requires early.link.Unlinked? && late.link.Unlinked? && early.prio == late.prio
    requires Member(SetProc(k, p, early)) && Ready in k.lists
    ensures var k1 := KernelState.QueueAdd(SetProc(k, p, early), Ready, p);
            KernelState.QueueAdd(Write(k, p, late), Ready, p) == SetProc(k1, p, late.(link := LinkedIn(Ready)))
  {
    hide MemberOf, SortedOf;
    var k1 := KernelState.QueueAdd(SetProc(k, p, early), Ready, p);
    assert KernelState.QueueAdd(Write(k, p, late), Ready, p).procs == SetProc(k1, p, late.(link := LinkedIn(Ready))).procs;
    ReadyWithout(k, p);
    KeysFrame(SetProc(k, p, early).procs, SetProc(k, p, late).procs, Ready, k.lists[Ready]);
  }

  /** Freeing one dead process is a step towards freeing all of them. */
  lemma FreeOne(k: K, k': K, p: Pid)
    requires Member(k) && Dead in k.lists && k.lists[Dead] != [] && p == Top(k, Dead) && p in k.procs
    requires k.procs[p].link == LinkedIn(Dead)
    requires k' == KernelState.QueueDel(k, p).(procs := KernelState.QueueDel(k, p).procs - {p})
    ensures Member(k') && FreeDead(k') == FreeDead(k) && Dead in k'.lists
    ensures |k'.lists[Dead]| < |k.lists[Dead]|
  {
    hide MemberOf, SortedOf;
    ListOf(k, p);
    var k1 := KernelState.QueueDel(k, p);
    DropMember(k1, k'.procs);
    Heads(k');
    assert FreeDead(k').procs == FreeDead(k).procs;
    assert FreeDead(k').lists == FreeDead(k).lists;
  }

  lemma AllFreed(k: K)
    requires Member(k) && Dead in k.lists && k.lists[Dead] == []
    ensures FreeDead(k) == k
  {
    forall p | p in k.procs ensures k.procs[p].link != LinkedIn(Dead) {
      ListHas(k, Dead, p);
    }
    assert FreeDead(k).procs == k.procs;
    assert k.lists[Dead := []] == k.lists;
  }

  lemma StateKeeps(k: K, p: Pid, pr: Proc)
    requires Member(k) && p in k.procs && pr.link == k.procs[p].link
    ensures Member(SetProc(k, p, pr)) && (Ready in k.lists)
  {
    SetKeeps(k, p, pr);
    Heads(k);
  }

  /** Fields that are not the sort key may be written before or after `queue_add`. */
  lemma LateFields(k: K, p: Pid, early: Proc, late: Proc)
    requires Member(k) && p in k.procs && k.procs[p].link.LinkedIn?
    requires early.link.Unlinked? && late.link.Unlinked? && early.prio == late.prio
    requires Member(SetProc(KernelState.QueueDel(k, p), p, early)) && Ready in k.lists
    ensures var k1 := KernelState.QueueAdd(SetProc(KernelState.QueueDel(k, p), p, early), Ready, p);
            Release(k, p, late) == SetProc(k1, p, late.(link := LinkedIn(Ready)))
  {
    hide MemberOf, SortedOf;
    ListOf(k, p);
    var d := KernelState.QueueDel(k, p);
    var k1 := KernelState.QueueAdd(SetProc(d, p, early), Ready, p);
    assert Release(k, p, late).procs == SetProc(k1, p, late.(link := LinkedIn(Ready))).procs;
    ReadyWithout(d, p);
    KeysFrame(SetProc(d, p, early).procs, SetProc(d, p, late).procs, Ready, d.lists[Ready]);
  }

  lemma ReadyWithout(k: K, p: Pid)
    requires Member(k) && p in k.procs && k.procs[p].link.Unlinked?
    ensures Ready in k.lists
    ensures forall i :: 0 <= i < |k.lists[Ready]| ==> k.lists[Ready][i] in k.procs && k.lists[Ready][i] != p
  {
    assert Holds(k.procs, Ready, k.lists[Ready]);
  }

  /** Message queues' own fields do not matter to the lists. */
  lemma OtherQueues(k: K, p: Pid, pr: Proc, f: Fid, q: MsgQueue)
    requires Member(k) && p in k.procs && pr.link == k.procs[p].link && f in k.queues
    ensures Member(SetQueue(SetProc(k, p, pr), f, q)) && Ready in k.lists
  {
    SetKeeps(k, p, pr);
    Heads(k);
  }

  lemma AbandonOne(k: K, l: ListId)
    requires Member(k) && l in k.lists && l != Ready && k.lists[l] != []
    ensures var t := Top(k, l);
            && t in k.procs && k.procs[t].link == LinkedIn(l)
            && var k1 := Release(k, t, Abandoned(k.procs[t]));
            && Member(k1) && l in k1.lists && |k1.lists[l]| < |k.lists[l]|
            && ReleaseAll(k1, l) == ReleaseAll(k, l)
  {
    hide MemberOf, SortedOf, Release;
    TopMember(k, l);
    var t := Top(k, l);
    ReleaseMember(k, t, Abandoned(k.procs[t]));
    ReleaseEffect(k, t, Abandoned(k.procs[t]));
  }

  lemma ReleaseMember(k: K, p: Pid, pr: Proc)
    requires Member(k) && p in k.procs && k.procs[p].link.LinkedIn? && pr.link.Unlinked?
    ensures Member(Release(k, p, pr))
  {}

  lemma QueueFieldsApart(k: K, f: Fid, q: MsgQueue)
    requires Member(k) && f in k.queues
    ensures Member(SetQueue(k, f, q))
  {}

  /** Releasing processes does not look at the fields of message queues. */
  lemma {:induction false} ReleaseAllQueue(k: K, l: ListId, f: Fid, q: MsgQueue)
    requires Member(k) && l in k.lists && l != Ready && f in k.queues && Member(SetQueue(k, f, q))
    ensures ReleaseAll(SetQueue(k, f, q), l) == SetQueue(ReleaseAll(k, l), f, q)
    ensures f in ReleaseAll(k, l).queues
    decreases |k.lists[l]|
  {
    hide MemberOf, SortedOf, Release;
    if k.lists[l] != [] {
      TopMember(k, l);
      var t := Top(k, l);
      var pr := Abandoned(k.procs[t]);
      ReleaseMember(k, t, pr);
      ReleaseEffect(k, t, pr);
      ReleaseQueue(k, t, pr, f, q);
      QueueFieldsApart(Release(k, t, pr), f, q);
      ReleaseAllQueue(Release(k, t, pr), l, f, q);
    }
  }

  lemma ReleaseQueue(k: K, p: Pid, pr: Proc, f: Fid, q: MsgQueue)
    requires Member(k) && p in k.procs && k.procs[p].link.LinkedIn? && pr.link.Unlinked?
    requires f in k.queues && Member(SetQueue(k, f, q))
    ensures Release(SetQueue(k, f, q), p, pr) == SetQueue(Release(k, p, pr), f, q)
  {
    hide MemberOf, SortedOf;
    ListOf(k, p);
  }

  /** Emptying the ring first or last makes no difference. */
  lemma BothReleasedBlank(k: K, f: Fid, q: MsgQueue)
    requires Inv(k) && f in k.queues && q == MsgQueue(Ring(k.queues[f].ring.arr, 0, 0), [], [])
    requires Member(SetQueue(k, f, q)) && Consumers(f) in k.lists && Producers(f) in k.lists
    ensures Member(ReleaseAll(SetQueue(k, f, q), Consumers(f)))
    ensures Producers(f) in ReleaseAll(SetQueue(k, f, q), Consumers(f)).lists
    ensures ReleaseAll(ReleaseAll(SetQueue(k, f, q), Consumers(f)), Producers(f)) == SetQueue(ReleaseBoth(k, f), f, q)
    ensures Mid(SetQueue(ReleaseBoth(k, f), f, q))
  {
    hide MemberOf, SortedOf, SemsOk, MsgsOk, TreeOk, IdleOk, ProcsOk, ReleaseAll;
    ReleaseAllQueue(k, Consumers(f), f, q);
    ReleaseAllKeeps(k, Consumers(f));
    var k1 := ReleaseAll(k, Consumers(f));
    QueueFieldsApart(k1, f, q);
    ReleaseAllQueue(k1, Producers(f), f, q);
    ReleaseAllKeeps(k1, Producers(f));
    var k2 := ReleaseAll(k1, Producers(f));
    BlankMsg(k.queues[f].ring.arr, k2.lists[Consumers(f)], k2.lists[Producers(f)]);
    SetQueueKeeps(k2, f, q);
  }
}
