/**
  The state shared by the scheduler, the semaphores, the message queues and the
  sleep queue, and the effect of every system call on it up to its call of
  `scheduler()`, which is included. A context switch is a change of `current`.

  An intrusive `next_prev` link is modelled by the list it belongs to (`link`),
  with `Unlinked` for a pair of null pointers, and each list head by an entry of
  `lists` holding its elements from the head's `next` on (see `LinkQueue`).

  `call` and `release` are history variables: the system call the process is in,
  and what ended its wait. No other field ever depends on them.
  */
module KernelState {
  import opened Common
  import opened PriorityOrder
  import opened MessageRing

  type Pid = int
  type SemId = int
  type Fid = int

  const IDLE: Pid := 1
  const KERNEL: Pid := 0
  const MIN_PRIO := 1
  const MAX_PRIO := 256
  const MAX_COUNT := 32767
  const MIN_COUNT := -32768
  const NB_QUEUES := 100
  const SIGNAL_CALL := 0
  const SDELETE_CALL := -3
  const SRESET_CALL := -4

  datatype PState =
    | Actif | Activatable | BlockedSemaphore | BlockedIo | BlockedQueue
    | BlockedWaitChild | Asleep | Zombie | Killed

  datatype ListId = Ready | Sleepers | Io | Dead | Consumers(fid: Fid) | Producers(fid: Fid)

  datatype LinkTo = Unlinked | LinkedIn(list: ListId)

  datatype Status = Received | Error | Sent

  datatype Message = Message(value: int, status: Status, blockedHead: ListId)

  datatype Call = NoCall | InWait(sem: SemId) | InSend(sent: int) | InReceive

  datatype Cause = Immediate | Refused | Pending | Signalled | SemDeleted | SemReset | Transferred(value: int) | QueueReset

  /** An entry of a list of children: a pointer to a process. Pids are used again, so the
      number of the process in the order of creation says which one is meant. */
  datatype Child = Child(pid: Pid, born: nat)

  datatype Proc = Proc(
    state: PState, prio: int, link: LinkTo, wakeTime: int,
    semSignal: int, semId: SemId, message: Message, parent: Option<Pid>,
    born: nat, children: seq<Child>, call: Call, release: Cause)

  datatype Sem = Sem(count: int, waiters: seq<Pid>)

  /** A message queue; `accepted` and `delivered` are the messages taken in and handed out since the last reset. */
  datatype MsgQueue = MsgQueue(ring: Ring, accepted: seq<int>, delivered: seq<int>)

  datatype K = K(
    procs: map<Pid, Proc>, lists: map<ListId, seq<Pid>>, current: Pid, clock: nat,
    sems: map<SemId, Sem>, queues: map<Fid, MsgQueue>, parentBlock: bool, births: nat)

  // ----- well-formedness of the lists -----

  /** The sort key: `wake_time` in the sleep queue, `prio` everywhere else. */
  function Key(l: ListId, pr: Proc): int {
    if l.Sleepers? then pr.wakeTime else pr.prio
  }

  function Keys(procs: map<Pid, Proc>, l: ListId, s: seq<Pid>): (ks: seq<int>)
    requires forall i :: 0 <= i < |s| ==> s[i] in procs
    ensures |ks| == |s| && forall i :: 0 <= i < |s| ==> ks[i] == Key(l, procs[s[i]])
  {
    seq(|s|, i requires 0 <= i < |s| => Key(l, procs[s[i]]))
  }

  /** List l holds exactly the processes whose link points into it, each once. */
  ghost predicate Holds(procs: map<Pid, Proc>, l: ListId, s: seq<Pid>) {
    && Distinct(s)
    && (forall i :: 0 <= i < |s| ==> s[i] in procs && procs[s[i]].link == LinkedIn(l))
    && (forall p :: p in procs && procs[p].link == LinkedIn(l) ==> p in s)
  }

  /** The heads that exist: the four global ones and two for each message queue. */
  predicate IsHead(queues: map<Fid, MsgQueue>, l: ListId) {
    match l
    case Consumers(f) => f in queues
    case Producers(f) => f in queues
    case Ready => true
    case Sleepers => true
    case Io => true
    case Dead => true
  }

  ghost predicate MemberOf(procs: map<Pid, Proc>, lists: map<ListId, seq<Pid>>, queues: map<Fid, MsgQueue>) {
    && (forall l :: l in lists <==> IsHead(queues, l))
    && (forall l :: l in lists ==> Holds(procs, l, lists[l]))
    && (forall p :: p in procs && procs[p].link.LinkedIn? ==> procs[p].link.list in lists)
  }

  /** Every process is in exactly the list its link says, if any. */
  ghost predicate Member(k: K) {
    MemberOf(k.procs, k.lists, k.queues)
  }

  ghost predicate SortedOf(procs: map<Pid, Proc>, lists: map<ListId, seq<Pid>>)
    requires forall l, i :: l in lists && 0 <= i < |lists[l]| ==> lists[l][i] in procs
  {
    forall l :: l in lists ==> Ascending(Keys(procs, l, lists[l]))
  }

  /** Every list is in ascending order of its key. */
  ghost predicate Sorted(k: K)
    requires Member(k)
  {
    SortedOf(k.procs, k.lists)
  }

  // ----- queue primitives -----

  function SetProc(k: K, p: Pid, pr: Proc): K {
    k.(procs := k.procs[p := pr])
  }

  function Added(k: K, l: ListId, p: Pid): K
    requires Member(k) && l in k.lists
    requires p in k.procs && k.procs[p].link.Unlinked?
  {
    var s := k.lists[l];
    k.(lists := k.lists[l := InsertAt(s, Rank(Keys(k.procs, l, s), Key(l, k.procs[p])), p)],
       procs := k.procs[p := k.procs[p].(link := LinkedIn(l))])
  }

  function Deleted(k: K, p: Pid): K
    requires Member(k)
    requires p in k.procs && k.procs[p].link.LinkedIn?
  {
    var l := k.procs[p].link.list;
    k.(lists := k.lists[l := RemoveAt(k.lists[l], IndexOf(k.lists[l], p))],
       procs := k.procs[p := k.procs[p].(link := Unlinked)])
  }

  /** `queue_top(l)`. */
  function Top(k: K, l: ListId): (p: Pid)
    requires l in k.lists && k.lists[l] != []
    ensures p in k.lists[l]
  {
    k.lists[l][|k.lists[l]| - 1]
  }

  lemma KeysFrame(procs: map<Pid, Proc>, procs': map<Pid, Proc>, l: ListId, s: seq<Pid>)
    requires forall i :: 0 <= i < |s| ==>
               s[i] in procs && s[i] in procs' && Key(l, procs[s[i]]) == Key(l, procs'[s[i]])
    ensures Keys(procs, l, s) == Keys(procs', l, s)
  {}

  /** Relinking p does not concern a list that neither held nor will hold it. */
  lemma HoldsOther(procs: map<Pid, Proc>, p: Pid, link: LinkTo, m: ListId, s: seq<Pid>)
    requires Holds(procs, m, s) && p in procs
    requires procs[p].link != LinkedIn(m) && link != LinkedIn(m)
    ensures var procs' := procs[p := procs[p].(link := link)];
            Holds(procs', m, s) && Keys(procs', m, s) == Keys(procs, m, s)
  {}

  lemma InsertHas(s: seq<Pid>, r: nat, p: Pid, q: Pid)
    requires r <= |s|
    ensures q in InsertAt(s, r, p) <==> q == p || q in s
  {
    var s' := InsertAt(s, r, p);
    assert s'[r] == p;
    if q in s {
      var i :| 0 <= i < |s| && s[i] == q;
      assert s'[if i < r then i else i + 1] == q;
    }
  }

  lemma HoldsInsert(procs: map<Pid, Proc>, p: Pid, l: ListId, s: seq<Pid>, r: nat)
    requires Holds(procs, l, s) && p in procs && procs[p].link != LinkedIn(l) && r <= |s|
    ensures var procs' := procs[p := procs[p].(link := LinkedIn(l))];
            && Holds(procs', l, InsertAt(s, r, p))
            && Keys(procs', l, InsertAt(s, r, p)) == InsertAt(Keys(procs, l, s), r, Key(l, procs[p]))
  {
    var procs' := procs[p := procs[p].(link := LinkedIn(l))];
    forall q | q in procs' && procs'[q].link == LinkedIn(l) ensures q in InsertAt(s, r, p) {
      InsertHas(s, r, p, q);
    }
  }

  lemma HoldsRemove(procs: map<Pid, Proc>, p: Pid, l: ListId, s: seq<Pid>, r: nat)
    requires Holds(procs, l, s) && r < |s| && s[r] == p
    ensures var procs' := procs[p := procs[p].(link := Unlinked)];
            && Holds(procs', l, RemoveAt(s, r))
            && Keys(procs', l, RemoveAt(s, r)) == RemoveAt(Keys(procs, l, s), r)
  {
    var procs' := procs[p := procs[p].(link := Unlinked)];
    var s' := RemoveAt(s, r);
    forall q | q in procs' && procs'[q].link == LinkedIn(l) ensures q in s' {
      var i :| 0 <= i < |s| && s[i] == q;
      assert s'[if i < r then i else i - 1] == q;
    }
  }

  lemma AddKeeps(k: K, l: ListId, p: Pid)
    requires Member(k) && l in k.lists
    requires p in k.procs && k.procs[p].link.Unlinked?
    ensures Member(Added(k, l, p))
    ensures Sorted(k) ==> Sorted(Added(k, l, p))
  {
    var k' := Added(k, l, p);
    var s := k.lists[l];
    var x := Key(l, k.procs[p]);
    HoldsInsert(k.procs, p, l, s, Rank(Keys(k.procs, l, s), x));
    forall m | m in k.lists && m != l
      ensures Holds(k'.procs, m, k.lists[m]) && Keys(k'.procs, m, k.lists[m]) == Keys(k.procs, m, k.lists[m])
    {
      HoldsOther(k.procs, p, LinkedIn(l), m, k.lists[m]);
    }
    assert Member(k');
    if Sorted(k) {
      InsertAscending(Keys(k.procs, l, s), x);
    }
  }

  lemma DelKeeps(k: K, p: Pid)
    requires Member(k)
    requires p in k.procs && k.procs[p].link.LinkedIn?
    ensures Member(Deleted(k, p))
    ensures Sorted(k) ==> Sorted(Deleted(k, p))
  {
    var k' := Deleted(k, p);
    var l := k.procs[p].link.list;
    var s := k.lists[l];
    HoldsRemove(k.procs, p, l, s, IndexOf(s, p));
    forall m | m in k.lists && m != l
      ensures Holds(k'.procs, m, k.lists[m]) && Keys(k'.procs, m, k.lists[m]) == Keys(k.procs, m, k.lists[m])
    {
      HoldsOther(k.procs, p, Unlinked, m, k.lists[m]);
    }
    assert Member(k');
    if Sorted(k) {
      RemoveAscending(Keys(k.procs, l, s), IndexOf(s, p));
    }
  }

  /** `queue_add(p, l)`; its assertion is the precondition on the link. */
  function QueueAdd(k: K, l: ListId, p: Pid): (r: K)
    requires Member(k) && l in k.lists
    requires p in k.procs && k.procs[p].link.Unlinked?
    ensures Member(r) && (Sorted(k) ==> Sorted(r))
  {
    AddKeeps(k, l, p);
    Added(k, l, p)
  }

  /** `queue_del(p)`; its assertion is the precondition on the link. */
  function QueueDel(k: K, p: Pid): (r: K)
    requires Member(k)
    requires p in k.procs && k.procs[p].link.LinkedIn?
    ensures Member(r) && (Sorted(k) ==> Sorted(r))
  {
    DelKeeps(k, p);
    Deleted(k, p)
  }

  /** An assignment to fields of p other than its link. */
  function Write(k: K, p: Pid, pr: Proc): (r: K)
    requires Member(k) && p in k.procs && pr.link == k.procs[p].link
    ensures Member(r)
    ensures Sorted(k) && (pr.link.LinkedIn? ==> Key(pr.link.list, pr) == Key(pr.link.list, k.procs[p])) ==> Sorted(r)
  {
    SetKeeps(k, p, pr);
    SetProc(k, p, pr)
  }

  /** Rewriting a process without touching its link keeps the lists well formed, and
      sorted unless a linked process changes its key. */
  lemma SetKeeps(k: K, p: Pid, pr: Proc)
    requires Member(k) && p in k.procs && pr.link == k.procs[p].link
    ensures Member(SetProc(k, p, pr))
    ensures Sorted(k) && (pr.link.LinkedIn? ==> Key(pr.link.list, pr) == Key(pr.link.list, k.procs[p]))
            ==> Sorted(SetProc(k, p, pr))
  {
    var k' := SetProc(k, p, pr);
    forall m | m in k'.lists ensures Holds(k'.procs, m, k'.lists[m]) {
      assert Holds(k.procs, m, k.lists[m]);
    }
    assert Member(k');
    if Sorted(k) && (pr.link.LinkedIn? ==> Key(pr.link.list, pr) == Key(pr.link.list, k.procs[p])) {
      forall m | m in k'.lists ensures Ascending(Keys(k'.procs, m, k'.lists[m])) {
        KeysFrame(k.procs, k'.procs, m, k.lists[m]);
      }
    }
  }

  lemma Heads(k: K)
    requires Member(k)
    ensures Ready in k.lists && Sleepers in k.lists && Io in k.lists && Dead in k.lists
  {}

  lemma TopMember(k: K, l: ListId)
    requires Member(k) && l in k.lists && k.lists[l] != []
    ensures Top(k, l) in k.procs && k.procs[Top(k, l)].link == LinkedIn(l)
  {
    assert Holds(k.procs, l, k.lists[l]);
  }

  // ----- the scheduler -----

  /** Guard of the wake-up loop: the earliest sleeper is due. A wake time of 0 reads as "no sleeper". */
  predicate Due(k: K)
    requires Member(k)
  {
    && k.lists[Sleepers] != []
    && var w := -k.procs[Top(k, Sleepers)].wakeTime;
    && w != 0 && k.clock > w
  }

  /** Body of the wake-up loop: the state field is left as it is. */
  function AwakeOne(k: K): (r: K)
    requires Member(k) && k.lists[Sleepers] != []
    ensures Member(r) && (Sorted(k) ==> Sorted(r))
    ensures |r.lists[Sleepers]| < |k.lists[Sleepers]|
  {
    Heads(k);
    TopMember(k, Sleepers);
    var p := Top(k, Sleepers);
    QueueAdd(QueueDel(k, p), Ready, p)
  }

  /** `awake_sleeping_process`. */
  function Awake(k: K): (r: K)
    requires Member(k)
    ensures Member(r) && (Sorted(k) ==> Sorted(r))
    decreases |k.lists[Sleepers]|
  {
    if Due(k) then Awake(AwakeOne(k)) else k
  }

  /** `free_dead_process`: every process of the dead list leaves the process table. */
  function FreeDead(k: K): K
    requires Member(k)
  {
    k.(procs := map p | p in k.procs && k.procs[p].link != LinkedIn(Dead) :: k.procs[p],
       lists := k.lists[Dead := []])
  }

  lemma FreeDeadKeeps(k: K)
    requires Member(k)
    ensures Member(FreeDead(k))
    ensures Sorted(k) ==> Sorted(FreeDead(k))
  {
    var k' := FreeDead(k);
    forall m | m in k'.lists
      ensures Holds(k'.procs, m, k'.lists[m])
      ensures Sorted(k) ==> Ascending(Keys(k'.procs, m, k'.lists[m]))
    {
      assert Holds(k.procs, m, k.lists[m]);
      if m != Dead { KeysFrame(k.procs, k'.procs, m, k.lists[m]); }
    }
  }

  /** Takes the top process off the ready list and makes it the running one. */
  function SwitchToTop(k: K): (r: K)
    requires Member(k) && k.lists[Ready] != []
    ensures Member(r) && (Sorted(k) ==> Sorted(r))
    ensures r.current == Top(k, Ready) && r.current in r.procs
  {
    Heads(k);
    TopMember(k, Ready);
    var p := Top(k, Ready);
    var k1 := QueueDel(k, p);
    Write(k1, p, k1.procs[p].(state := Actif)).(current := p)
  }

  /** The choice made by `scheduler()` once sleepers are awake and the dead are freed. */
  function Choose(k: K): (r: K)
    requires Member(k) && CurrentMayLeave(k)
    ensures Member(r) && (Sorted(k) ==> Sorted(r))
  {
    Heads(k);
    var c := k.current;
    var cur := k.procs[c];
    if k.lists[Ready] == [] then k
    else if TopMember(k, Ready); assert Top(k, Ready) == c ==> cur.link == LinkedIn(Ready); cur.state.Actif? then
      if k.procs[Top(k, Ready)].prio >= cur.prio then
        var k1 := SwitchToTop(k);
        QueueAdd(Write(k1, c, cur.(state := Activatable)), Ready, c)
      else k
    else if cur.state.Killed? then
      SwitchToTop(QueueAdd(k, Dead, c))
    else
      SwitchToTop(k)
  }

  /** The running process is linked nowhere unless it has just blocked itself. */
  predicate CurrentMayLeave(k: K) {
    && k.current in k.procs
    && k.procs[k.current].link != LinkedIn(Dead)
    && (k.procs[k.current].state.Actif? || k.procs[k.current].state.Killed? ==>
          k.procs[k.current].link.Unlinked?)
  }

  /** The exact effect of waking the earliest sleeper. */
  lemma AwakeOneEffect(k: K)
    requires Member(k) && k.lists[Sleepers] != []
    ensures var p := Top(k, Sleepers);
            && p in k.procs && k.procs[p].link == LinkedIn(Sleepers)
            && AwakeOne(k).procs == k.procs[p := k.procs[p].(link := LinkedIn(Ready))]
            && AwakeOne(k) == k.(procs := AwakeOne(k).procs, lists := AwakeOne(k).lists)
    ensures forall l :: l in k.lists <==> l in AwakeOne(k).lists
    ensures forall l :: l in k.lists && l != Sleepers && l != Ready ==> AwakeOne(k).lists[l] == k.lists[l]
  {
    hide MemberOf, SortedOf;
    Heads(k);
    TopMember(k, Sleepers);
  }

  /** Waking up only relinks sleepers. */
  lemma {:induction false} AwakeProc(k: K, p: Pid)
    requires Member(k)
    ensures p in k.procs <==> p in Awake(k).procs
    ensures p in k.procs ==>
              var pr, pr' := k.procs[p], Awake(k).procs[p];
              pr' == pr || (pr.link == LinkedIn(Sleepers) && pr' == pr.(link := LinkedIn(Ready)))
    ensures Awake(k) == k.(procs := Awake(k).procs, lists := Awake(k).lists)
    ensures forall l :: l in k.lists <==> l in Awake(k).lists
    ensures forall l :: l in k.lists && l != Sleepers && l != Ready ==> Awake(k).lists[l] == k.lists[l]
    decreases |k.lists[Sleepers]|
  {
    hide MemberOf, SortedOf;
    if Due(k) {
      AwakeOneEffect(k);
      AwakeProc(AwakeOne(k), p);
    }
  }

  /** `scheduler()`, after start-up. */
  function Dispatch(k: K): (r: K)
    requires Member(k) && CurrentMayLeave(k)
    ensures Member(r) && (Sorted(k) ==> Sorted(r))
  {
    var k1 := Awake(k);
    AwakeProc(k, k.current);
    FreeDeadKeeps(k1);
    Choose(FreeDead(k1))
  }
}
