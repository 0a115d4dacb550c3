/**
  The dining philosophers of `src/user/tests/test20/philosophe.c`, for any number of
  philosophers, over the kernel's semaphores.

  A step runs one philosopher from one semaphore operation up to the next. The shared
  arrays are only touched between `xwait` and `xsignal` of the mutex, so nothing finer
  could be observed; that the mutex does exclude is part of what is proved.
  */
module Philosophers {
  import opened Common
  import opened Arithmetic
  import opened PriorityOrder
  import opened KernelState

  const ROUNDS := 6

  /** The largest number of philosophers for which the 16-bit count of the mutex suffices. */
  const MAX_PHILO := 32769

  /** Where a philosopher is. `…Wait` is a call of `xwait`, `…Signal` one of `xsignal` on a
      philosopher's semaphore, `…Show` and `…End` leave a critical section. */
  datatype Pc =
    | TakeWait | TakeTest | TakeSignal | TakeEnd | ForkWait
    | EatWait | EatShow | EatenWait | EatenShow
    | PutWait | PutLeft | PutLeftSignal | PutRight | PutRightSignal | PutEnd
    | ThinkWait | ThinkShow | ThoughtWait | ThoughtShow
    | LastWait | LastShow | Done

  /** One philosopher: control, loop counter, its cells of `bloque` and `etat`, its semaphore. */
  datatype Phil = Phil(pc: Pc, round: nat, blocked: bool, shown: char, own: Sem)

  datatype Table = Table(ph: seq<Phil>, f: seq<bool>, mutex: Sem)

  function Right(i: nat, n: nat): nat
    requires i < n
  {
    if i + 1 == n then 0 else i + 1
  }

  function Left(i: nat, n: nat): nat
    requires i < n
  {
    if i == 0 then n - 1 else i - 1
  }

  /** These are the neighbours the source computes with remainders. */
  lemma Neighbours(i: nat, n: nat)
    requires i < n
    ensures Right(i, n) == (i + 1) % n
    ensures Left(i, n) == (i + n - 1) % n
    ensures Right(Right(i, n), n) == (i + 2) % n
  {
    Wrap(i + 1, Right(i, n), n);
    Wrap(i + n - 1, Left(i, n), n);
    if n == 1 {
    } else {
      Wrap(i + 2, Right(Right(i, n), n), n);
    }
  }

  lemma Wrap(x: nat, r: nat, n: nat)
    requires r < n && (x == r || x == r + n)
    ensures x % n == r
  {
    ModEqual(x, r, n, if x == r then 0 else 1);
    ModSmall(r, n);
  }

  // ----- semaphore operations on one semaphore -----

  /** `wait` by i, joining the waiters at place `at` if it must: the semaphore, and
      whether i goes on. At the lowest count the error result is ignored by `xwait`. */
  function Waited(s: Sem, i: int, at: nat): (Sem, bool) {
    if s.count == MIN_COUNT then (s, true)
    else if s.count - 1 < 0 then
      (Sem(s.count - 1, InsertAt(s.waiters, if at <= |s.waiters| then at else |s.waiters|, i)), false)
    else (Sem(s.count - 1, s.waiters), true)
  }

  /** `signal`: the semaphore, and the waiter released. */
  function Signalled(s: Sem): (Sem, Option<int>) {
    if s.count == MAX_COUNT then (s, None)
    else if s.count + 1 <= 0 && s.waiters != [] then (Sem(s.count + 1, s.waiters[1..]), Some(s.waiters[0]))
    else (Sem(s.count + 1, s.waiters), None)
  }

  // ----- control -----

  predicate WaitsMutex(pc: Pc) {
    pc.TakeWait? || pc.EatWait? || pc.EatenWait? || pc.PutWait? || pc.ThinkWait? || pc.ThoughtWait? || pc.LastWait?
  }

  predicate LeavesMutex(pc: Pc) {
    pc.TakeEnd? || pc.EatShow? || pc.EatenShow? || pc.PutEnd? || pc.ThinkShow? || pc.ThoughtShow? || pc.LastShow?
  }

  /** Between `xwait` and `xsignal` of the mutex. */
  predicate InSection(pc: Pc) {
    LeavesMutex(pc) || pc.TakeTest? || pc.TakeSignal? || pc.PutLeft? || pc.PutLeftSignal? || pc.PutRight? || pc.PutRightSignal?
  }

  /** The philosopher behind its current operation, with what it writes to `etat`. */
  function Past(p: Phil): Phil {
    match p.pc
    case TakeWait => p.(pc := TakeTest)
    case TakeTest => p
    case TakeSignal => p.(pc := TakeEnd)
    case TakeEnd => p.(pc := ForkWait)
    case ForkWait => p.(pc := EatWait)
    case EatWait => p.(pc := EatShow)
    case EatShow => p.(pc := EatenWait, shown := 'm')
    case EatenWait => p.(pc := EatenShow)
    case EatenShow => p.(pc := PutWait, shown := '-')
    case PutWait => p.(pc := PutLeft)
    case PutLeft => p
    case PutLeftSignal => p.(pc := PutRight)
    case PutRight => p
    case PutRightSignal => p.(pc := PutEnd)
    case PutEnd => p.(pc := ThinkWait)
    case ThinkWait => p.(pc := ThinkShow)
    case ThinkShow => p.(pc := ThoughtWait, shown := 'p')
    case ThoughtWait => p.(pc := ThoughtShow)
    case ThoughtShow =>
      p.(pc := if p.round + 1 < ROUNDS then TakeWait else LastWait, round := p.round + 1, shown := '-')
    case LastWait => p.(pc := LastShow)
    case LastShow => p.(pc := Done, shown := '-')
    case Done => p
  }

  // ----- the table -----

  predicate Shape(t: Table) {
    2 <= |t.ph| <= MAX_PHILO && |t.f| == |t.ph|
  }

  /** Blocked inside a semaphore. */
  predicate Parked(t: Table, i: nat)
    requires i < |t.ph|
  {
    i in t.mutex.waiters || t.ph[i].own.waiters != []
  }

  predicate CanStep(t: Table, i: nat) {
    i < |t.ph| && !t.ph[i].pc.Done? && !Parked(t, i)
  }

  function SetPhil(t: Table, i: nat, p: Phil): Table
    requires i < |t.ph|
  {
    t.(ph := t.ph[i := p])
  }

  /** A released waiter goes on behind its `xwait`. */
  function Resume(t: Table, who: Option<int>): Table {
    if who.Some? && 0 <= who.value < |t.ph| then SetPhil(t, who.value, Past(t.ph[who.value])) else t
  }

  function WaitMutex(t: Table, i: nat, at: nat): Table
    requires i < |t.ph|
  {
    var (m, goes) := Waited(t.mutex, i, at);
    SetPhil(t.(mutex := m), i, if goes then Past(t.ph[i]) else t.ph[i])
  }

  function SignalMutex(t: Table, i: nat): Table
    requires i < |t.ph|
  {
    var (m, who) := Signalled(t.mutex);
    Resume(SetPhil(t.(mutex := m), i, Past(t.ph[i])), who)
  }

  function WaitOwn(t: Table, i: nat, at: nat): Table
    requires i < |t.ph|
  {
    var (s, goes) := Waited(t.ph[i].own, i, at);
    SetPhil(t, i, (if goes then Past(t.ph[i]) else t.ph[i]).(own := s))
  }

  /** Philosopher i signals the semaphore of j, possibly its own. */
  function SignalOwn(t: Table, i: nat, j: nat): Table
    requires i < |t.ph| && j < |t.ph|
  {
    var (s, who) := Signalled(t.ph[j].own);
    var t1 := SetPhil(t, i, Past(t.ph[i]));
    Resume(SetPhil(t1, j, t1.ph[j].(own := s)), who)
  }

  /** `test`. */
  predicate Test(f: seq<bool>, i: nat)
    requires i < |f|
  {
    !f[i] && !f[Right(i, |f|)]
  }

  /** The body of `prendre_fourchettes` between the semaphore operations. */
  function TakeForks(t: Table, i: nat): Table
    requires Shape(t) && i < |t.ph|
  {
    if Test(t.f, i) then
      SetPhil(t, i, t.ph[i].(pc := TakeSignal)).(f := t.f[i := true][Right(i, |t.f|) := true])
    else
      SetPhil(t, i, t.ph[i].(pc := TakeEnd, blocked := true))
  }

  /** The first half of `poser_fourchettes`: the left fork goes to the left neighbour if
      that makes two for it, and on the table otherwise. */
  function PutLeftFork(t: Table, i: nat): Table
    requires Shape(t) && i < |t.ph|
  {
    var l := Left(i, |t.ph|);
    if t.ph[l].blocked && !t.f[l] then
      var t1 := SetPhil(t, i, t.ph[i].(pc := PutLeftSignal)).(f := t.f[l := true]);
      SetPhil(t1, l, t1.ph[l].(blocked := false))
    else
      SetPhil(t, i, t.ph[i].(pc := PutRight)).(f := t.f[i := false])
  }

  /** The second half. */
  function PutRightFork(t: Table, i: nat): Table
    requires Shape(t) && i < |t.ph|
  {
    var r := Right(i, |t.ph|);
    var rr := Right(r, |t.ph|);
    if t.ph[r].blocked && !t.f[rr] then
      var t1 := SetPhil(t, i, t.ph[i].(pc := PutRightSignal)).(f := t.f[rr := true]);
      SetPhil(t1, r, t1.ph[r].(blocked := false))
    else
      SetPhil(t, i, t.ph[i].(pc := PutEnd)).(f := t.f[r := false])
  }

  /** One step of philosopher i. */
  function Step(t: Table, i: nat, at: nat): Table
    requires Shape(t) && CanStep(t, i)
  {
    var n := |t.ph|;
    var pc := t.ph[i].pc;
    if WaitsMutex(pc) then WaitMutex(t, i, at)
    else if LeavesMutex(pc) then SignalMutex(t, i)
    else match pc
      case TakeTest => TakeForks(t, i)
      case TakeSignal => SignalOwn(t, i, i)
      case ForkWait => WaitOwn(t, i, at)
      case PutLeft => PutLeftFork(t, i)
      case PutLeftSignal => SignalOwn(t, i, Left(i, n))
      case PutRight => PutRightFork(t, i)
      case PutRightSignal => SignalOwn(t, i, Right(i, n))
      case _ => t
  }

  /** The table set by `test20.c`, every philosopher before its first `xwait`. */
  function Laid(n: nat): Table {
    Table(seq(n, i => Phil(TakeWait, 0, false, '-', Sem(0, []))), seq(n, i => false), Sem(1, []))
  }

  // ----- the invariant -----

  /** p holds the fork of its own index. */
  predicate HoldsLeft(p: Phil) {
    || p.pc.TakeSignal? || p.pc.EatWait? || p.pc.EatShow? || p.pc.EatenWait? || p.pc.EatenShow?
    || p.pc.PutWait? || p.pc.PutLeft?
    || ((p.pc.TakeEnd? || p.pc.ForkWait?) && !p.blocked)
  }

  /** p holds the fork of the next index. */
  predicate HoldsRight(p: Phil) {
    HoldsLeft(p) || p.pc.PutLeftSignal? || p.pc.PutRight?
  }

  /** A neighbour has given philosopher j its forks but not yet signalled it. */
  predicate Promised(ph: seq<Phil>, j: nat)
    requires j < |ph|
  {
    ph[Right(j, |ph|)].pc.PutLeftSignal? || ph[Left(j, |ph|)].pc.PutRightSignal?
  }

  /** What is known of one philosopher and its semaphore. */
  predicate PhilOk(p: Phil, j: nat, promised: bool) {
    && p.round <= ROUNDS
    && (p.round == ROUNDS <==> p.pc.LastWait? || p.pc.LastShow? || p.pc.Done?)
    && (p.shown == 'm' <==> p.pc.EatenWait? || p.pc.EatenShow?)
    && (p.blocked ==> p.pc.TakeEnd? || p.pc.ForkWait?)
    && (promised ==> p.pc.ForkWait? && !p.blocked)
    && (if p.pc.TakeEnd? then p.own == Sem(if p.blocked then 0 else 1, [])
        else if p.pc.ForkWait? && !p.blocked && !promised then p.own == Sem(1, [])
        else if p.pc.ForkWait? then p.own == Sem(0, []) || p.own == Sem(-1, [j])
        else p.own == Sem(0, []))
  }

  predicate PhilAt(ph: seq<Phil>, j: nat)
    requires j < |ph|
  {
    PhilOk(ph[j], j, Promised(ph, j))
  }

  ghost predicate PhilsOk(ph: seq<Phil>) {
    forall j: nat :: j < |ph| ==> PhilAt(ph, j)
  }

  /** A fork is marked taken exactly if one adjacent philosopher, and only one, holds it. */
  predicate ForkOk(taken: bool, before: Phil, after: Phil) {
    && (taken <==> HoldsLeft(after) || HoldsRight(before))
    && !(HoldsLeft(after) && HoldsRight(before))
  }

  predicate ForkAt(t: Table, j: nat)
    requires Shape(t) && j < |t.ph|
  {
    ForkOk(t.f[j], t.ph[Left(j, |t.ph|)], t.ph[j])
  }

  ghost predicate ForksOk(t: Table)
    requires Shape(t)
  {
    forall j: nat :: j < |t.ph| ==> ForkAt(t, j)
  }

  /** A blocked philosopher lacks a fork. */
  predicate BlockedAt(t: Table, j: nat)
    requires Shape(t) && j < |t.ph|
  {
    t.ph[j].blocked ==> t.f[j] || t.f[Right(j, |t.f|)]
  }

  ghost predicate BlockedOk(t: Table)
    requires Shape(t)
  {
    forall j: nat :: j < |t.ph| ==> BlockedAt(t, j)
  }

  ghost predicate AloneInSection(ph: seq<Phil>) {
    forall i, j :: 0 <= i < |ph| && 0 <= j < |ph| && InSection(ph[i].pc) && InSection(ph[j].pc) ==> i == j
  }

  ghost predicate SomeoneInside(ph: seq<Phil>) {
    exists i :: 0 <= i < |ph| && InSection(ph[i].pc)
  }

  ghost predicate MutexOk(ph: seq<Phil>, m: Sem) {
    && AloneInSection(ph)
    && Distinct(m.waiters)
    && (forall k :: 0 <= k < |m.waiters| ==> 0 <= m.waiters[k] < |ph| && WaitsMutex(ph[m.waiters[k]].pc))
    && (if SomeoneInside(ph) then m.count == -|m.waiters| else m == Sem(1, []))
  }

  ghost predicate Inv(t: Table) {
    Shape(t) && PhilsOk(t.ph) && ForksOk(t) && BlockedOk(t) && MutexOk(t.ph, t.mutex)
  }
}
