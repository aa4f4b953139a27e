// No wakeup of the blocking queue is lost as long as its waiters are calls of pop: front consumes
// a notification without removing the item it was sent for.
module LockQueueWakeups {
  import opened JsonModel
  import opened LockQueue

  // A thread that still owes the queue something: a push that has not notified yet, or a call
  // that has been woken and has not yet removed (or read) the item it was woken for.
  predicate Owes<T>(pc: Pc<T>) {
    match pc
    case PushDone | PushNotify | Woken(_) => true
    case Testing(_, woken) => woken
    case Found(_, woken) => woken
    case Took(_, woken) => woken
    case _ => false
  }

  // The two places of such a thread at which it does not hold the mutex.
  predicate Underway<T>(pc: Pc<T>) {
    pc.PushNotify? || pc.Woken?
  }

  function Count<T>(pcs: seq<Pc<T>>, p: Pc<T> -> bool): nat {
    if pcs == [] then 0 else (if p(pcs[0]) then 1 else 0) + Count(pcs[1..], p)
  }

  lemma {:induction false} CountUpdate<T>(pcs: seq<Pc<T>>, p: Pc<T> -> bool, i: nat, pc: Pc<T>)
    requires i < |pcs|
    ensures Count(pcs[i := pc], p) == Count(pcs, p) - (if p(pcs[i]) then 1 else 0) + (if p(pc) then 1 else 0)
  {
    if i == 0 {
      assert pcs[0 := pc][1..] == pcs[1..];
    } else {
      assert pcs[i := pc][1..] == pcs[1..][i - 1 := pc];
      CountUpdate(pcs[1..], p, i - 1, pc);
    }
  }

  lemma {:induction false} CountSame<T>(pcs: seq<Pc<T>>, p: Pc<T> -> bool, q: Pc<T> -> bool)
    requires forall pc :: pc in pcs ==> p(pc) == q(pc)
    ensures Count(pcs, p) == Count(pcs, q)
  {
    if pcs != [] {
      assert pcs[0] in pcs;
      CountSame(pcs[1..], p, q);
    }
  }

  lemma {:induction false} CountNone<T>(pcs: seq<Pc<T>>, p: Pc<T> -> bool)
    ensures Count(pcs, p) == 0 <==> forall pc :: pc in pcs ==> !p(pc)
  {
    if pcs != [] {
      assert pcs == [pcs[0]] + pcs[1..];
      CountNone(pcs[1..], p);
    }
  }

  function Debt<T>(s: State<T>): nat {
    Count(s.pcs, pc => Owes(pc))
  }

  predicate SomeSleeper<T>(s: State<T>) {
    exists k :: 0 <= k < |s.pcs| && s.pcs[k].Sleeping?
  }

  // While somebody sleeps, every queued item is still owed to someone, or was lost to a woken
  // call of front.
  predicate Covered<T>(s: State<T>) {
    SomeSleeper(s) ==> |s.queue| <= Debt(s) + s.lost
  }

  lemma MoveDebt<T>(s: State<T>, i: nat, pc: Pc<T>, owner: Option<nat>)
    requires i < |s.pcs|
    ensures Debt(At(s, i, pc, owner)) == Debt(s) - (if Owes(s.pcs[i]) then 1 else 0) + (if Owes(pc) then 1 else 0)
    ensures !pc.Sleeping? && SomeSleeper(At(s, i, pc, owner)) ==> SomeSleeper(s)
  {
    CountUpdate(s.pcs, (pc: Pc<T>) => Owes(pc), i, pc);
    if SomeSleeper(At(s, i, pc, owner)) && !pc.Sleeping? {
      var k :| 0 <= k < |s.pcs| && s.pcs[i := pc][k].Sleeping?;
      assert s.pcs[k].Sleeping?;
    }
  }

  // Moving a thread without changing the queue, when what it owes does not shrink.
  lemma MoveCovered<T>(s: State<T>, i: nat, pc: Pc<T>, owner: Option<nat>)
    requires Covered(s) && i < |s.pcs|
    requires (pc.Sleeping? && s.queue == []) || (!pc.Sleeping? && (Owes(s.pcs[i]) ==> Owes(pc)))
    ensures Covered(At(s, i, pc, owner))
  {
    hide Debt, SomeSleeper;
    MoveDebt(s, i, pc, owner);
  }

  lemma NotifyCovered<T(!new)>(s: State<T>, s': State<T>, i: nat, j: nat)
    requires Covered(s) && i < |s.pcs| && s.pcs[i].PushNotify? && Step(s, s', i, j, Silent)
    ensures Covered(s')
  {
    MoveDebt(s, i, Idle, s.owner);
    if j < |s.pcs| && s.pcs[j].Sleeping? {
      MoveDebt(At(s, i, Idle, s.owner), j, Woken(s.pcs[j].op), s.owner);
    }
  }

  lemma RemoveCovered<T>(s: State<T>, s': State<T>, i: nat, pc: Pc<T>)
    requires Covered(s) && i < |s.pcs| && !pc.Sleeping? && s'.pcs == s.pcs[i := pc]
    requires |s'.queue| - s'.lost + (if Owes(s.pcs[i]) then 1 else 0) <= |s.queue| - s.lost + (if Owes(pc) then 1 else 0)
    ensures Covered(s')
  {
    MoveDebt(s, i, pc, s'.owner);
    assert Debt(s') == Debt(At(s, i, pc, s'.owner));
    assert SomeSleeper(s') <==> SomeSleeper(At(s, i, pc, s'.owner));
  }

  lemma StepCovered<T(!new)>(s: State<T>, s': State<T>, i: nat, j: nat, e: Event<T>)
    requires Covered(s) && i < |s.pcs| && Step(s, s', i, j, e)
    ensures Covered(s')
  {
    hide Covered, Debt, SomeSleeper;
    match s.pcs[i]
    case Idle => RemoveCovered(s, s', i, s'.pcs[i]);
    case PushEnter(x) => MoveCovered(s, i, PushLocked(x), Some(i));
    case PushLocked(x) => RemoveCovered(s, s', i, PushDone);
    case PushDone => MoveCovered(s, i, PushNotify, None);
    case PushNotify => NotifyCovered(s, s', i, j);
    case WaitEnter(op) => MoveCovered(s, i, Testing(op, false), Some(i));
    case Testing(op, woken) =>
      if s.queue == [] {
        MoveCovered(s, i, Sleeping(op), None);
      } else {
        MoveCovered(s, i, Found(op, woken), s.owner);
      }
    case Sleeping(op) => MoveCovered(s, i, Woken(op), s.owner);
    case Woken(op) => MoveCovered(s, i, Testing(op, true), Some(i));
    case Found(op, woken) =>
      if op.Pop? {
        MoveCovered(s, i, Took(s.queue[0], woken), s.owner);
      } else {
        RemoveCovered(s, s', i, Returning(Front, s.queue[0]));
      }
    case Took(val, woken) => RemoveCovered(s, s', i, Returning(Pop, val));
    case Returning(op, result) => RemoveCovered(s, s', i, Idle);
  }

  lemma {:induction false} RunCovered<T(!new)>(run: seq<State<T>>, k: nat)
    requires Run(run) && k < |run|
    ensures Covered(run[k])
  {
    if k > 0 {
      RunCovered(run, k - 1);
      assert Next(run[k - 1], run[k - 1 + 1]);
      var i: nat, j: nat, e :| i < |run[k - 1].pcs| && Step(run[k - 1], run[k], i, j, e);
      StepCovered(run[k - 1], run[k], i, j, e);
    }
  }

  // ---- clients that only push and pop ----

  // The waiting call a thread is in.
  function WaitingCall<T>(pc: Pc<T>): Option<Op> {
    match pc
    case WaitEnter(op) => Some(op)
    case Testing(op, _) => Some(op)
    case Sleeping(op) => Some(op)
    case Woken(op) => Some(op)
    case Found(op, _) => Some(op)
    case Took(_, _) => Some(Pop)
    case Returning(op, _) => Some(op)
    case _ => None
  }

  // Every waiting call of the state is one of allowed; pushing is always allowed.
  predicate CallsOnly<T>(s: State<T>, allowed: set<Op>) {
    forall i :: 0 <= i < |s.pcs| && WaitingCall(s.pcs[i]).Some? ==> WaitingCall(s.pcs[i]).value in allowed
  }

  predicate NobodyInFront<T>(s: State<T>) {
    forall i :: 0 <= i < |s.pcs| ==> WaitingCall(s.pcs[i]) != Some(Front)
  }

  lemma {:induction false} NothingLost<T(!new)>(run: seq<State<T>>, k: nat)
    requires Run(run) && k < |run|
    requires forall m :: 0 <= m < k ==> NobodyInFront(run[m])
    ensures run[k].lost == 0
  {
    if k > 0 {
      NothingLost(run, k - 1);
      assert Next(run[k - 1], run[k - 1 + 1]);
      var i: nat, j: nat, e :| i < |run[k - 1].pcs| && Step(run[k - 1], run[k], i, j, e);
      assert WaitingCall(run[k - 1].pcs[i]) != Some(Front);
    }
  }

  // In every state of every run of clients that only push and pop, if a consumer sleeps then
  // there are at most as many items as threads that owe one; and when the mutex is free these are
  // the pushers between unlock and notify and the consumers woken but not yet testing again.
  lemma NoLostWakeup<T(!new)>(run: seq<State<T>>, k: nat)
    requires Run(run) && k < |run|
    requires forall m :: 0 <= m < k ==> NobodyInFront(run[m])
    requires SomeSleeper(run[k])
    ensures |run[k].queue| <= Debt(run[k])
    ensures run[k].owner == None ==> |run[k].queue| <= Count(run[k].pcs, pc => Underway(pc))
  {
    var s := run[k];
    RunCovered(run, k);
    NothingLost(run, k);
    if s.owner == None {
      RunInv(run);
      forall pc | pc in s.pcs
        ensures Owes(pc) == Underway(pc)
      {
        var i :| 0 <= i < |s.pcs| && s.pcs[i] == pc;
        assert !Holds(s.pcs[i]);
      }
      CountSame(s.pcs, (pc: Pc<T>) => Owes(pc), (pc: Pc<T>) => Underway(pc));
    }
  }

  // So nobody sleeps on a non-empty queue that nobody is about to serve.
  lemma NobodySleepsOnItems<T(!new)>(run: seq<State<T>>, k: nat)
    requires Run(run) && k < |run|
    requires forall m :: 0 <= m < k ==> NobodyInFront(run[m])
    requires forall i :: 0 <= i < |run[k].pcs| ==> !Owes(run[k].pcs[i])
    ensures SomeSleeper(run[k]) ==> run[k].queue == []
  {
    if SomeSleeper(run[k]) {
      NoLostWakeup(run, k);
      CountNone(run[k].pcs, (pc: Pc<T>) => Owes(pc));
    }
  }

  // ---- exactly front breaks the claim ----

  function Three<T>(queue: seq<T>, owner: Option<nat>, p0: Pc<T>, p1: Pc<T>, p2: Pc<T>, lost: nat): State<T> {
    State(queue, owner, [p0, p1, p2], queue, [], [], lost)
  }

  // Thread 1 waits in op and thread 2 in front, on the empty queue; thread 0 pushes x, the
  // notification wakes thread 2, which reads the item and leaves it; thread 1 sleeps on.
  function StuckAt<T>(x: T, op: Op, k: nat): State<T>
    requires k < 16
  {
    match k
    case 0 => Three([], None, Idle, Idle, Idle, 0)
    case 1 => Three([], None, Idle, WaitEnter(op), Idle, 0)
    case 2 => Three([], Some(1), Idle, Testing(op, false), Idle, 0)
    case 3 => Three([], None, Idle, Sleeping(op), Idle, 0)
    case 4 => Three([], None, Idle, Sleeping(op), WaitEnter(Front), 0)
    case 5 => Three([], Some(2), Idle, Sleeping(op), Testing(Front, false), 0)
    case 6 => Three([], None, Idle, Sleeping(op), Sleeping(Front), 0)
    case 7 => Three([], None, PushEnter(x), Sleeping(op), Sleeping(Front), 0)
    case 8 => Three([], Some(0), PushLocked(x), Sleeping(op), Sleeping(Front), 0)
    case 9 => Three([x], Some(0), PushDone, Sleeping(op), Sleeping(Front), 0)
    case 10 => Three([x], None, PushNotify, Sleeping(op), Sleeping(Front), 0)
    case 11 => Three([x], None, Idle, Sleeping(op), Woken(Front), 0)
    case 12 => Three([x], Some(2), Idle, Sleeping(op), Testing(Front, true), 0)
    case 13 => Three([x], Some(2), Idle, Sleeping(op), Found(Front, true), 0)
    case 14 => Three([x], Some(2), Idle, Sleeping(op), Returning(Front, x), 1)
    case _ => Three([x], None, Idle, Sleeping(op), Idle, 1)
  }

  function StuckRun<T>(x: T, op: Op): (run: seq<State<T>>)
    ensures |run| == 16
  {
    seq(16, k requires 0 <= k < 16 => StuckAt(x, op, k))
  }

  lemma AtThree<T>(s: State<T>, i: nat, pc: Pc<T>, owner: Option<nat>)
    requires |s.pcs| == 3 && i < 3
    ensures At(s, i, pc, owner).pcs == [if i == 0 then pc else s.pcs[0], if i == 1 then pc else s.pcs[1], if i == 2 then pc else s.pcs[2]]
  {
  }

  lemma StepIsNext<T(!new)>(s: State<T>, s': State<T>, i: nat, e: Event<T>)
    requires i < |s.pcs| && Step(s, s', i, 2, e)
    ensures Next(s, s')
  {
  }

  lemma StuckSleeps<T(!new)>(x: T, op: Op)
    ensures Next(StuckAt(x, op, 0), StuckAt(x, op, 1))
    ensures Next(StuckAt(x, op, 1), StuckAt(x, op, 2))
    ensures Next(StuckAt(x, op, 2), StuckAt(x, op, 3))
    ensures Next(StuckAt(x, op, 3), StuckAt(x, op, 4))
    ensures Next(StuckAt(x, op, 4), StuckAt(x, op, 5))
    ensures Next(StuckAt(x, op, 5), StuckAt(x, op, 6))
  {
    hide Next;
    AtThree(StuckAt(x, op, 0), 1, WaitEnter(op), None);
    StepIsNext(StuckAt(x, op, 0), StuckAt(x, op, 1), 1, Silent);
    AtThree(StuckAt(x, op, 1), 1, Testing(op, false), Some(1));
    StepIsNext(StuckAt(x, op, 1), StuckAt(x, op, 2), 1, Silent);
    AtThree(StuckAt(x, op, 2), 1, Sleeping(op), None);
    StepIsNext(StuckAt(x, op, 2), StuckAt(x, op, 3), 1, Silent);
    AtThree(StuckAt(x, op, 3), 2, WaitEnter(Front), None);
    StepIsNext(StuckAt(x, op, 3), StuckAt(x, op, 4), 2, Silent);
    AtThree(StuckAt(x, op, 4), 2, Testing(Front, false), Some(2));
    StepIsNext(StuckAt(x, op, 4), StuckAt(x, op, 5), 2, Silent);
    AtThree(StuckAt(x, op, 5), 2, Sleeping(Front), None);
    StepIsNext(StuckAt(x, op, 5), StuckAt(x, op, 6), 2, Silent);
  }

  lemma StuckPushes<T(!new)>(x: T, op: Op)
    ensures Next(StuckAt(x, op, 6), StuckAt(x, op, 7))
    ensures Next(StuckAt(x, op, 7), StuckAt(x, op, 8))
    ensures Next(StuckAt(x, op, 8), StuckAt(x, op, 9))
    ensures Next(StuckAt(x, op, 9), StuckAt(x, op, 10))
    ensures Next(StuckAt(x, op, 10), StuckAt(x, op, 11))
  {
    hide Next;
    AtThree(StuckAt(x, op, 6), 0, PushEnter(x), None);
    StepIsNext(StuckAt(x, op, 6), StuckAt(x, op, 7), 0, Silent);
    AtThree(StuckAt(x, op, 7), 0, PushLocked(x), Some(0));
    StepIsNext(StuckAt(x, op, 7), StuckAt(x, op, 8), 0, Silent);
    AtThree(StuckAt(x, op, 8), 0, PushDone, Some(0));
    StepIsNext(StuckAt(x, op, 8), StuckAt(x, op, 9), 0, Enqueue(x));
    AtThree(StuckAt(x, op, 9), 0, PushNotify, None);
    StepIsNext(StuckAt(x, op, 9), StuckAt(x, op, 10), 0, Silent);
    AtThree(StuckAt(x, op, 10), 0, Idle, None);
    AtThree(At(StuckAt(x, op, 10), 0, Idle, None), 2, Woken(Front), None);
    StepIsNext(StuckAt(x, op, 10), StuckAt(x, op, 11), 0, Silent);
  }

  lemma StuckReads<T(!new)>(x: T, op: Op)
    ensures Next(StuckAt(x, op, 11), StuckAt(x, op, 12))
    ensures Next(StuckAt(x, op, 12), StuckAt(x, op, 13))
    ensures Next(StuckAt(x, op, 13), StuckAt(x, op, 14))
    ensures Next(StuckAt(x, op, 14), StuckAt(x, op, 15))
  {
    hide Next;
    AtThree(StuckAt(x, op, 11), 2, Testing(Front, true), Some(2));
    StepIsNext(StuckAt(x, op, 11), StuckAt(x, op, 12), 2, Silent);
    AtThree(StuckAt(x, op, 12), 2, Found(Front, true), Some(2));
    StepIsNext(StuckAt(x, op, 12), StuckAt(x, op, 13), 2, Silent);
    AtThree(StuckAt(x, op, 13), 2, Returning(Front, x), Some(2));
    StepIsNext(StuckAt(x, op, 13), StuckAt(x, op, 14), 2, Peek(x));
    AtThree(StuckAt(x, op, 14), 2, Idle, None);
    StepIsNext(StuckAt(x, op, 14), StuckAt(x, op, 15), 2, Silent);
  }

  // Some consumer sleeps on a non-empty queue that no thread is about to serve.
  predicate Stranded<T>(s: State<T>) {
    SomeSleeper(s) && s.queue != [] && forall i :: 0 <= i < |s.pcs| ==> !Owes(s.pcs[i])
  }

  lemma StuckSteps<T(!new)>(x: T, op: Op, k: nat)
    requires k < 15
    ensures Next(StuckAt(x, op, k), StuckAt(x, op, k + 1))
  {
    hide Next, StuckAt;
    StuckSleeps(x, op);
    StuckPushes(x, op);
    StuckReads(x, op);
  }

  // A run whose waiting calls are one of op and one of front, and that leaves the first stranded.
  lemma FrontLosesWakeup<T(!new)>(x: T, op: Op)
    ensures Run(StuckRun(x, op)) && Stranded(StuckRun(x, op)[15])
    ensures forall k :: 0 <= k < 16 ==> CallsOnly(StuckRun(x, op)[k], {op, Front})
  {
    hide Next;
    var r := StuckRun(x, op);
    forall k | 0 <= k < 15
      ensures Next(r[k], r[k + 1])
    {
      StuckSteps(x, op, k);
    }
    assert r[15].pcs[1].Sleeping?;
  }

  ghost predicate NeverStranded<T(!new)>(allowed: set<Op>) {
    forall run: seq<State<T>>, k: nat ::
      Run(run) && k < |run| && (forall m :: 0 <= m < |run| ==> CallsOnly(run[m], allowed)) ==> !Stranded(run[k])
  }

  // Clients that push, and wait only in calls of allowed, are never stranded, in any state of any
  // run of any number of threads, exactly when front is not among these calls.
  lemma NeverStrandedIffNoFront<T(!new)>(allowed: set<Op>, x: T)
    ensures NeverStranded<T>(allowed) <==> Front !in allowed
  {
    if Front in allowed {
      var run := StuckRun(x, Front);
      FrontLosesWakeup(x, Front);
      assert Run(run) && Stranded(run[15]);
      assert forall m :: 0 <= m < |run| ==> CallsOnly(run[m], allowed);
    } else {
      forall run: seq<State<T>>, k: nat | Run(run) && k < |run| && (forall m :: 0 <= m < |run| ==> CallsOnly(run[m], allowed))
        ensures !Stranded(run[k])
      {
        assert forall m :: 0 <= m < k ==> NobodyInFront(run[m]);
        if Stranded(run[k]) {
          NobodySleepsOnItems(run, k);
        }
      }
    }
  }
}
