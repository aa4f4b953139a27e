// The blocking queue (entities::LockQueue) under any number of threads. One step is one action of
// one thread that others can observe: taking or leaving the mutex, one operation on the queue,
// going to sleep in cond_.wait, waking, notifying.
module LockQueue {
  import opened JsonModel

  datatype Op = Pop | Front

  // Where a thread stands. A woken thread is one that has slept since its call began.
  datatype Pc<T> =
    | Idle
    | PushEnter(item: T)            // wants the mutex
    | PushLocked(item: T)           // holds it
    | PushDone                      // has pushed, still holds it
    | PushNotify                    // has left it, is about to notify
    | WaitEnter(op: Op)             // pop or front wants the mutex
    | Testing(op: Op, woken: bool)  // holds it, is about to test queue_.empty()
    | Sleeping(op: Op)              // in cond_.wait, without the mutex
    | Woken(op: Op)                 // wants the mutex back
    | Found(op: Op, woken: bool)    // holds it, found the queue non-empty
    | Took(val: T, woken: bool)     // pop: has copied the front, is about to remove it
    | Returning(op: Op, result: T)  // holds it, is about to return

  // pushed, popped and returned record the items in the order of the steps; lost counts the woken
  // front calls that have read an item.
  datatype State<T> = State(
    queue: seq<T>,
    owner: Option<nat>,
    pcs: seq<Pc<T>>,
    pushed: seq<T>,
    popped: seq<T>,
    returned: seq<T>,
    lost: nat)

  datatype Event<T> = Enqueue(x: T) | Dequeue(x: T) | Peek(x: T) | Silent

  predicate Holds<T>(pc: Pc<T>) {
    pc.PushLocked? || pc.PushDone? || pc.Testing? || pc.Found? || pc.Took? || pc.Returning?
  }

  // The thread stands at another place, and the mutex changes hands.
  function At<T>(s: State<T>, i: nat, pc: Pc<T>, owner: Option<nat>): State<T>
    requires i < |s.pcs|
  {
    s.(pcs := s.pcs[i := pc], owner := owner)
  }

  // The steps of thread i; j is the sleeper that notify_one wakes, if any.
  ghost predicate Step<T(!new)>(s: State<T>, s': State<T>, i: nat, j: nat, e: Event<T>)
    requires i < |s.pcs|
  {
    match s.pcs[i]
    case Idle =>
      && e == Silent
      && ((exists x :: s' == At(s, i, PushEnter(x), s.owner)) || (exists op :: s' == At(s, i, WaitEnter(op), s.owner)))
    case PushEnter(x) => e == Silent && s.owner == None && s' == At(s, i, PushLocked(x), Some(i))
    case PushLocked(x) =>
      e == Enqueue(x) && s' == At(s, i, PushDone, s.owner).(queue := s.queue + [x], pushed := s.pushed + [x])
    case PushDone => e == Silent && s' == At(s, i, PushNotify, None)
    case PushNotify =>
      && e == Silent
      && (if j < |s.pcs| && s.pcs[j].Sleeping? then s' == At(At(s, i, Idle, s.owner), j, Woken(s.pcs[j].op), s.owner)
          else (forall k :: 0 <= k < |s.pcs| ==> !s.pcs[k].Sleeping?) && s' == At(s, i, Idle, s.owner))
    case WaitEnter(op) => e == Silent && s.owner == None && s' == At(s, i, Testing(op, false), Some(i))
    case Testing(op, woken) =>
      && e == Silent
      && s' == if s.queue == [] then At(s, i, Sleeping(op), None) else At(s, i, Found(op, woken), s.owner)
    case Sleeping(op) => e == Silent && s' == At(s, i, Woken(op), s.owner)  // spurious
    case Woken(op) => e == Silent && s.owner == None && s' == At(s, i, Testing(op, true), Some(i))
    case Found(op, woken) =>
      && s.queue != []
      && (match op
          case Pop => e == Silent && s' == At(s, i, Took(s.queue[0], woken), s.owner)
          case Front =>
            e == Peek(s.queue[0])
            && s' == At(s, i, Returning(Front, s.queue[0]), s.owner).(lost := s.lost + if woken then 1 else 0))
    case Took(val, woken) =>
      && s.queue != []
      && e == Dequeue(val)
      && s' == At(s, i, Returning(Pop, val), s.owner).(queue := s.queue[1..], popped := s.popped + [val])
    case Returning(op, result) =>
      && e == Silent
      && s' == At(s, i, Idle, None).(returned := if op.Pop? then s.returned + [result] else s.returned)
  }

  predicate Init<T>(s: State<T>) {
    && s.queue == [] && s.owner == None && s.pushed == [] && s.popped == [] && s.returned == [] && s.lost == 0
    && forall i :: 0 <= i < |s.pcs| ==> s.pcs[i] == Idle
  }

  ghost predicate Next<T(!new)>(s: State<T>, s': State<T>) {
    exists i: nat, j: nat, e :: i < |s.pcs| && Step(s, s', i, j, e)
  }

  ghost predicate Run<T(!new)>(run: seq<State<T>>) {
    && run != [] && Init(run[0])
    && forall k :: 0 <= k < |run| - 1 ==> Next(run[k], run[k + 1])
  }

  // ---- mutual exclusion and the content ----

  predicate PcOk<T(==)>(s: State<T>, pc: Pc<T>) {
    match pc
    case Found(_, _) => s.queue != []
    case Took(val, _) => s.queue != [] && val == s.queue[0]
    case Returning(op, result) =>
      if op.Pop? then s.popped == s.returned + [result] else s.queue != [] && result == s.queue[0]
    case _ => true
  }

  predicate NoReturn<T>(s: State<T>) {
    s.owner.Some? && s.owner.value < |s.pcs| && s.pcs[s.owner.value].Returning? ==> s.pcs[s.owner.value].op.Front?
  }

  predicate Inv<T(==)>(s: State<T>) {
    && (forall i :: 0 <= i < |s.pcs| ==> (Holds(s.pcs[i]) <==> s.owner == Some(i)))
    && (forall i :: 0 <= i < |s.pcs| ==> PcOk(s, s.pcs[i]))
    && (NoReturn(s) ==> s.popped == s.returned)
    && s.popped + s.queue == s.pushed
  }

  lemma InitInv<T>(s: State<T>)
    requires Init(s)
    ensures Inv(s)
  {
  }

  // A step that only moves thread i and passes the mutex keeps the invariant.
  lemma MoveInv<T>(s: State<T>, i: nat, pc: Pc<T>, owner: Option<nat>)
    requires Inv(s) && i < |s.pcs|
    requires owner == s.owner || (owner in {None, Some(i)} && s.owner in {None, Some(i)})
    requires Holds(pc) <==> owner == Some(i)
    requires PcOk(s, pc)
    requires !s.pcs[i].Returning? && (pc.Returning? ==> pc.op.Front?)
    ensures Inv(At(s, i, pc, owner))
  {
    var s' := At(s, i, pc, owner);
    assert forall k :: 0 <= k < |s.pcs| && k != i ==> s'.pcs[k] == s.pcs[k];
    forall k | 0 <= k < |s'.pcs|
      ensures PcOk(s', s'.pcs[k])
    {
      assert PcOk(s, s.pcs[k]);
    }
    assert NoReturn(s') ==> NoReturn(s);
  }

  // The holder of the mutex changes the queue: nobody else stands at a place that depends on it.
  lemma ContentInv<T>(s: State<T>, i: nat, pc: Pc<T>, queue: seq<T>, pushed: seq<T>, popped: seq<T>)
    requires Inv(s) && i < |s.pcs| && s.owner == Some(i) && !s.pcs[i].Returning?
    requires popped + queue == pushed && Holds(pc)
    requires var s' := At(s, i, pc, s.owner).(queue := queue, pushed := pushed, popped := popped);
             PcOk(s', pc) && (if pc.Returning? && pc.op.Pop? then true else popped == s.popped)
    ensures Inv(At(s, i, pc, s.owner).(queue := queue, pushed := pushed, popped := popped))
  {
    var s' := At(s, i, pc, s.owner).(queue := queue, pushed := pushed, popped := popped);
    forall k | 0 <= k < |s'.pcs|
      ensures Holds(s'.pcs[k]) <==> s'.owner == Some(k)
      ensures PcOk(s', s'.pcs[k])
    {
      assert Holds(s.pcs[k]) <==> s.owner == Some(k);
      if k != i {
        assert !Holds(s.pcs[k]);
      }
    }
  }

  lemma ReturnInv<T>(s: State<T>, i: nat)
    requires Inv(s) && i < |s.pcs| && s.pcs[i].Returning?
    ensures Inv(At(s, i, Idle, None).(returned := if s.pcs[i].op.Pop? then s.returned + [s.pcs[i].result] else s.returned))
  {
    var s' := At(s, i, Idle, None).(returned := if s.pcs[i].op.Pop? then s.returned + [s.pcs[i].result] else s.returned);
    assert PcOk(s, s.pcs[i]);
    assert Holds(s.pcs[i]) && s.owner == Some(i);
    forall k | 0 <= k < |s'.pcs|
      ensures !Holds(s'.pcs[k])
      ensures PcOk(s', s'.pcs[k])
    {
      assert Holds(s.pcs[k]) <==> s.owner == Some(k);
    }
  }

  // Every step keeps mutual exclusion, and the items popped followed by the items queued are the
  // items pushed.
  lemma StepInv<T(!new)>(s: State<T>, s': State<T>, i: nat, j: nat, e: Event<T>)
    requires Inv(s) && i < |s.pcs| && Step(s, s', i, j, e)
    ensures Inv(s') && |s'.pcs| == |s.pcs|
  {
    hide Inv, PcOk;
    assert (Holds(s.pcs[i]) <==> s.owner == Some(i)) && PcOk(s, s.pcs[i]) by { Unfold(s, i); }
    match s.pcs[i]
    case Idle =>
      if x :| s' == At(s, i, PushEnter(x), s.owner) {
        PlainInv(s, i, PushEnter(x), s.owner);
      } else {
        var op :| s' == At(s, i, WaitEnter(op), s.owner);
        PlainInv(s, i, WaitEnter(op), s.owner);
      }
    case PushEnter(x) => PlainInv(s, i, PushLocked(x), Some(i));
    case PushLocked(x) => PushInv(s, i);
    case PushDone => PlainInv(s, i, PushNotify, None);
    case PushNotify =>
      PlainInv(s, i, Idle, s.owner);
      if j < |s.pcs| && s.pcs[j].Sleeping? {
        var t := At(s, i, Idle, s.owner);
        Unfold(t, j);
        PlainInv(t, j, Woken(s.pcs[j].op), s.owner);
      }
    case WaitEnter(op) => PlainInv(s, i, Testing(op, false), Some(i));
    case Testing(op, woken) =>
      if s.queue == [] {
        PlainInv(s, i, Sleeping(op), None);
      } else {
        TestedInv(s, i, Found(op, woken));
      }
    case Sleeping(op) => PlainInv(s, i, Woken(op), s.owner);
    case Woken(op) => PlainInv(s, i, Testing(op, true), Some(i));
    case Found(op, woken) =>
      if op.Pop? {
        TestedInv(s, i, Took(s.queue[0], woken));
      } else {
        TestedInv(s, i, Returning(Front, s.queue[0]));
        LostInv(At(s, i, Returning(Front, s.queue[0]), s.owner), s'.lost);
      }
    case Took(val, woken) => RemoveInv(s, i);
    case Returning(op, result) => ReturnInv(s, i);
  }

  lemma Unfold<T>(s: State<T>, i: nat)
    requires Inv(s) && i < |s.pcs|
    ensures (Holds(s.pcs[i]) <==> s.owner == Some(i)) && PcOk(s, s.pcs[i])
  {
  }

  lemma LostInv<T>(s: State<T>, lost: nat)
    requires Inv(s)
    ensures Inv(s.(lost := lost))
  {
    var t := s.(lost := lost);
    forall k | 0 <= k < |t.pcs|
      ensures PcOk(t, t.pcs[k])
    {
      assert PcOk(s, s.pcs[k]);
    }
  }

  lemma PlainInv<T>(s: State<T>, i: nat, pc: Pc<T>, owner: Option<nat>)
    requires Inv(s) && i < |s.pcs| && !s.pcs[i].Returning?
    requires owner == s.owner || (owner in {None, Some(i)} && s.owner in {None, Some(i)})
    requires Holds(pc) <==> owner == Some(i)
    requires !pc.Found? && !pc.Took? && !pc.Returning?
    ensures Inv(At(s, i, pc, owner))
  {
    MoveInv(s, i, pc, owner);
  }

  lemma TestedInv<T>(s: State<T>, i: nat, pc: Pc<T>)
    requires Inv(s) && i < |s.pcs| && s.owner == Some(i) && !s.pcs[i].Returning? && s.queue != []
    requires pc.Found? || (pc.Took? && pc.val == s.queue[0]) || (pc.Returning? && pc.op.Front? && pc.result == s.queue[0])
    ensures Inv(At(s, i, pc, s.owner))
  {
    MoveInv(s, i, pc, s.owner);
  }

  lemma PushInv<T>(s: State<T>, i: nat)
    requires Inv(s) && i < |s.pcs| && s.pcs[i].PushLocked?
    ensures var x := s.pcs[i].item;
            Inv(At(s, i, PushDone, s.owner).(queue := s.queue + [x], pushed := s.pushed + [x]))
  {
    var x := s.pcs[i].item;
    Unfold(s, i);
    assert s.popped + (s.queue + [x]) == s.popped + s.queue + [x];
    ContentInv(s, i, PushDone, s.queue + [x], s.pushed + [x], s.popped);
  }

  lemma RemoveInv<T>(s: State<T>, i: nat)
    requires Inv(s) && i < |s.pcs| && s.pcs[i].Took? && s.queue != []
    ensures var val := s.pcs[i].val;
            val == s.queue[0]
            && Inv(At(s, i, Returning(Pop, val), s.owner).(queue := s.queue[1..], popped := s.popped + [val]))
  {
    var val := s.pcs[i].val;
    Unfold(s, i);
    assert NoReturn(s);
    assert s.popped + [val] + s.queue[1..] == s.popped + s.queue;
    ContentInv(s, i, Returning(Pop, val), s.queue[1..], s.pushed, s.popped + [val]);
  }

  // ---- refinement of an atomic FIFO ----

  // One atomic operation of a first-in first-out queue.
  predicate Fifo<T(==)>(queue: seq<T>, e: Event<T>, queue': seq<T>) {
    match e
    case Enqueue(x) => queue' == queue + [x]
    case Dequeue(x) => queue != [] && x == queue[0] && queue' == queue[1..]
    case Peek(x) => queue != [] && x == queue[0] && queue' == queue
    case Silent => queue' == queue
  }

  // Every step of every thread is an operation of the atomic queue: pop removes the then-oldest
  // item although it copies and removes in two steps, front reads it and changes nothing.
  lemma StepRefinesFifo<T(!new)>(s: State<T>, s': State<T>, i: nat, j: nat, e: Event<T>)
    requires Inv(s) && i < |s.pcs| && Step(s, s', i, j, e)
    ensures Fifo(s.queue, e, s'.queue)
  {
    hide Inv, PcOk;
    if s.pcs[i].Took? {
      RemoveInv(s, i);
    }
  }

  lemma {:induction false} RunInv<T(!new)>(run: seq<State<T>>)
    requires Run(run)
    ensures forall k :: 0 <= k < |run| ==> Inv(run[k])
    decreases |run|
  {
    var n := |run| - 1;
    if n == 0 {
      InitInv(run[0]);
    } else {
      RunPrefix(run, n);
      RunInv(run[..n]);
      assert run[..n][n - 1] == run[n - 1];
      var i: nat, j: nat, e :| i < |run[n - 1].pcs| && Step(run[n - 1], run[n], i, j, e);
      StepInv(run[n - 1], run[n], i, j, e);
      assert forall k :: 0 <= k < n ==> run[..n][k] == run[k];
    }
  }

  lemma RunPrefix<T(!new)>(run: seq<State<T>>, n: nat)
    requires Run(run) && 0 < n <= |run|
    ensures Run(run[..n])
  {
    forall k | 0 <= k < n - 1
      ensures Next(run[..n][k], run[..n][k + 1])
    {
      assert Next(run[k], run[k + 1]);
    }
  }

  // In every state of every run: at most one thread holds the mutex, the items popped followed by
  // the items queued are the items pushed, and the values that pop calls have returned, in the
  // order of returning, are the first items pushed.
  lemma FifoOverAllRuns<T(!new)>(run: seq<State<T>>, k: nat)
    requires Run(run) && k < |run|
    ensures run[k].popped + run[k].queue == run[k].pushed
    ensures run[k].returned <= run[k].pushed
    ensures forall i, j :: 0 <= i < |run[k].pcs| && 0 <= j < |run[k].pcs| && Holds(run[k].pcs[i]) && Holds(run[k].pcs[j]) ==> i == j
  {
    RunInv(run);
    var s := run[k];
    assert Inv(s);
    if !NoReturn(s) {
      assert PcOk(s, s.pcs[s.owner.value]);
    }
    assert s.returned <= s.popped;
  }
}
