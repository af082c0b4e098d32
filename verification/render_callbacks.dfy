/** The frame callbacks the decoder calls around every frame it writes
    (ClipWorkflow::lock and ClipWorkflow::unlock), and getOutput, modelled by
    the buffer they hand out and the sequence of lock operations they perform.
    The mutexes themselves, and the thread that wakes a producer waiting on
    the condition, are abstracted: a lock operation is an event, and a
    sequence of events is well formed when no lock is released, and the
    condition is not waited on, by a thread that does not hold the lock. */
module RenderCallbacks {
  import opened WorkflowTypes

  /** The three locks the callbacks take: the render mutex shared with the
      consumer, the workflow's state lock, and the mutex paired with the
      back-pressure condition. */
  datatype LockId = RenderMutex | StateLock | ConditionMutex

  /** One lock operation by the calling thread. Waiting on the condition
      releases the condition mutex and holds it again on wake-up, so it
      needs the mutex held and leaves the count as it was. */
  datatype LockEvent = Acquire(id: LockId) | Release(id: LockId) | WaitOnCondition

  /** Replays events on one lock, starting with `held` holds: the number of
      holds at the end, or None as soon as the lock is released, or the
      condition waited on, without a hold. */
  function Replay(events: seq<LockEvent>, l: LockId, held: nat): Option<nat>
    decreases |events|
  {
    if events == [] then Some(held)
    else
      match events[0]
      case Acquire(m) =>
        Replay(events[1..], l, if m == l then held + 1 else held)
      case Release(m) =>
        if m == l && held == 0 then None
        else Replay(events[1..], l, if m == l then held - 1 else held)
      case WaitOnCondition =>
        if l == ConditionMutex && held == 0 then None
        else Replay(events[1..], l, held)
  }

  /** Every lock is only released while held and ends released. */
  predicate Balanced(events: seq<LockEvent>)
  {
    forall l :: Replay(events, l, 0) == Some(0)
  }

  /** What the unlock callback does: whether the producer thread waits on the
      back-pressure condition, and the lock events on the way. */
  datatype UnlockOutcome = UnlockOutcome(waits: bool, events: seq<LockEvent>)

  /** getOutput: the buffer, read under the render mutex. */
  function GetOutput(w: Workflow): (r: (Buffer, seq<LockEvent>))
    ensures r.0 == w.buffer && Balanced(r.1)
    ensures Acquire(RenderMutex) in r.1
  {
    (w.buffer, [Acquire(RenderMutex), Release(RenderMutex)])
  }

  /** lock: takes the render mutex and hands the decoder the workflow's
      buffer, whatever the state; the mutex stays held until unlock. */
  function Lock(w: Workflow): (r: (Buffer, seq<LockEvent>))
    ensures r.0 == w.buffer
    ensures Replay(r.1, RenderMutex, 0) == Some(1)
    ensures Replay(r.1, StateLock, 0) == Some(0) && Replay(r.1, ConditionMutex, 0) == Some(0)
    ensures forall l :: l != RenderMutex ==> Acquire(l) !in r.1
  {
    (w.buffer, [Acquire(RenderMutex)])
  }

  /** unlock, as written: releases the render mutex, reads the state under
      the state lock and, when Rendering, waits on the condition after
      releasing the state lock; then releases the state lock once more, in
      both branches. */
  function UnlockAsWritten(w: Workflow): (r: UnlockOutcome)
    ensures r.waits <==> w.state == Rendering
    ensures |r.events| > 0 && r.events[0] == Release(RenderMutex)
    ensures WaitOnCondition in r.events <==> r.waits
  {
    var wait := w.state == Rendering;
    UnlockOutcome(wait, ReadState + (if wait then WaitForConsumer else []) + [Release(StateLock)])
  }

  /** unlock, corrected: the state lock is released exactly once, before
      waiting when Rendering and straight after reading the state otherwise. */
  function Unlock(w: Workflow): (r: UnlockOutcome)
    ensures r.waits <==> w.state == Rendering
    ensures |r.events| > 0 && r.events[0] == Release(RenderMutex)
    ensures WaitOnCondition in r.events <==> r.waits
  {
    var wait := w.state == Rendering;
    UnlockOutcome(wait, ReadState + if wait then WaitForConsumer else [Release(StateLock)])
  }

  /** The decoder's lock/unlock pair around one frame leaves every lock
      released, whatever the state, and waits exactly when Rendering. */
  lemma LockUnlockBalanced(w: Workflow)
    ensures Balanced(Lock(w).1 + Unlock(w).events)
    ensures Unlock(w).waits <==> w.state == Rendering
  {
    var events := Lock(w).1 + Unlock(w).events;
    forall l
      ensures Replay(events, l, 0) == Some(0)
    {
      ReplayPair(w, l);
    }
  }

  /** Replaying a concatenation replays the first part, then the second
      from where the first left off. */
  lemma {:induction false} ReplayConcat(a: seq<LockEvent>, b: seq<LockEvent>, l: LockId, held: nat)
    ensures Replay(a + b, l, held)
            == (match Replay(a, l, held) case None => None case Some(h) => Replay(b, l, h))
    decreases |a|
  {
    if a != [] {
      assert (a + b)[0] == a[0] && (a + b)[1..] == a[1..] + b;
      match a[0]
      case Acquire(m) =>
        ReplayConcat(a[1..], b, l, if m == l then held + 1 else held);
      case Release(m) =>
        if !(m == l && held == 0) {
          ReplayConcat(a[1..], b, l, if m == l then held - 1 else held);
        }
      case WaitOnCondition =>
        if !(l == ConditionMutex && held == 0) {
          ReplayConcat(a[1..], b, l, held);
        }
    } else {
      assert a + b == b;
    }
  }

  /** The events of unlock up to reading the state. */
  const ReadState: seq<LockEvent> := [Release(RenderMutex), Acquire(StateLock)]

  /** The events of unlock waiting for the consumer while Rendering. */
  const WaitForConsumer: seq<LockEvent> :=
    [Acquire(ConditionMutex), Release(StateLock), WaitOnCondition, Release(ConditionMutex)]

  lemma ReplayReadState(l: LockId)
    ensures Replay(ReadState, l, if l == RenderMutex then 1 else 0) == Some(if l == StateLock then 1 else 0)
  {
  }

  lemma ReplayWaitForConsumer(l: LockId)
    ensures Replay(WaitForConsumer, l, if l == StateLock then 1 else 0) == Some(0)
  {
  }

  lemma ReplayPair(w: Workflow, l: LockId)
    ensures Replay(Lock(w).1 + Unlock(w).events, l, 0) == Some(0)
  {
    var tail := if w.state == Rendering then WaitForConsumer else [Release(StateLock)];
    assert Unlock(w).events == ReadState + tail;
    assert Lock(w).1 + Unlock(w).events == (Lock(w).1 + ReadState) + tail;
    ReplayConcat(Lock(w).1 + ReadState, tail, l, 0);
    ReplayConcat(Lock(w).1, ReadState, l, 0);
    ReplayReadState(l);
    if w.state == Rendering {
      ReplayWaitForConsumer(l);
    }
  }

  /** The as-written unlock is balanced outside Rendering. */
  lemma UnlockAsWrittenBalancedWhenIdle(w: Workflow)
    requires w.state != Rendering
    ensures Balanced(Lock(w).1 + UnlockAsWritten(w).events)
    ensures UnlockAsWritten(w) == Unlock(w)
  {
    assert UnlockAsWritten(w).events == Unlock(w).events;
    LockUnlockBalanced(w);
  }

  /** In the Rendering branch, the as-written unlock releases the state lock
      a second time after the wait, when the thread no longer holds it. */
  lemma UnlockAsWrittenReleasesStateLockTwice(w: Workflow)
    requires w.state == Rendering
    ensures Replay(Lock(w).1 + UnlockAsWritten(w).events, StateLock, 0) == None
    ensures !Balanced(Lock(w).1 + UnlockAsWritten(w).events)
  {
    var prefix := Lock(w).1 + Unlock(w).events;
    assert Lock(w).1 + UnlockAsWritten(w).events == prefix + [Release(StateLock)];
    ReplayPair(w, StateLock);
    ReplayConcat(prefix, [Release(StateLock)], StateLock, 0);
  }
}
