/** A clip workflow's life as a sequence of operations: calls made by the
    control thread (initialize, startRender, scheduleStop, stop) interleaved
    with signals delivered by the media player, each taking effect as one
    atomic step. An operation the source cannot complete (stop with no
    player, startRender that would poll for ever, a slot calling through a
    detached player) ends the sequence. */
module Session {
  import opened WorkflowTypes
  import opened ClipWorkflow
  import FrameBuffer
  import RenderCallbacks
  import Handshake

  /** One operation on a workflow. */
  datatype Op =
    | CallInitialize(player: Player)
    | CallStartRender
    | CallScheduleStop
    | CallStop
    | Receive(sig: Signal)

  /** Which stop a session runs: the one of the source, which leaves the
      workflow's slots connected, or the corrected one, which disconnects them. */
  datatype StopVariant = AsWritten | Corrected

  /** When an operation returns: stop asserts an attached player,
      startRender polls until Ready and then calls through the player, and
      a connected slot may call through the player. */
  predicate Enabled(w: Workflow, op: Op)
  {
    match op
    case CallInitialize(_) => true
    case CallStartRender => IsReady(w) && w.player.Some?
    case CallScheduleStop => true
    case CallStop => w.player.Some?
    case Receive(sig) => Deliverable(w, sig)
  }

  /** One operation. No operation touches the clip or the buffer; only
      startRender makes a workflow Rendering, and only from Ready; only stop
      detaches the player or makes the workflow Stopped; only initialize
      attaches one. */
  function Apply(w: Workflow, op: Op, v: StopVariant): (r: Step)
    requires Enabled(w, op)
    ensures r.next.clip == w.clip && r.next.geometry == w.geometry && r.next.buffer == w.buffer
    ensures IsRendering(r.next) && !IsRendering(w) ==> op == CallStartRender && IsReady(w)
    ensures IsStopped(r.next) && !IsStopped(w) ==> op == CallStop
    ensures r.next.player.None? && w.player.Some? ==> op == CallStop
    ensures r.next.player != w.player ==> op == CallStop || op.CallInitialize?
  {
    match op
    case CallInitialize(p) => Initialize(w, p)
    case CallStartRender => StartRender(w)
    case CallScheduleStop => Step(ScheduleStop(w), [])
    case CallStop => if v == AsWritten then Stop(w) else StopAndDisconnect(w)
    case Receive(sig) => Deliver(w, sig)
  }

  /** A sequence of operations, with every command issued on the way; None
      when one of them cannot complete. The buffer allocated at construction
      is the buffer of every later workflow. */
  function Exec(w: Workflow, ops: seq<Op>, v: StopVariant): (r: Option<Step>)
    ensures r.Some? ==> r.value.next.clip == w.clip && r.value.next.geometry == w.geometry
    ensures r.Some? ==> r.value.next.buffer == w.buffer
    decreases |ops|
  {
    if ops == [] then Some(Step(w, []))
    else if !Enabled(w, ops[0]) then None
    else
      var first := Apply(w, ops[0], v);
      match Exec(first.next, ops[1..], v)
      case None => None
      case Some(rest) => Some(Step(rest.next, first.commands + rest.commands))
  }

  /** Whatever a workflow goes through, getOutput and lock hand out the
      buffer allocated by its constructor, at full capacity, and the frame
      configured for the decoder fits in it. */
  lemma BufferIsAllocatedOnce(clip: Clip, g: Geometry, id: nat, ops: seq<Op>, v: StopVariant)
    ensures var r := Exec(New(clip, g, id), ops, v);
            r.Some? ==>
              && RenderCallbacks.GetOutput(r.value.next).0 == Buffer(id, FrameBuffer.Capacity(g))
              && RenderCallbacks.Lock(r.value.next).0 == Buffer(id, FrameBuffer.Capacity(g))
              && FrameBuffer.FrameBytes(FrameBuffer.SetVmem(r.value.next.geometry)) <= RenderCallbacks.Lock(r.value.next).0.size
  {
  }

  /** Along any sequence of operations, a player that was attached is only
      ever detached by a stop. */
  lemma {:induction false} OnlyStopDetaches(w: Workflow, ops: seq<Op>, v: StopVariant)
    requires w.player.Some? && Exec(w, ops, v).Some?
    ensures Exec(w, ops, v).value.next.player.None? ==> CallStop in ops
    decreases |ops|
  {
    if ops != [] && ops[0] != CallStop {
      var first := Apply(w, ops[0], v);
      assert first.next.player.Some?;
      OnlyStopDetaches(first.next, ops[1..], v);
      assert CallStop in ops[1..] ==> CallStop in ops;
    }
  }

  /** One enabled operation. */
  lemma ExecSingle(w: Workflow, op: Op, v: StopVariant)
    requires Enabled(w, op)
    ensures Exec(w, [op], v) == Some(Apply(w, op, v))
  {
    assert [op][1..] == [];
    assert Apply(w, op, v).commands + [] == Apply(w, op, v).commands;
  }

  /** Running an enabled operation first, then the rest. */
  lemma ExecCons(w: Workflow, op: Op, rest: seq<Op>, v: StopVariant, y: Step)
    requires Enabled(w, op) && Exec(Apply(w, op, v).next, rest, v) == Some(y)
    ensures Exec(w, [op] + rest, v) == Some(Step(y.next, Apply(w, op, v).commands + y.commands))
  {
  }

  /** scheduleStop then stop ends Stopped with no player attached, from any
      workflow with a player attached, whatever its state. */
  lemma ScheduleStopThenStop(w: Workflow, v: StopVariant)
    requires w.player.Some?
    ensures var r := Exec(w, [CallScheduleStop, CallStop], v);
            r.Some? && IsStopped(r.value.next) && r.value.next.player == None
            && r.value.commands == [StopPlayback]
  {
  }

  /** stop on a workflow that was never initialized does not complete: the
      source asserts a player is attached. */
  lemma StopBeforeInitialize(clip: Clip, g: Geometry, id: nat, v: StopVariant)
    ensures Exec(New(clip, g, id), [CallStop], v) == None
  {
  }

  /** The state machine does not keep "a player is attached iff the workflow
      is not Stopped": scheduleStop on a fresh workflow leaves it
      StopScheduled with no player. */
  lemma ScheduleStopWithoutPlayer(clip: Clip, g: Geometry, id: nat)
    ensures var w := ScheduleStop(New(clip, g, id)); !IsStopped(w) && w.player == None
  {
  }

  /** The handshake of a fresh workflow: initialize, then playing,
      positionChanged and paused, leaves it Ready with the player attached,
      after configuring the media and asking the player to load it, play,
      seek to the clip's begin and pause, in this order. */
  lemma PreviewHandshake(clip: Clip, g: Geometry, id: nat, p: Player, v: StopVariant)
    ensures var r := Exec(New(clip, g, id), [CallInitialize(p), Receive(Playing), Receive(PositionChanged), Receive(Paused)], v);
            && r.Some? && IsReady(r.value.next) && r.value.next.player == Some(p)
            && r.value.commands == [ConfigureVmem(FrameBuffer.SetVmem(g)), LoadMedia(p), Play, SetPosition(clip.begin), Pause]
  {
    var w0 := New(clip, g, id);
    var s1 := Apply(w0, CallInitialize(p), v);
    var s2 := Apply(s1.next, Receive(Playing), v);
    var s3 := Apply(s2.next, Receive(PositionChanged), v);
    var s4 := Apply(s3.next, Receive(Paused), v);
    assert s1.next.connected == {SeekOnPlaying, EndOnEndReached};
    assert s2.next.connected == {PauseOnPosition, EndOnEndReached};
    assert s3.next.connected == {ReadyOnPaused, EndOnEndReached};
    ExecSingle(s3.next, Receive(Paused), v);
    ExecCons(s2.next, Receive(PositionChanged), [Receive(Paused)], v, s4);
    assert [Receive(PositionChanged)] + [Receive(Paused)] == [Receive(PositionChanged), Receive(Paused)];
    var y3 := Step(s4.next, s3.commands + s4.commands);
    ExecCons(s1.next, Receive(Playing), [Receive(PositionChanged), Receive(Paused)], v, y3);
    assert [Receive(Playing)] + [Receive(PositionChanged), Receive(Paused)]
        == [Receive(Playing), Receive(PositionChanged), Receive(Paused)];
    var y2 := Step(s4.next, s2.commands + y3.commands);
    ExecCons(w0, CallInitialize(p), [Receive(Playing), Receive(PositionChanged), Receive(Paused)], v, y2);
    assert [CallInitialize(p)] + [Receive(Playing), Receive(PositionChanged), Receive(Paused)]
        == [CallInitialize(p), Receive(Playing), Receive(PositionChanged), Receive(Paused)];
  }

  /** From Ready with a player attached: startRender makes the workflow
      Rendering after asking the player to play, and a stop after it leaves
      the workflow Stopped with no player. */
  lemma RenderThenStop(w: Workflow, v: StopVariant)
    requires IsReady(w) && w.player.Some?
    ensures var r := Exec(w, [CallStartRender], v);
            r.Some? && IsRendering(r.value.next) && r.value.commands == [Play]
    ensures var r := Exec(w, [CallStartRender, CallStop], v);
            r.Some? && IsStopped(r.value.next) && r.value.next.player == None
            && r.value.commands == [Play, StopPlayback]
  {
  }

  /** A completed sequence that starts with `op`: `op` was enabled and the
      rest completed from where it left the workflow. */
  lemma ExecUnfold(w: Workflow, op: Op, rest: seq<Op>, v: StopVariant, y: Step)
    requires Exec(w, [op] + rest, v) == Some(y)
    ensures Enabled(w, op)
    ensures var r := Exec(Apply(w, op, v).next, rest, v);
            r.Some? && y == Step(r.value.next, Apply(w, op, v).commands + r.value.commands)
  {
  }

  /** A non-empty sequence is its head followed by its tail, also when
      something is appended to it. */
  lemma SplitHead<T>(a: seq<T>, b: seq<T>)
    requires a != []
    ensures a == [a[0]] + a[1..] && a + b == [a[0]] + (a[1..] + b)
  {
  }

  /** Concatenation is associative. */
  lemma AppendAssoc<T>(x: seq<T>, y: seq<T>, z: seq<T>)
    ensures x + (y + z) == (x + y) + z
  {
  }

  /** Running one sequence, then another from where it ended. */
  lemma {:induction false} ExecAppend(w: Workflow, a: seq<Op>, b: seq<Op>, v: StopVariant, ya: Step, yb: Step)
    requires Exec(w, a, v) == Some(ya) && Exec(ya.next, b, v) == Some(yb)
    ensures Exec(w, a + b, v) == Some(Step(yb.next, ya.commands + yb.commands))
    decreases |a|
  {
    if a == [] {
      assert a + b == b && ya == Step(w, []);
      assert ya.commands + yb.commands == yb.commands;
    } else {
      var op, rest := a[0], a[1..];
      SplitHead(a, b);
      ExecUnfold(w, op, rest, v, ya);
      var first := Apply(w, op, v);
      var mid := Exec(first.next, rest, v).value;
      ExecAppend(first.next, rest, b, v, mid, yb);
      ExecCons(w, op, rest + b, v, Step(yb.next, mid.commands + yb.commands));
      AppendAssoc(first.commands, mid.commands, yb.commands);
    }
  }

  // ---------------------------------------------------------------------
  // stop as written leaves the handshake slots connected

  /** stop in the middle of the handshake, after playing: the player is
      stopped and detached, and the positionChanged slot stays connected. */
  lemma StopMidHandshake(clip: Clip, g: Geometry, id: nat, p: Player)
    ensures var r := Exec(New(clip, g, id), [CallInitialize(p), Receive(Playing), CallStop], AsWritten);
            && r.Some? && IsStopped(r.value.next) && r.value.next.player == None
            && r.value.next.connected == {PauseOnPosition, EndOnEndReached}
            && r.value.next.geometry == g
            && r.value.commands == [ConfigureVmem(FrameBuffer.SetVmem(g)), LoadMedia(p), Play, SetPosition(clip.begin), StopPlayback]
  {
    var w0 := New(clip, g, id);
    var s1 := Apply(w0, CallInitialize(p), AsWritten);
    var s2 := Apply(s1.next, Receive(Playing), AsWritten);
    var s3 := Apply(s2.next, CallStop, AsWritten);
    assert s2.next.connected == {PauseOnPosition, EndOnEndReached};
    ExecSingle(s2.next, CallStop, AsWritten);
    ExecCons(s1.next, Receive(Playing), [CallStop], AsWritten, s3);
    var y2 := Step(s3.next, s2.commands + s3.commands);
    assert [Receive(Playing)] + [CallStop] == [Receive(Playing), CallStop];
    ExecCons(w0, CallInitialize(p), [Receive(Playing), CallStop], AsWritten, y2);
    assert [CallInitialize(p)] + [Receive(Playing), CallStop] == [CallInitialize(p), Receive(Playing), CallStop];
  }

  /** With the positionChanged slot left connected, initialize followed by
      positionChanged and paused alone makes the workflow Ready: no playing
      signal and no seek are needed. */
  lemma ResumeStaleHandshake(w: Workflow, p: Player)
    requires w.connected == {PauseOnPosition, EndOnEndReached}
    ensures var r := Exec(w, [CallInitialize(p), Receive(PositionChanged), Receive(Paused)], AsWritten);
            && r.Some? && IsReady(r.value.next) && r.value.next.player == Some(p)
            && r.value.commands == [ConfigureVmem(FrameBuffer.SetVmem(w.geometry)), LoadMedia(p), Play, Pause]
  {
    var s1 := Apply(w, CallInitialize(p), AsWritten);
    var s2 := Apply(s1.next, Receive(PositionChanged), AsWritten);
    var s3 := Apply(s2.next, Receive(Paused), AsWritten);
    assert s2.next.connected == {SeekOnPlaying, ReadyOnPaused, EndOnEndReached};
    ExecSingle(s2.next, Receive(Paused), AsWritten);
    ExecCons(s1.next, Receive(PositionChanged), [Receive(Paused)], AsWritten, s3);
    var y2 := Step(s3.next, s2.commands + s3.commands);
    assert [Receive(PositionChanged)] + [Receive(Paused)] == [Receive(PositionChanged), Receive(Paused)];
    ExecCons(w, CallInitialize(p), [Receive(PositionChanged), Receive(Paused)], AsWritten, y2);
    assert [CallInitialize(p)] + [Receive(PositionChanged), Receive(Paused)]
        == [CallInitialize(p), Receive(PositionChanged), Receive(Paused)];
  }

  /** A handshake cut short by stop resumes where it was after the next
      initialize: with the positionChanged slot still connected, the
      workflow becomes Ready on positionChanged and paused alone, without a
      playing signal and without seeking to the clip's begin again, although
      the signals after the second initialize are not the ordered handshake. */
  lemma InterruptedHandshakeResumes(clip: Clip, g: Geometry, id: nat, p: Player)
    ensures var r := Exec(New(clip, g, id),
                          [CallInitialize(p), Receive(Playing), CallStop,
                           CallInitialize(p), Receive(PositionChanged), Receive(Paused)], AsWritten);
            var c := ConfigureVmem(FrameBuffer.SetVmem(g));
            && r.Some? && IsReady(r.value.next) && r.value.next.player == Some(p)
            && !Handshake.ArrivesInOrder([PositionChanged, Paused])
            && r.value.commands == [c, LoadMedia(p), Play, SetPosition(clip.begin), StopPlayback,
                                    c, LoadMedia(p), Play, Pause]
  {
    var a := [CallInitialize(p), Receive(Playing), CallStop];
    var b := [CallInitialize(p), Receive(PositionChanged), Receive(Paused)];
    assert a + b == [CallInitialize(p), Receive(Playing), CallStop,
                     CallInitialize(p), Receive(PositionChanged), Receive(Paused)];
    StopMidHandshake(clip, g, id, p);
    var ya := Exec(New(clip, g, id), a, AsWritten).value;
    ResumeStaleHandshake(ya.next, p);
    var yb := Exec(ya.next, b, AsWritten).value;
    ExecAppend(New(clip, g, id), a, b, AsWritten, ya, yb);
  }

  /** A paused signal after stop still reaches the connected paused slot:
      the workflow becomes Ready with no player attached, so a startRender
      would call through the detached player. And a playing signal after
      stop reaches the seek slot, which calls through the detached player. */
  lemma ReadyWithoutPlayerAfterStop(clip: Clip, g: Geometry, id: nat, p: Player)
    ensures var r := Exec(New(clip, g, id),
                          [CallInitialize(p), Receive(Playing), Receive(PositionChanged), CallStop, Receive(Paused)],
                          AsWritten);
            && r.Some? && IsReady(r.value.next) && r.value.next.player == None
            && !Enabled(r.value.next, CallStartRender)
    ensures Exec(New(clip, g, id), [CallInitialize(p), CallStop, Receive(Playing)], AsWritten) == None
  {
    var w0 := New(clip, g, id);
    var s1 := Apply(w0, CallInitialize(p), AsWritten);
    var s2 := Apply(s1.next, Receive(Playing), AsWritten);
    var s3 := Apply(s2.next, Receive(PositionChanged), AsWritten);
    var s4 := Apply(s3.next, CallStop, AsWritten);
    var s5 := Apply(s4.next, Receive(Paused), AsWritten);
    assert s4.next.connected == {ReadyOnPaused, EndOnEndReached};
    ExecSingle(s4.next, Receive(Paused), AsWritten);
    ExecCons(s3.next, CallStop, [Receive(Paused)], AsWritten, s5);
    var y4 := Step(s5.next, s4.commands + s5.commands);
    var t4 := [CallStop] + [Receive(Paused)];
    ExecCons(s2.next, Receive(PositionChanged), t4, AsWritten, y4);
    var y3 := Step(s5.next, s3.commands + y4.commands);
    var t3 := [Receive(PositionChanged)] + t4;
    ExecCons(s1.next, Receive(Playing), t3, AsWritten, y3);
    var y2 := Step(s5.next, s2.commands + y3.commands);
    var t2 := [Receive(Playing)] + t3;
    ExecCons(w0, CallInitialize(p), t2, AsWritten, y2);
    assert [CallInitialize(p)] + t2
        == [CallInitialize(p), Receive(Playing), Receive(PositionChanged), CallStop, Receive(Paused)];

    var u2 := Apply(s1.next, CallStop, AsWritten);
    assert !Enabled(u2.next, Receive(Playing));
    assert [CallInitialize(p), CallStop, Receive(Playing)][1..] == [CallStop, Receive(Playing)];
    assert [CallStop, Receive(Playing)][1..] == [Receive(Playing)];
  }

  // ---------------------------------------------------------------------
  // The corrected stop

  /** With the corrected stop, a stopped workflow starts the next handshake
      afresh: after initialize, whatever signals follow, it is Ready only
      if playing, positionChanged and paused arrived in this order, and the
      seek and the pause are each requested at most once, seek first. */
  lemma CorrectedStopRestartsHandshake(w: Workflow, p: Player, sigs: seq<Signal>)
    requires w.player.Some?
    ensures var w1 := StopAndDisconnect(w).next;
            var r := Handshake.Run(Initialize(w1, p).next, sigs);
            && r.next.player == Some(p)
            && r.next.state != Rendering
            && (r.next.state == Ready ==> Handshake.ArrivesInOrder(sigs))
            && (Handshake.ArrivesInOrder(sigs) && EndOfMedia !in sigs ==> r.next.state == Ready)
            && r.commands in {[], [SetPosition(w.clip.begin)], [SetPosition(w.clip.begin), Pause]}
  {
    Handshake.InitializeThenSignals(StopAndDisconnect(w).next, p, sigs);
  }

  /** The signals of the interrupted handshake above, after a corrected stop
      and a new initialize, do not make the workflow Ready: the new
      handshake waits for playing. */
  lemma CorrectedStopWaitsForPlaying(w: Workflow, p: Player)
    requires w.player.Some?
    ensures var w1 := Initialize(StopAndDisconnect(w).next, p).next;
            Handshake.Run(w1, [PositionChanged, Paused]).next.state != Ready
  {
  }

  /** A player is attached whenever the workflow is Ready or Rendering, or a
      connected slot would call through the player. */
  predicate PlayerWhenNeeded(w: Workflow)
  {
    (IsReady(w) || IsRendering(w) || SeekOnPlaying in w.connected
     || PauseOnPosition in w.connected || ReadyOnPaused in w.connected)
    ==> w.player.Some?
  }

  /** Every operation with the corrected stop keeps PlayerWhenNeeded. */
  lemma CorrectedStepKeepsPlayerWhenNeeded(w: Workflow, op: Op)
    requires PlayerWhenNeeded(w) && Enabled(w, op)
    ensures PlayerWhenNeeded(Apply(w, op, Corrected).next)
  {
  }

  /** With the corrected stop, from any workflow where a player is attached
      whenever it is needed (a new one included), every completed sequence
      ends the same way: a Ready workflow can start rendering, and every
      signal can be delivered without calling through a detached player. */
  lemma {:induction false} CorrectedKeepsPlayerWhenNeeded(w: Workflow, ops: seq<Op>)
    requires PlayerWhenNeeded(w)
    ensures var r := Exec(w, ops, Corrected);
            r.Some? ==>
              && PlayerWhenNeeded(r.value.next)
              && (IsReady(r.value.next) ==> Enabled(r.value.next, CallStartRender))
              && forall sig :: Enabled(r.value.next, Receive(sig))
    decreases |ops|
  {
    if ops != [] && Enabled(w, ops[0]) {
      CorrectedStepKeepsPlayerWhenNeeded(w, ops[0]);
      CorrectedKeepsPlayerWhenNeeded(Apply(w, ops[0], Corrected).next, ops[1..]);
    }
  }

  /** With the corrected stop, a workflow's whole life, from construction
      on, never leaves it Ready without a player or with a connected slot
      that would call through a detached player. */
  lemma CorrectedSessionFromNew(clip: Clip, g: Geometry, id: nat, ops: seq<Op>)
    ensures var r := Exec(New(clip, g, id), ops, Corrected);
            r.Some? ==>
              && (IsReady(r.value.next) ==> Enabled(r.value.next, CallStartRender))
              && forall sig :: Enabled(r.value.next, Receive(sig))
  {
    CorrectedKeepsPlayerWhenNeeded(New(clip, g, id), ops);
  }
}
