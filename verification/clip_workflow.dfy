/** The per-clip preview workflow (ClipWorkflow) as a state machine: every
    operation is a transition function from one workflow record to the next,
    paired with the commands it sends to the media player. The locks taken
    around each transition only serialise it against the other thread and
    are not part of this module (see RenderCallbacks for the ones that
    matter to the frame callbacks). */
module ClipWorkflow {
  import opened WorkflowTypes
  import FrameBuffer

  /** Everything but the state is the same: the same clip, buffer, attached
      player and connections. */
  predicate SameSession(a: Workflow, b: Workflow)
  {
    a.clip == b.clip && a.geometry == b.geometry && a.buffer == b.buffer
    && a.player == b.player && a.connected == b.connected
  }

  /** Only the state and the connections may differ: the same clip, buffer
      and attached player. */
  predicate SamePlayer(a: Workflow, b: Workflow)
  {
    a.clip == b.clip && a.geometry == b.geometry && a.buffer == b.buffer && a.player == b.player
  }

  /** The constructor: allocates the buffer once, at full capacity, and
      starts Stopped with no player attached and no slot connected. */
  function New(clip: Clip, g: Geometry, bufferId: nat): (w: Workflow)
    ensures w.state == Stopped && w.player == None && w.connected == {}
    ensures w.buffer.id == bufferId && w.buffer.size == FrameBuffer.Capacity(g)
    ensures w.clip == clip && w.geometry == g
  {
    Workflow(clip, g, Buffer(bufferId, FrameBuffer.Capacity(g)), Stopped, None, {})
  }

  /** setState: replaces the state and nothing else. */
  function SetState(w: Workflow, s: State): (r: Workflow)
    ensures r.state == s && SameSession(w, r)
  {
    w.(state := s)
  }

  // ---------------------------------------------------------------------
  // Read-only queries

  function GetState(w: Workflow): State
  {
    w.state
  }

  predicate IsReady(w: Workflow)
  {
    GetState(w) == Ready
  }

  predicate IsRendering(w: Workflow)
  {
    GetState(w) == Rendering
  }

  predicate IsStopped(w: Workflow)
  {
    GetState(w) == Stopped
  }

  predicate IsEndReached(w: Workflow)
  {
    GetState(w) == EndReached
  }

  /** The four boolean queries never hold together, and all four are false
      exactly in the two states they do not name. */
  lemma QueriesPartitionStates(w: Workflow)
    ensures (if IsReady(w) then 1 else 0) + (if IsRendering(w) then 1 else 0)
          + (if IsStopped(w) then 1 else 0) + (if IsEndReached(w) then 1 else 0) <= 1
    ensures !IsReady(w) && !IsRendering(w) && !IsStopped(w) && !IsEndReached(w)
            <==> GetState(w) in {Initializing, StopScheduled}
  {
  }

  // ---------------------------------------------------------------------
  // Transitions

  /** scheduleStop: StopScheduled from any state; keeps the player attached. */
  function ScheduleStop(w: Workflow): (r: Workflow)
    ensures r.state == StopScheduled && SameSession(w, r)
    ensures !IsStopped(r) && !IsRendering(r)
  {
    SetState(w, StopScheduled)
  }

  /** endReached: EndReached from any state; keeps the player attached. */
  function MarkEndReached(w: Workflow): (r: Workflow)
    ensures IsEndReached(r) && SameSession(w, r)
  {
    SetState(w, EndReached)
  }

  /** initialize: configures the media's memory video output, attaches the
      player, connects the playing and endReached slots and asks the player
      to play. Nothing is checked about a player already attached. */
  function Initialize(w: Workflow, p: Player): (r: Step)
    ensures r.next.state == Initializing && r.next.player == Some(p)
    ensures r.next.connected == w.connected + {SeekOnPlaying, EndOnEndReached}
    ensures r.next.clip == w.clip && r.next.geometry == w.geometry && r.next.buffer == w.buffer
    ensures r.commands == [ConfigureVmem(FrameBuffer.SetVmem(w.geometry)), LoadMedia(p), Play]
  {
    var w1 := SetState(w, Initializing);
    var config := FrameBuffer.SetVmem(w1.geometry);
    var w2 := w1.(player := Some(p));
    var w3 := w2.(connected := w2.connected + {SeekOnPlaying} + {EndOnEndReached});
    Step(w3, [ConfigureVmem(config), LoadMedia(p), Play])
  }

  /** setPositionAfterPlayback (first handshake step, on playing): swaps its
      own connection for the positionChanged one and seeks to the clip's begin. */
  function SetPositionAfterPlayback(w: Workflow): (r: Step)
    requires w.player.Some?
    ensures SamePlayer(w, r.next) && r.next.state == w.state
    ensures SeekOnPlaying !in r.next.connected && PauseOnPosition in r.next.connected
    ensures forall s :: s != SeekOnPlaying && s != PauseOnPosition ==> (s in r.next.connected <==> s in w.connected)
    ensures r.commands == [SetPosition(w.clip.begin)]
  {
    var w1 := w.(connected := w.connected - {SeekOnPlaying});
    var w2 := w1.(connected := w1.connected + {PauseOnPosition});
    Step(w2, [SetPosition(w.clip.begin)])
  }

  /** pauseAfterPlaybackStarted (second step, on positionChanged): swaps its
      own connection for the paused one and asks the player to pause. Its
      second disconnect names a connection that is never made. */
  function PauseAfterPlaybackStarted(w: Workflow): (r: Step)
    requires w.player.Some?
    ensures SamePlayer(w, r.next) && r.next.state == w.state
    ensures PauseOnPosition !in r.next.connected && ReadyOnPaused in r.next.connected
    ensures forall s :: s != PauseOnPosition && s != ReadyOnPaused ==> (s in r.next.connected <==> s in w.connected)
    ensures r.commands == [Pause]
  {
    var w1 := w.(connected := w.connected - {PauseOnPosition});
    var w2 := w1.(connected := w1.connected + {ReadyOnPaused});
    Step(w2, [Pause])
  }

  /** pausedMediaPlayer (last step, on paused): disconnects itself and makes
      the workflow Ready, whatever its state. The disconnect goes through
      m_mediaPlayer, so with no player attached it fails and the connection
      stays. */
  function PausedMediaPlayer(w: Workflow): (r: Workflow)
    ensures IsReady(r) && SamePlayer(w, r)
    ensures w.player.Some? ==> r.connected == w.connected - {ReadyOnPaused}
    ensures w.player.None? ==> r.connected == w.connected
  {
    var w1 := if w.player.Some? then w.(connected := w.connected - {ReadyOnPaused}) else w;
    SetState(w1, Ready)
  }

  /** startRender: returns only once the workflow is Ready (the polling loop),
      then asks the player to play and makes the workflow Rendering. */
  function StartRender(w: Workflow): (r: Step)
    requires IsReady(w) && w.player.Some?
    ensures IsRendering(r.next) && !IsReady(r.next) && SameSession(w, r.next)
    ensures r.commands == [Play]
  {
    Step(SetState(w, Rendering), [Play])
  }

  /** stop: asserts a player is attached, stops and detaches it, and makes
      the workflow Stopped whatever its state. Connections are left as they are. */
  function Stop(w: Workflow): (r: Step)
    requires w.player.Some?
    ensures IsStopped(r.next) && r.next.player == None
    ensures r.next.clip == w.clip && r.next.geometry == w.geometry && r.next.buffer == w.buffer
    ensures r.next.connected == w.connected
    ensures r.commands == [StopPlayback]
  {
    Step(w.(player := None, state := Stopped), [StopPlayback])
  }

  /** stop, corrected: as stop, and also disconnects every slot the workflow
      connected to the player, so that a handshake cut short by stop cannot
      resume after the next initialize or run with no player attached. */
  function StopAndDisconnect(w: Workflow): (r: Step)
    requires w.player.Some?
    ensures IsStopped(r.next) && r.next.player == None && r.next.connected == {}
    ensures r.next.clip == w.clip && r.next.geometry == w.geometry && r.next.buffer == w.buffer
    ensures r.commands == Stop(w).commands
  {
    var s := Stop(w);
    Step(s.next.(connected := {}), s.commands)
  }

  // ---------------------------------------------------------------------
  // Signal delivery

  /** The slots that call through m_mediaPlayer before anything else. */
  predicate NeedsPlayer(slot: Slot)
  {
    slot == SeekOnPlaying || slot == PauseOnPosition
  }

  /** A signal can be delivered unless its listening slot is connected and
      would call through a detached player. */
  predicate Deliverable(w: Workflow, sig: Signal)
  {
    ListenerOf(sig) in w.connected && NeedsPlayer(ListenerOf(sig)) ==> w.player.Some?
  }

  /** Delivery of a media player signal: runs the slot connected to it, if
      any; a signal nobody listens to changes nothing. Each slot's effect is
      stated whatever else is connected, stale connections included. */
  function Deliver(w: Workflow, sig: Signal): (r: Step)
    requires Deliverable(w, sig)
    ensures SamePlayer(w, r.next)
    ensures ListenerOf(sig) !in w.connected ==> r == Step(w, [])
    ensures r.next.state != w.state ==>
              (sig == Paused && r.next.state == Ready) || (sig == EndOfMedia && r.next.state == EndReached)
    ensures ListenerOf(sig) in w.connected && sig == Playing ==>
              && r.next.state == w.state && r.commands == [SetPosition(w.clip.begin)]
              && r.next.connected == w.connected - {SeekOnPlaying} + {PauseOnPosition}
    ensures ListenerOf(sig) in w.connected && sig == PositionChanged ==>
              && r.next.state == w.state && r.commands == [Pause]
              && r.next.connected == w.connected - {PauseOnPosition} + {ReadyOnPaused}
    ensures ListenerOf(sig) in w.connected && sig == Paused ==>
              && IsReady(r.next) && r.commands == []
              && r.next.connected == (if w.player.Some? then w.connected - {ReadyOnPaused} else w.connected)
    ensures ListenerOf(sig) in w.connected && sig == EndOfMedia ==>
              && IsEndReached(r.next) && r.commands == [] && r.next.connected == w.connected
  {
    if ListenerOf(sig) !in w.connected then Step(w, [])
    else
      match sig
      case Playing => SetPositionAfterPlayback(w)
      case PositionChanged => PauseAfterPlaybackStarted(w)
      case Paused => Step(PausedMediaPlayer(w), [])
      case EndOfMedia => Step(MarkEndReached(w), [])
  }
}
