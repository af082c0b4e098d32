# Clip workflow state machine

A Dafny model of the per-clip preview workflow of VLMC. `ClipWorkflow` is
the object that drives one clip's media player: it owns a frame buffer, a
state, and an optional attached media player. The decoder calls its
`lock`/`unlock` frame callbacks around every frame it writes into the buffer.

The model is functional. A workflow is an immutable record. It holds the clip,
the frame geometry, the buffer, the state, the attached player and the set of
its slots currently connected to the player's signals. Every operation is a
transition function that returns the next record together with the commands it
issues: configuring the clip's media for memory output, and asking the player
to load the media, play, pause, seek or stop.

The connections are a set, not a list. In the source, connecting again creates a
duplicate connection, but this loses nothing:
- a disconnect removes every duplicate;
- a connection removed during an emission is skipped;
- the endReached slot gives the same state however often it runs.

- `workflow_types.dfy`, module `WorkflowTypes`: the states, signals, slots,
  commands, and the workflow record.
- `frame_buffer.dfy`, module `FrameBuffer`: the buffer capacity and the frame
  geometry that `setVmem` configures.
- `clip_workflow.dfy`, module `ClipWorkflow`: the constructor, every
  transition, the read-only queries, and the delivery of a player signal to
  the connected slot.
- `handshake.dfy`, module `Handshake`: the initialization handshake
  (playing, then positionChanged, then paused). It is described a second time,
  independently, as a dispatch table indexed by the signal expected next.
  Lemmas prove that the connect/disconnect wiring follows the table, and
  state the ordering properties.
- `render_callbacks.dfy`, module `RenderCallbacks`: `getOutput`, `lock` and
  `unlock`, each modelled by the buffer it hands out and the sequence of lock
  operations it performs.
- `session.dfy`, module `Session`: any interleaving of control calls and
  player signals, each taken as one atomic step, and the invariants kept
  along it. A session runs either the stop of the source or a corrected stop
  that also disconnects the workflow's slots (see Findings).

Notes on the code's behaviour:
- `initialize` does not check whether a player is already attached.
- `stop` without an attached player is an assertion failure (`Q_ASSERT`),
  not a recoverable error. It is modelled as a precondition. Inside an
  operation sequence it ends the sequence (`Session.Exec` returns `None`).
- A player can be detached while the state is not Stopped. `scheduleStop`
  and `endReached` change the state whether or not a player is attached;
  `Session.ScheduleStopWithoutPlayer` shows this.
- `pausedMediaPlayer` sets Ready whatever the current state is, so a paused
  signal after an endReached signal makes the workflow Ready again.

## Model

| member | source | states |
|---|---|---|
| ClipWorkflow.New | src/Workflow/ClipWorkflow.cpp:27-39 | A new workflow is Stopped, with no player attached and no slot connected. Its buffer is allocated once, with capacity VIDEOHEIGHT × VIDEOWIDTH × 4. |
| FrameBuffer.SetVmem | src/Workflow/ClipWorkflow.cpp:84-103 | The configured frame is RV24 at the maximum width and height, with a pitch of width × 3. Pitch × height fits in the buffer, with width × height bytes to spare. |
| ClipWorkflow.SetState | src/Workflow/ClipWorkflow.cpp:206-210 | Replaces the state. The clip, buffer, player and connections are unchanged. |
| ClipWorkflow.ScheduleStop | src/Workflow/ClipWorkflow.cpp:47-51 | From any state, the result is StopScheduled, which is neither Stopped nor Rendering. The player, buffer and connections are kept. |
| ClipWorkflow.MarkEndReached | src/Workflow/ClipWorkflow.cpp:173-177 | From any state, the result is EndReached. The player, buffer and connections are kept. |
| ClipWorkflow.QueriesPartitionStates | src/Workflow/ClipWorkflow.cpp:141-163 | At most one of isReady, isRendering (lines 200-204), isStopped and isEndReached holds. All four are false exactly when getState is Initializing or StopScheduled. |
| ClipWorkflow.Initialize | src/Workflow/ClipWorkflow.cpp:105-115 | The state becomes Initializing and the given player is attached. The playing and endReached slots are added to the connections. In order: the clip's media is configured for memory output, then the player loads it and plays. |
| ClipWorkflow.SetPositionAfterPlayback | src/Workflow/ClipWorkflow.cpp:117-122 | Needs an attached player. Replaces its own connection with the positionChanged slot and seeks to the clip's begin. The state does not change. |
| ClipWorkflow.PauseAfterPlaybackStarted | src/Workflow/ClipWorkflow.cpp:124-132 | Needs an attached player. Replaces its own connection with the paused slot and requests a pause. The state does not change. |
| ClipWorkflow.PausedMediaPlayer | src/Workflow/ClipWorkflow.cpp:134-139 | The state becomes Ready. The slot disconnects itself only if a player is attached; a disconnect through a null sender fails. |
| ClipWorkflow.StartRender | src/Workflow/ClipWorkflow.cpp:165-171 | In the model, startRender takes effect when it observes Ready, with a player attached. Requests play. The result is Rendering and no longer Ready, and nothing else changes. |
| ClipWorkflow.Stop | src/Workflow/ClipWorkflow.cpp:184-193 | As written. Needs an attached player. Stops it and detaches it. The result is Stopped whatever the prior state was. The connections and the buffer are kept. |
| ClipWorkflow.StopAndDisconnect | src/Workflow/ClipWorkflow.cpp:184-193 | Corrected version. It does what stop does and also disconnects every slot of the workflow. |
| ClipWorkflow.Deliver | src/Workflow/ClipWorkflow.cpp:112-139 | A signal runs the slot connected to it, if there is one, and otherwise changes nothing. This holds whatever else is connected. On playing, the slot seeks to the clip's begin and swaps its connection for positionChanged. On positionChanged, it pauses and swaps its connection for paused. On paused, the state becomes Ready, and the slot disconnects itself if a player is attached. On endReached, the state becomes EndReached. Only paused (to Ready) and endReached (to EndReached) change the state. The player is never detached. |
| Handshake.Run | src/Workflow/ClipWorkflow.cpp:112-139 | A sequence of signals, delivered in order, never changes the attached player, the clip or the buffer. |
| Handshake.DeliverFollowsTable | src/Workflow/ClipWorkflow.cpp:117-139 | For one signal, the slot wiring does exactly what the dispatch table does: the same state, the same commands, and the wiring of the next table entry. |
| Handshake.RunFollowsTable | src/Workflow/ClipWorkflow.cpp:105-139 | The same agreement holds for any sequence of signals. |
| Handshake.TableNeverRenders | src/Workflow/ClipWorkflow.cpp:117-139 | Handshake signals never make a workflow Rendering. |
| Handshake.ReadyOnlyWhenComplete | src/Workflow/ClipWorkflow.cpp:134-139 | Ready is reached only by completing the handshake. |
| Handshake.TableIssuesEachCommandOnce | src/Workflow/ClipWorkflow.cpp:117-132 | The seek and the pause are each issued at most once, seek first. This is because each slot disconnects itself. |
| Handshake.CompletesFromStart | src/Workflow/ClipWorkflow.cpp:117-139 | The handshake completes iff playing, positionChanged and paused arrive in that order, whatever other signals arrive between them. |
| Handshake.CompletionMakesReady | src/Workflow/ClipWorkflow.cpp:134-139 | If no endReached signal arrives, a completed handshake leaves the workflow Ready. |
| Handshake.InitializeThenSignals | src/Workflow/ClipWorkflow.cpp:105-139 | Initialize a workflow with no pending handshake, then deliver any signals. The player stays attached and the state is never Rendering. The state is Ready only if the three signals arrived in order, and is Ready whenever they did and no endReached arrived. The only commands are a prefix of [seek to begin, pause]. |
| RenderCallbacks.GetOutput | src/Workflow/ClipWorkflow.cpp:53-57 | Returns the workflow's buffer. It reads under the render mutex and releases the mutex again. |
| RenderCallbacks.Lock | src/Workflow/ClipWorkflow.cpp:59-67 | Returns the workflow's buffer in any state. It leaves the render mutex held once and takes no other lock. |
| RenderCallbacks.Unlock | src/Workflow/ClipWorkflow.cpp:69-82 | Corrected version. It first releases the render mutex. The producer waits on the back-pressure condition iff the state is Rendering. |
| RenderCallbacks.UnlockAsWritten | src/Workflow/ClipWorkflow.cpp:69-82 | As written. It first releases the render mutex. It waits iff the state is Rendering. |
| RenderCallbacks.LockUnlockBalanced | src/Workflow/ClipWorkflow.cpp:59-82 | With the corrected unlock, a lock/unlock pair releases each lock only while it is held, and every lock ends released. This holds in every state. |
| RenderCallbacks.UnlockAsWrittenBalancedWhenIdle | src/Workflow/ClipWorkflow.cpp:69-82 | Outside Rendering, the as-written unlock is the corrected one, so it is balanced. |
| RenderCallbacks.UnlockAsWrittenReleasesStateLockTwice | src/Workflow/ClipWorkflow.cpp:73-80 | In Rendering, the as-written unlock releases the state lock a second time when it no longer holds it. |
| Session.Apply | src/Workflow/ClipWorkflow.cpp:105-193 | In the model, each operation is one atomic step, with either version of stop. No operation touches the clip or the buffer. Only startRender enters Rendering, and only from Ready. Only stop enters Stopped or detaches the player. Only initialize and stop change the player. |
| Session.Exec | src/Workflow/ClipWorkflow.cpp:27-193 | Along any completed sequence of operations, the clip, the geometry and the buffer stay those of the start. |
| Session.OnlyStopDetaches | src/Workflow/ClipWorkflow.cpp:184-193 | Along any sequence, an attached player ends up detached only if the sequence contains a stop. |
| Session.BufferIsAllocatedOnce | src/Workflow/ClipWorkflow.cpp:37-67 | After any sequence of operations, getOutput and lock both hand out the buffer the constructor allocated, at full capacity. The configured frame fits in it. |
| Session.ScheduleStopThenStop | src/Workflow/ClipWorkflow.cpp:184-193 | With a player attached, scheduleStop then stop ends Stopped with no player, whatever the state was. The only command is stop. |
| Session.StopBeforeInitialize | src/Workflow/ClipWorkflow.cpp:188 | stop on a workflow that was never initialized does not complete. |
| Session.ScheduleStopWithoutPlayer | src/Workflow/ClipWorkflow.cpp:47-51 | scheduleStop on a new workflow gives a state other than Stopped with no player attached. |
| Session.PreviewHandshake | src/Workflow/ClipWorkflow.cpp:105-139 | On a new workflow, initialize followed by playing, positionChanged and paused gives Ready with the player attached. The commands are configure, load, play, seek to begin and pause, in that order. |
| Session.RenderThenStop | src/Workflow/ClipWorkflow.cpp:165-193 | From Ready, startRender gives Rendering after a play command. A stop after it gives Stopped with no player. |
| Session.StopMidHandshake | src/Workflow/ClipWorkflow.cpp:184-193 | Stop after initialize and playing, as written: the player is detached and the positionChanged slot is still connected. |
| Session.ResumeStaleHandshake | src/Workflow/ClipWorkflow.cpp:105-139 | With that slot still connected, initialize followed by positionChanged and paused gives Ready. Only a pause is requested after the initialize commands; no seek. |
| Session.InterruptedHandshakeResumes | src/Workflow/ClipWorkflow.cpp:105-193 | As written: initialize(p), playing, stop, initialize(p) with the same player p, positionChanged, paused gives Ready. The second handshake never sees playing and never seeks to the clip's begin: positionChanged followed by paused is not the ordered handshake, yet the workflow is Ready. |
| Session.ReadyWithoutPlayerAfterStop | src/Workflow/ClipWorkflow.cpp:134-193 | As written: initialize, playing, positionChanged, stop, paused gives Ready with no player attached, so startRender would call through a null player at line 169. Initialize, stop, playing does not complete, because the seek slot calls through a null player at line 121. |
| Session.CorrectedStopRestartsHandshake | src/Workflow/ClipWorkflow.cpp:105-193 | After the corrected stop and a new initialize, the handshake guarantees hold for any signals: Ready only if playing, positionChanged and paused arrived in order; the seek and the pause at most once each, seek first. |
| Session.CorrectedStopWaitsForPlaying | src/Workflow/ClipWorkflow.cpp:105-193 | After the corrected stop and a new initialize, positionChanged followed by paused does not give Ready. |
| Session.CorrectedKeepsPlayerWhenNeeded | src/Workflow/ClipWorkflow.cpp:105-193 | With the corrected stop, every operation sequence keeps this rule: a player is attached whenever the workflow is Ready or Rendering, or a slot that calls through the player is connected. So a Ready workflow can start rendering, and every signal can be delivered. |
| Session.CorrectedSessionFromNew | src/Workflow/ClipWorkflow.cpp:27-193 | The same holds for any sequence run from a new workflow. |

## Left out

- Threads and blocking. The locks, the read-write lock and the wait condition
  are modelled only as sequences of acquire/release/wait events. Blocking is
  not modelled. The consumer that wakes a waiting producer lives in the
  renderer, which is not part of this model.
- Logging. The `qDebug` calls in endReached (line 175) and stop (line 187)
  only write diagnostics and change no state, so they are not modelled.
- Session.Apply: operations are atomic in the model. The source is not. Each
  method takes the state lock separately for each read and each write. So
  calls from the control thread can interleave, inside one method, with slots
  that the media player runs on its own thread.
  - In particular, startRender tests isReady under one read lock (lines 167
    and 141-145). It sets Rendering under a separate write lock (line 170).
  - A scheduleStop (lines 47-51) or an endReached (lines 173-177) that runs
    between those two steps is overwritten by Rendering.
  - "Only startRender enters Rendering, and only from Ready" is a property of
    the atomic model.
- ClipWorkflow.StartRender: in the source, the polling loop (lines 167-168)
  waits until another thread's paused slot makes the workflow Ready; that is
  its normal use right after initialize. The model has no concurrent thread.
  So in the model, startRender takes effect when it observes Ready: that is
  its precondition. In `Session.Exec`, a startRender issued before Ready ends
  the sequence instead of waiting for a signal that the sequence delivers
  later.
- The caller passes the render mutex to the constructor, and the mutex may be
  shared with other workflows. The model looks at one workflow's callbacks
  only.
- Handshake.InitializeThenSignals: requires that no handshake slot is
  connected. The stop in the source does not restore this after an
  interrupted handshake (see Findings). So the lemma covers the first
  initialize of a workflow, and every initialize that follows the corrected
  stop (`Session.CorrectedStopRestartsHandshake`).
- The libvlc and Qt calls are kept only as the command they request. This
  covers addOption, setDataCtx, the lock/unlock callback registration, setMedia,
  play, pause, setPosition and stop.
- Handshake.Run: Qt connections belong to the sender object. The model keeps
  one connection set per workflow, as if `initialize` were always given the
  same player.
- The option strings of setVmem are left out. Line 101 lacks the leading `:`
  of `vmem-pitch`; whether the decoder still honours that option depends on
  the decoder, so only the geometry arithmetic is modelled.
- The values of VIDEOWIDTH and VIDEOHEIGHT are defined in a header that is not
  part of this model. They are a `Geometry` parameter.
- setPosition(float) is a plain forward of a floating-point position to the
  player, and getClip is an accessor. The destructor frees the buffer. None of
  these change the state.
- The pixel contents of the buffer are left out. The clip descriptor is
  reduced to its begin position.
- The renderer (src/renderer/WorkflowRenderer.h) declares its members only;
  its behaviour is not part of this model. The project wizard, the settings
  widget and the effects engine are UI or effects code outside this state
  machine.

## Findings

| source | as written | input that shows it | evidently intended | confidence | as-written member | corrected member |
|---|---|---|---|---|---|---|
| src/Workflow/ClipWorkflow.cpp:73-80 | In the Rendering branch, `unlock` releases the state lock at line 77, before waiting on the condition, and again at line 80, after waking. | Any `unlock` call while the state is Rendering. | Release the state lock once: before the wait when Rendering, at line 80 otherwise. | not executed; high | RenderCallbacks.UnlockAsWrittenReleasesStateLockTwice | RenderCallbacks.LockUnlockBalanced |
| src/Workflow/ClipWorkflow.cpp:184-193 | `stop` stops and detaches the player. It leaves connected the handshake slots connected at lines 112, 120 and 129. Those slots are only ever disconnected by themselves. | initialize(p), playing, stop, initialize(p) with the same player p, positionChanged, paused: the workflow becomes Ready. The second handshake sees no playing signal and never seeks to the clip's begin. | `stop` disconnects the workflow's slots, so that each initialize starts the handshake afresh. | not executed; medium | Session.InterruptedHandshakeResumes | Session.CorrectedStopRestartsHandshake |
| src/Workflow/ClipWorkflow.cpp:134-139 | After `stop`, a paused signal still reaches pausedMediaPlayer. It makes the workflow Ready with no player attached; startRender would then call through a null player (line 169). | initialize, playing, positionChanged, stop, paused. | After stop, no slot of the workflow runs, so Ready or Rendering always has a player attached. | not executed; medium | Session.ReadyWithoutPlayerAfterStop | Session.CorrectedKeepsPlayerWhenNeeded |
