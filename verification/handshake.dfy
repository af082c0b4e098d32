/** The initialization handshake. After `initialize`, the workflow waits for
    the media player's playing signal, then for positionChanged, then for
    paused; each slot connects the next one and disconnects itself. This
    module gives the handshake an independent description, a dispatch table
    indexed by the signal expected next, proves that the connect/disconnect
    wiring of ClipWorkflow follows that table signal by signal, and proves
    the ordering properties on the table. */
module Handshake {
  import opened WorkflowTypes
  import opened ClipWorkflow

  /** The handshake signal a workflow waits for next. */
  datatype Expect = AwaitPlaying | AwaitPosition | AwaitPaused | Complete

  /** Where the handshake stands, and the workflow state it has produced. */
  datatype Phase = Phase(awaiting: Expect, state: State)

  /** A phase reached, with the commands issued on the way. */
  datatype Move = Move(next: Phase, commands: seq<Command>)

  /** The slots connected at each point of the handshake; the endReached slot
      stays connected throughout. */
  function Wiring(e: Expect): set<Slot>
  {
    match e
    case AwaitPlaying => {SeekOnPlaying, EndOnEndReached}
    case AwaitPosition => {PauseOnPosition, EndOnEndReached}
    case AwaitPaused => {ReadyOnPaused, EndOnEndReached}
    case Complete => {EndOnEndReached}
  }

  /** The commands the handshake has issued by the time it reaches a point. */
  function IssuedUpTo(e: Expect, begin: real): seq<Command>
  {
    match e
    case AwaitPlaying => []
    case AwaitPosition => [SetPosition(begin)]
    case AwaitPaused => [SetPosition(begin), Pause]
    case Complete => [SetPosition(begin), Pause]
  }

  /** The dispatch table: the expected signal advances the handshake (seek
      to the clip's begin, then pause, then Ready); endReached marks the end
      of the media at any point; every other signal is ignored. */
  function TableStep(ph: Phase, sig: Signal, begin: real): Move
  {
    match (ph.awaiting, sig)
    case (AwaitPlaying, Playing) => Move(ph.(awaiting := AwaitPosition), [SetPosition(begin)])
    case (AwaitPosition, PositionChanged) => Move(ph.(awaiting := AwaitPaused), [Pause])
    case (AwaitPaused, Paused) => Move(Phase(Complete, Ready), [])
    case (_, EndOfMedia) => Move(ph.(state := EndReached), [])
    case (_, _) => Move(ph, [])
  }

  /** The table applied to a sequence of signals. */
  function TableRun(ph: Phase, sigs: seq<Signal>, begin: real): Move
    decreases |sigs|
  {
    if sigs == [] then Move(ph, [])
    else
      var first := TableStep(ph, sigs[0], begin);
      var rest := TableRun(first.next, sigs[1..], begin);
      Move(rest.next, first.commands + rest.commands)
  }

  /** The workflow receiving a sequence of media player signals, in order. No
      signal detaches the player, so every one of them can be delivered. */
  function Run(w: Workflow, sigs: seq<Signal>): (r: Step)
    requires w.player.Some?
    ensures SamePlayer(w, r.next)
    decreases |sigs|
  {
    if sigs == [] then Step(w, [])
    else
      var first := Deliver(w, sigs[0]);
      var rest := Run(first.next, sigs[1..]);
      Step(rest.next, first.commands + rest.commands)
  }

  // ---------------------------------------------------------------------
  // The wiring follows the table

  /** One signal: the slot connected for the expected signal does what the
      table says, and leaves exactly the wiring of the next table entry. */
  lemma DeliverFollowsTable(w: Workflow, e: Expect, sig: Signal)
    requires w.player.Some? && w.connected == Wiring(e)
    ensures var r := Deliver(w, sig);
            var m := TableStep(Phase(e, w.state), sig, w.clip.begin);
            r.next.state == m.next.state && r.next.connected == Wiring(m.next.awaiting)
            && r.commands == m.commands
  {
    var r := Deliver(w, sig);
    var m := TableStep(Phase(e, w.state), sig, w.clip.begin);
    match (e, sig)
    case (AwaitPlaying, Playing) =>
      assert r.next.connected == Wiring(AwaitPosition);
    case (AwaitPosition, PositionChanged) =>
      assert r.next.connected == Wiring(AwaitPaused);
    case (AwaitPaused, Paused) =>
      assert r.next.connected == Wiring(Complete);
    case (_, _) =>
  }

  /** Any sequence of signals: the workflow's state, wiring and commands are
      those the table computes. */
  lemma {:induction false} RunFollowsTable(w: Workflow, e: Expect, sigs: seq<Signal>)
    requires w.player.Some? && w.connected == Wiring(e)
    ensures var r := Run(w, sigs);
            var m := TableRun(Phase(e, w.state), sigs, w.clip.begin);
            r.next.state == m.next.state && r.next.connected == Wiring(m.next.awaiting)
            && r.commands == m.commands
    decreases |sigs|
  {
    if sigs != [] {
      var first := Deliver(w, sigs[0]);
      var m := TableStep(Phase(e, w.state), sigs[0], w.clip.begin);
      DeliverFollowsTable(w, e, sigs[0]);
      assert first.next.clip == w.clip;
      RunFollowsTable(first.next, m.next.awaiting, sigs[1..]);
    }
  }

  // ---------------------------------------------------------------------
  // Properties of the table

  /** The handshake never makes a workflow Rendering. */
  lemma {:induction false} TableNeverRenders(ph: Phase, sigs: seq<Signal>, begin: real)
    requires ph.state != Rendering
    ensures TableRun(ph, sigs, begin).next.state != Rendering
    decreases |sigs|
  {
    if sigs != [] {
      TableNeverRenders(TableStep(ph, sigs[0], begin).next, sigs[1..], begin);
    }
  }

  /** Once complete, the handshake stays complete and issues nothing more;
      without an endReached signal the state stays as it was. */
  lemma {:induction false} CompleteIsStable(ph: Phase, sigs: seq<Signal>, begin: real)
    requires ph.awaiting == Complete
    ensures TableRun(ph, sigs, begin).next.awaiting == Complete
    ensures TableRun(ph, sigs, begin).commands == []
    ensures EndOfMedia !in sigs ==> TableRun(ph, sigs, begin).next.state == ph.state
    decreases |sigs|
  {
    if sigs != [] {
      assert EndOfMedia !in sigs ==> sigs[0] != EndOfMedia;
      assert EndOfMedia !in sigs ==> EndOfMedia !in sigs[1..];
      CompleteIsStable(TableStep(ph, sigs[0], begin).next, sigs[1..], begin);
    }
  }

  /** Ready is only ever produced by completing the handshake. */
  lemma {:induction false} ReadyOnlyWhenComplete(ph: Phase, sigs: seq<Signal>, begin: real)
    requires ph.state == Ready ==> ph.awaiting == Complete
    ensures var m := TableRun(ph, sigs, begin); m.next.state == Ready ==> m.next.awaiting == Complete
    decreases |sigs|
  {
    if sigs != [] {
      var first := TableStep(ph, sigs[0], begin);
      if ph.awaiting == Complete {
        CompleteIsStable(first.next, sigs[1..], begin);
      }
      ReadyOnlyWhenComplete(first.next, sigs[1..], begin);
    }
  }

  /** One table step issues exactly the commands between its two points. */
  lemma TableStepIssues(ph: Phase, sig: Signal, begin: real)
    ensures var m := TableStep(ph, sig, begin);
            IssuedUpTo(ph.awaiting, begin) + m.commands == IssuedUpTo(m.next.awaiting, begin)
  {
  }

  /** The commands issued so far plus those of a run are the commands issued
      up to where the run ends: each handshake command is issued once, in order. */
  lemma {:induction false} TableIssuesEachCommandOnce(ph: Phase, sigs: seq<Signal>, begin: real)
    ensures var m := TableRun(ph, sigs, begin);
            IssuedUpTo(ph.awaiting, begin) + m.commands == IssuedUpTo(m.next.awaiting, begin)
    decreases |sigs|
  {
    if sigs != [] {
      var first := TableStep(ph, sigs[0], begin);
      var rest := TableRun(first.next, sigs[1..], begin);
      TableIssuesEachCommandOnce(first.next, sigs[1..], begin);
      TableStepIssues(ph, sigs[0], begin);
      var before := IssuedUpTo(ph.awaiting, begin);
      assert before + (first.commands + rest.commands) == (before + first.commands) + rest.commands;
    }
  }

  /** Position k of a signal sequence holds a paused signal. */
  ghost predicate PausedAt(sigs: seq<Signal>, k: int)
  {
    0 <= k < |sigs| && sigs[k] == Paused
  }

  /** Positions j < k hold positionChanged and paused. */
  ghost predicate PositionThenPausedAt(sigs: seq<Signal>, j: int, k: int)
  {
    0 <= j < k < |sigs| && sigs[j] == PositionChanged && sigs[k] == Paused
  }

  /** Positions i < j < k hold playing, positionChanged and paused. */
  ghost predicate InOrderAt(sigs: seq<Signal>, i: int, j: int, k: int)
  {
    0 <= i < j < k < |sigs| && sigs[i] == Playing && sigs[j] == PositionChanged && sigs[k] == Paused
  }

  /** A paused signal arrives. */
  ghost predicate ArrivesPaused(sigs: seq<Signal>)
  {
    exists k :: PausedAt(sigs, k)
  }

  /** A positionChanged signal arrives, and a paused signal after it. */
  ghost predicate ArrivesPositionThenPaused(sigs: seq<Signal>)
  {
    exists j, k :: PositionThenPausedAt(sigs, j, k)
  }

  /** Playing, positionChanged and paused arrive in this order, whatever
      else arrives between them. */
  ghost predicate ArrivesInOrder(sigs: seq<Signal>)
  {
    exists i, j, k :: InOrderAt(sigs, i, j, k)
  }

  lemma ArrivesPausedShift(sigs: seq<Signal>)
    requires |sigs| > 0
    ensures ArrivesPaused(sigs) <==> sigs[0] == Paused || ArrivesPaused(sigs[1..])
  {
    var tail := sigs[1..];
    if sigs[0] == Paused {
      assert PausedAt(sigs, 0);
    }
    if ArrivesPaused(sigs) && sigs[0] != Paused {
      var k :| PausedAt(sigs, k);
      assert PausedAt(tail, k - 1);
    }
    if ArrivesPaused(tail) {
      var k :| PausedAt(tail, k);
      assert PausedAt(sigs, k + 1);
    }
  }

  lemma ArrivesPositionThenPausedShift(sigs: seq<Signal>)
    requires |sigs| > 0
    ensures ArrivesPositionThenPaused(sigs)
            <==> (sigs[0] == PositionChanged && ArrivesPaused(sigs[1..])) || ArrivesPositionThenPaused(sigs[1..])
  {
    var tail := sigs[1..];
    if ArrivesPositionThenPaused(sigs) {
      var j, k :| PositionThenPausedAt(sigs, j, k);
      if j > 0 {
        assert PositionThenPausedAt(tail, j - 1, k - 1);
      } else {
        assert PausedAt(tail, k - 1);
      }
    }
    if sigs[0] == PositionChanged && ArrivesPaused(tail) {
      var k :| PausedAt(tail, k);
      assert PositionThenPausedAt(sigs, 0, k + 1);
    }
    if ArrivesPositionThenPaused(tail) {
      var j, k :| PositionThenPausedAt(tail, j, k);
      assert PositionThenPausedAt(sigs, j + 1, k + 1);
    }
  }

  lemma ArrivesInOrderShift(sigs: seq<Signal>)
    requires |sigs| > 0
    ensures ArrivesInOrder(sigs)
            <==> (sigs[0] == Playing && ArrivesPositionThenPaused(sigs[1..])) || ArrivesInOrder(sigs[1..])
  {
    var tail := sigs[1..];
    if ArrivesInOrder(sigs) {
      var i, j, k :| InOrderAt(sigs, i, j, k);
      if i > 0 {
        assert InOrderAt(tail, i - 1, j - 1, k - 1);
      } else {
        assert PositionThenPausedAt(tail, j - 1, k - 1);
      }
    }
    if sigs[0] == Playing && ArrivesPositionThenPaused(tail) {
      var j, k :| PositionThenPausedAt(tail, j, k);
      assert InOrderAt(sigs, 0, j + 1, k + 1);
    }
    if ArrivesInOrder(tail) {
      var i, j, k :| InOrderAt(tail, i, j, k);
      assert InOrderAt(sigs, i + 1, j + 1, k + 1);
    }
  }

  /** From the last step: the handshake completes iff a paused signal arrives. */
  lemma {:induction false} CompletesFromAwaitPaused(st: State, sigs: seq<Signal>, begin: real)
    ensures TableRun(Phase(AwaitPaused, st), sigs, begin).next.awaiting == Complete <==> ArrivesPaused(sigs)
    decreases |sigs|
  {
    if sigs != [] {
      var first := TableStep(Phase(AwaitPaused, st), sigs[0], begin);
      ArrivesPausedShift(sigs);
      if sigs[0] == Paused {
        CompleteIsStable(first.next, sigs[1..], begin);
      } else {
        CompletesFromAwaitPaused(first.next.state, sigs[1..], begin);
      }
    }
  }

  /** From the second step: the handshake completes iff a positionChanged
      signal arrives and a paused signal arrives after it. */
  lemma {:induction false} CompletesFromAwaitPosition(st: State, sigs: seq<Signal>, begin: real)
    ensures TableRun(Phase(AwaitPosition, st), sigs, begin).next.awaiting == Complete
            <==> ArrivesPositionThenPaused(sigs)
    decreases |sigs|
  {
    if sigs != [] {
      var first := TableStep(Phase(AwaitPosition, st), sigs[0], begin);
      ArrivesPositionThenPausedShift(sigs);
      if sigs[0] == PositionChanged {
        CompletesFromAwaitPaused(first.next.state, sigs[1..], begin);
        ArrivesPositionThenPausedImpliesPaused(sigs[1..]);
      } else {
        CompletesFromAwaitPosition(first.next.state, sigs[1..], begin);
      }
    }
  }

  lemma ArrivesPositionThenPausedImpliesPaused(sigs: seq<Signal>)
    ensures ArrivesPositionThenPaused(sigs) ==> ArrivesPaused(sigs)
  {
    if ArrivesPositionThenPaused(sigs) {
      var j, k :| PositionThenPausedAt(sigs, j, k);
      assert PausedAt(sigs, k);
    }
  }

  lemma ArrivesInOrderImpliesPositionThenPaused(sigs: seq<Signal>)
    ensures ArrivesInOrder(sigs) ==> ArrivesPositionThenPaused(sigs)
  {
    if ArrivesInOrder(sigs) {
      var i, j, k :| InOrderAt(sigs, i, j, k);
      assert PositionThenPausedAt(sigs, j, k);
    }
  }

  /** From the start: the handshake completes iff playing, positionChanged and
      paused arrive in this order, whatever else arrives between them. */
  lemma {:induction false} CompletesFromStart(st: State, sigs: seq<Signal>, begin: real)
    ensures TableRun(Phase(AwaitPlaying, st), sigs, begin).next.awaiting == Complete <==> ArrivesInOrder(sigs)
    decreases |sigs|
  {
    if sigs != [] {
      var first := TableStep(Phase(AwaitPlaying, st), sigs[0], begin);
      ArrivesInOrderShift(sigs);
      if sigs[0] == Playing {
        CompletesFromAwaitPosition(first.next.state, sigs[1..], begin);
        ArrivesInOrderImpliesPositionThenPaused(sigs[1..]);
      } else {
        CompletesFromStart(first.next.state, sigs[1..], begin);
      }
    }
  }

  /** Without an endReached signal, a handshake that completes leaves the state Ready. */
  lemma {:induction false} CompletionMakesReady(ph: Phase, sigs: seq<Signal>, begin: real)
    requires ph.awaiting != Complete && EndOfMedia !in sigs
    ensures var m := TableRun(ph, sigs, begin); m.next.awaiting == Complete ==> m.next.state == Ready
    decreases |sigs|
  {
    if sigs != [] {
      var first := TableStep(ph, sigs[0], begin);
      assert EndOfMedia !in sigs[1..];
      if first.next.awaiting == Complete {
        CompleteIsStable(first.next, sigs[1..], begin);
      } else {
        CompletionMakesReady(first.next, sigs[1..], begin);
      }
    }
  }

  // ---------------------------------------------------------------------
  // The handshake of an initialized workflow

  /** After `initialize` on a workflow with no handshake slot connected, and
      any sequence of media player signals: the player stays attached, the
      workflow is never Rendering, it is Ready only if playing,
      positionChanged and paused arrived in this order, it is Ready whenever
      they did and no endReached arrived, and the seek and the pause are each
      requested at most once, seek first. */
  lemma InitializeThenSignals(w: Workflow, p: Player, sigs: seq<Signal>)
    requires w.connected <= {EndOnEndReached}
    ensures var r := Run(Initialize(w, p).next, sigs);
            && r.next.player == Some(p)
            && r.next.state != Rendering
            && (r.next.state == Ready ==> ArrivesInOrder(sigs))
            && (ArrivesInOrder(sigs) && EndOfMedia !in sigs ==> r.next.state == Ready)
            && r.commands in {[], [SetPosition(w.clip.begin)], [SetPosition(w.clip.begin), Pause]}
  {
    var w1 := Initialize(w, p).next;
    assert w1.connected == Wiring(AwaitPlaying);
    var ph := Phase(AwaitPlaying, Initializing);
    var m := TableRun(ph, sigs, w.clip.begin);
    RunFollowsTable(w1, AwaitPlaying, sigs);
    TableNeverRenders(ph, sigs, w.clip.begin);
    ReadyOnlyWhenComplete(ph, sigs, w.clip.begin);
    CompletesFromStart(Initializing, sigs, w.clip.begin);
    if EndOfMedia !in sigs {
      CompletionMakesReady(ph, sigs, w.clip.begin);
    }
    TableIssuesEachCommandOnce(ph, sigs, w.clip.begin);
    assert m.commands == IssuedUpTo(m.next.awaiting, w.clip.begin);
  }
}
