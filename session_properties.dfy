/** What the hook's callbacks guarantee, one at a time and over any sequence of events. */
module SessionProperties {
  import opened Wrappers
  import opened Pcm
  import opened SessionModel

  // ---------------------------------------------------------------------------
  // The invariant of every reachable state

  lemma InitialSatisfiesInv()
    ensures Inv(Initial) && Released(Initial) && ScheduledFrom(Initial, 0)
  {
  }

  lemma ScheduleKeepsInv(h: Hook, samples: seq<real>)
    requires Inv(h) && h.isTalking && h.nodes.analyser
    requires AllInUnitRange(samples)
    ensures Inv(Schedule(h, samples))
  {
    var r := Schedule(h, samples);
    forall k | 0 <= k < |r.effects.started|
      ensures r.effects.started[k].id == k && r.effects.started[k].viaAnalyser && AllInUnitRange(r.effects.started[k].samples)
    {
      if k < |h.effects.started| {
        assert r.effects.started[k] == h.effects.started[k];
      }
    }
  }

  lemma CleanupKeepsInv(h: Hook)
    requires Inv(h)
    ensures Inv(Cleanup(h))
  {
  }

  lemma InterruptKeepsInv(h: Hook)
    requires Inv(h)
    ensures Inv(Interrupt(h))
  {
  }

  lemma PlayChunkKeepsInv(h: Hook, audio: seq<Byte>, now: nat)
    requires Inv(h) && h.outputContextOpen
    ensures Inv(PlayChunk(h, audio, now))
  {
    var h1 := h.(isTalking := true, nextStartTime := Max(h.nextStartTime, now));
    assert Inv(h1);
    var read := ReadInt16s(audio);
    if read.Success? {
      DecodeInUnitRange(read.value);
      ScheduleKeepsInv(h1, Decode(read.value));
      assert PlayChunk(h, audio, now) == Schedule(h1, Decode(read.value));
    } else {
      assert PlayChunk(h, audio, now) == h1;
    }
  }

  lemma ReceiveKeepsInv(h: Hook, m: ServerMessage, now: nat)
    requires Inv(h)
    ensures Inv(Receive(h, m, now))
  {
    var h1 := if |m.audio| > 0 && h.outputContextOpen then PlayChunk(h, m.audio, now) else h;
    if |m.audio| > 0 && h.outputContextOpen {
      PlayChunkKeepsInv(h, m.audio, now);
    }
    assert Inv(h1);
    if ChunkThrows(h, m) {
      assert Receive(h, m, now) == h1;
    } else if m.interrupted {
      InterruptKeepsInv(h1);
      assert Receive(h, m, now) == Interrupt(h1);
    } else {
      assert Receive(h, m, now) == h1;
    }
  }

  lemma StepKeepsInv(h: Hook, e: Event)
    requires Inv(h)
    ensures Inv(Step(h, e))
  {
    match e
    case MessageReceived(m, now) => ReceiveKeepsInv(h, m, now);
    case _ =>
  }

  /** No sequence of callbacks breaks the invariant. */
  lemma {:induction false} RunKeepsInv(h: Hook, es: seq<Event>)
    requires Inv(h)
    ensures Inv(Run(h, es))
    decreases |es|
  {
    if es != [] {
      StepKeepsInv(h, es[0]);
      RunKeepsInv(Step(h, es[0]), es[1..]);
    }
  }

  // ---------------------------------------------------------------------------
  // Each source is added once and removed once

  lemma ReceiveNeverReadds(h: Hook, m: ServerMessage, now: nat, id: nat)
    requires id < h.nextSourceId && id !in h.sourceNodes
    ensures id < Receive(h, m, now).nextSourceId && id !in Receive(h, m, now).sourceNodes
  {
    var h1 := if |m.audio| > 0 && h.outputContextOpen then PlayChunk(h, m.audio, now) else h;
    assert id < h1.nextSourceId && id !in h1.sourceNodes;
  }

  lemma StepNeverReadds(h: Hook, e: Event, id: nat)
    requires id < h.nextSourceId && id !in h.sourceNodes
    ensures id < Step(h, e).nextSourceId && id !in Step(h, e).sourceNodes
  {
    match e
    case MessageReceived(m, now) => ReceiveNeverReadds(h, m, now, id);
    case _ =>
  }

  /** A source id that has left the set never comes back, whatever happens next. */
  lemma {:induction false} RemovedSourceNeverReturns(h: Hook, es: seq<Event>, id: nat)
    requires id < h.nextSourceId && id !in h.sourceNodes
    ensures id !in Run(h, es).sourceNodes
    decreases |es|
  {
    if es != [] {
      StepNeverReadds(h, es[0], id);
      RemovedSourceNeverReturns(Step(h, es[0]), es[1..], id);
    }
  }

  /** The set only ever receives the id just issued: every member is a started source. */
  lemma SourcesWereStarted(h: Hook, es: seq<Event>, id: nat)
    requires Inv(h)
    requires id in Run(h, es).sourceNodes
    ensures id < |Run(h, es).effects.started| && Run(h, es).effects.started[id].id == id
  {
    RunKeepsInv(h, es);
  }

  // ---------------------------------------------------------------------------
  // The scheduling clock

  lemma RaiseClockKeepsSchedule(h: Hook, t: nat, talking: bool, b: nat)
    requires ScheduledFrom(h, b) && t >= h.nextStartTime
    ensures ScheduledFrom(h.(nextStartTime := t, isTalking := talking), b)
  {
  }

  lemma ScheduleKeepsSchedule(h: Hook, samples: seq<real>, b: nat)
    requires ScheduledFrom(h, b)
    ensures ScheduledFrom(Schedule(h, samples), b)
  {
    var r := Schedule(h, samples);
    var n := |h.effects.started|;
    assert r.effects.started[n].start == h.nextStartTime;
    forall i | b <= i < |r.effects.started|
      ensures End(r.effects.started[i]) <= r.nextStartTime
    {
      if i < n {
        assert r.effects.started[i] == h.effects.started[i];
      }
    }
    forall i, j | b <= i < j < |r.effects.started|
      ensures End(r.effects.started[i]) <= r.effects.started[j].start
    {
      assert r.effects.started[i] == h.effects.started[i];
      if j < n {
        assert r.effects.started[j] == h.effects.started[j];
      }
    }
  }

  lemma PlayChunkKeepsSchedule(h: Hook, audio: seq<Byte>, now: nat, b: nat)
    requires ScheduledFrom(h, b)
    ensures ScheduledFrom(PlayChunk(h, audio, now), b)
    ensures h.effects.started <= PlayChunk(h, audio, now).effects.started
    ensures h.nextStartTime <= PlayChunk(h, audio, now).nextStartTime
  {
    var h1 := h.(isTalking := true, nextStartTime := Max(h.nextStartTime, now));
    RaiseClockKeepsSchedule(h, Max(h.nextStartTime, now), true, b);
    var read := ReadInt16s(audio);
    if read.Success? {
      ScheduleKeepsSchedule(h1, Decode(read.value), b);
      assert PlayChunk(h, audio, now) == Schedule(h1, Decode(read.value));
    } else {
      assert PlayChunk(h, audio, now) == h1;
    }
  }

  lemma ReceiveKeepsSchedule(h: Hook, m: ServerMessage, now: nat, b: nat)
    requires ScheduledFrom(h, b) && !m.interrupted
    ensures ScheduledFrom(Receive(h, m, now), b)
    ensures h.effects.started <= Receive(h, m, now).effects.started
    ensures h.nextStartTime <= Receive(h, m, now).nextStartTime
  {
    if |m.audio| > 0 && h.outputContextOpen {
      PlayChunkKeepsSchedule(h, m.audio, now, b);
      assert Receive(h, m, now) == PlayChunk(h, m.audio, now);
    } else {
      assert Receive(h, m, now) == h;
    }
  }

  lemma StepKeepsSchedule(h: Hook, e: Event, b: nat)
    requires ScheduledFrom(h, b) && !Interrupting(e)
    ensures ScheduledFrom(Step(h, e), b)
    ensures h.effects.started <= Step(h, e).effects.started
    ensures h.nextStartTime <= Step(h, e).nextStartTime
  {
    match e
    case MessageReceived(m, now) => ReceiveKeepsSchedule(h, m, now, b);
    case _ =>
  }

  /**
   * With no interruption in between, the sources started during any run never
   * overlap one another, and the clock never moves backwards.
   */
  lemma {:induction false} NoOverlapWithoutInterruption(h: Hook, es: seq<Event>)
    requires forall k :: 0 <= k < |es| ==> !Interrupting(es[k])
    ensures ScheduledFrom(Run(h, es), |h.effects.started|)
    ensures h.effects.started <= Run(h, es).effects.started
    ensures h.nextStartTime <= Run(h, es).nextStartTime
    decreases |es|
  {
    NoOverlapAfter(h, es, |h.effects.started|);
  }

  lemma {:induction false} NoOverlapAfter(h: Hook, es: seq<Event>, b: nat)
    requires ScheduledFrom(h, b)
    requires forall k :: 0 <= k < |es| ==> !Interrupting(es[k])
    ensures ScheduledFrom(Run(h, es), b)
    ensures h.effects.started <= Run(h, es).effects.started
    ensures h.nextStartTime <= Run(h, es).nextStartTime
    decreases |es|
  {
    if es != [] {
      StepKeepsSchedule(h, es[0], b);
      NoOverlapAfter(Step(h, es[0]), es[1..], b);
    }
  }

  /** From the first render, every started source begins after the previous one ends. */
  lemma ConsecutiveChunksDoNotOverlap(es: seq<Event>, k: nat)
    requires forall i :: 0 <= i < |es| ==> !Interrupting(es[i])
    requires k + 1 < |Run(Initial, es).effects.started|
    ensures End(Run(Initial, es).effects.started[k]) <= Run(Initial, es).effects.started[k + 1].start
  {
    NoOverlapAfter(Initial, es, 0);
  }

  /** One playable chunk: start at max(clock, device time), clock to the end, one fresh source. */
  lemma ChunkScheduling(h: Hook, audio: seq<Byte>, now: nat)
    requires Inv(h)
    requires h.outputContextOpen && |audio| > 0 && |audio| % 2 == 0
    ensures var r := Receive(h, ServerMessage(audio, false), now);
            && |r.effects.started| == |h.effects.started| + 1
            && r.effects.started[..|h.effects.started|] == h.effects.started
            && var p := r.effects.started[|h.effects.started|];
               && p.start == Max(h.nextStartTime, now)
               && p.start >= now && p.start >= h.nextStartTime
               && |p.samples| == |audio| / 2
               && p.samples == Decode(ReadInt16s(audio).value)
               && p.viaAnalyser
               && r.nextStartTime == p.start + |audio| / 2
               && p.id !in h.sourceNodes
               && r.sourceNodes == h.sourceNodes + {p.id}
               && r.isTalking
  {
  }

  /** Two playable chunks in a row: the second starts no earlier than the first ends. */
  lemma BackToBackChunks(h: Hook, a1: seq<Byte>, t1: nat, a2: seq<Byte>, t2: nat)
    requires Inv(h)
    requires h.outputContextOpen && |a1| > 0 && |a1| % 2 == 0 && |a2| > 0 && |a2| % 2 == 0
    ensures var r1 := Receive(h, ServerMessage(a1, false), t1);
            var r2 := Receive(r1, ServerMessage(a2, false), t2);
            && |r2.effects.started| == |h.effects.started| + 2
            && r2.effects.started[|h.effects.started| + 1].start == Max(End(r2.effects.started[|h.effects.started|]), t2)
            && End(r2.effects.started[|h.effects.started|]) <= r2.effects.started[|h.effects.started| + 1].start
  {
    var r1 := Receive(h, ServerMessage(a1, false), t1);
    ReceiveKeepsInv(h, ServerMessage(a1, false), t1);
    ChunkScheduling(h, a1, t1);
    ChunkScheduling(r1, a2, t2);
    var r2 := Receive(r1, ServerMessage(a2, false), t2);
    assert r2.effects.started[..|r1.effects.started|] == r1.effects.started;
    assert r2.effects.started[|h.effects.started|] == r2.effects.started[..|r1.effects.started|][|h.effects.started|];
  }

  /** An odd-length chunk throws after raising the flag and the clock; nothing else happens. */
  lemma OddChunkAbortsHandler(h: Hook, audio: seq<Byte>, interrupted: bool, now: nat)
    requires h.outputContextOpen && |audio| % 2 == 1
    ensures Receive(h, ServerMessage(audio, interrupted), now)
            == h.(isTalking := true, nextStartTime := Max(h.nextStartTime, now))
  {
  }

  /** So with nothing playing, an odd-length chunk leaves the flag up with no source to lower it. */
  lemma OddChunkLeavesTalkingWithoutSources(h: Hook, audio: seq<Byte>, now: nat)
    requires h.outputContextOpen && |audio| % 2 == 1 && h.sourceNodes == {}
    ensures var r := Receive(h, ServerMessage(audio, true), now);
            r.isTalking && r.sourceNodes == {} && r.nextStartTime >= now
  {
  }

  /** A chunk arriving after cleanup is ignored: nothing changes. */
  lemma ChunkIgnoredAfterCleanup(h: Hook, audio: seq<Byte>, now: nat)
    ensures Receive(Cleanup(h), ServerMessage(audio, false), now) == Cleanup(h)
  {
  }

  // ---------------------------------------------------------------------------
  // Interruption

  /** After a message with the interrupted flag (one that does not throw) nothing plays and the clock is 0. */
  lemma InterruptionResets(h: Hook, m: ServerMessage, now: nat)
    requires m.interrupted && !ChunkThrows(h, m)
    ensures var r := Receive(h, m, now);
            && r.sourceNodes == {} && r.nextStartTime == 0 && !r.isTalking
            && h.sourceNodes <= r.effects.stopped
            && r.connectionState == h.connectionState && r.error == h.error
  {
  }

  /** On an empty set the interruption only zeroes the clock and lowers the flag. */
  lemma InterruptionWhenIdle(h: Hook)
    requires h.sourceNodes == {}
    ensures Interrupt(h) == h.(nextStartTime := 0, isTalking := false)
  {
  }

  /** The chunk after an interruption starts at the device time. */
  lemma ChunkAfterInterruptionStartsNow(h: Hook, audio: seq<Byte>, now: nat)
    requires Inv(h)
    requires h.outputContextOpen && |audio| > 0 && |audio| % 2 == 0
    ensures var r := Receive(Interrupt(h), ServerMessage(audio, false), now);
            r.effects.started[|h.effects.started|].start == now
  {
    ChunkScheduling(Interrupt(h), audio, now);
  }

  /** Audio and the interrupted flag in one message: the chunk is started, then stopped with the rest. */
  lemma AudioThenInterruptionInOneMessage(h: Hook, audio: seq<Byte>, now: nat)
    requires Inv(h)
    requires h.outputContextOpen && |audio| > 0 && |audio| % 2 == 0
    ensures var r := Receive(h, ServerMessage(audio, true), now);
            && |r.effects.started| == |h.effects.started| + 1
            && r.effects.started[|h.effects.started|].start == Max(h.nextStartTime, now)
            && r.effects.started[|h.effects.started|].id in r.effects.stopped
            && r.sourceNodes == {} && r.nextStartTime == 0 && !r.isTalking
  {
  }

  // ---------------------------------------------------------------------------
  // The ended listener

  /** ended removes exactly that source; the flag drops iff the set became empty. */
  lemma EndedRemovesThatSource(h: Hook, id: nat)
    requires Inv(h)
    ensures var r := Ended(h, id);
            && r.sourceNodes == h.sourceNodes - {id}
            && (r.isTalking <==> r.sourceNodes != {})
            && (r.sourceNodes != {} ==> r.isTalking == h.isTalking)
            && r == h.(sourceNodes := r.sourceNodes, isTalking := r.isTalking)
  {
  }

  // ---------------------------------------------------------------------------
  // Cleanup and the failure paths

  lemma CleanupTearsDown(h: Hook)
    ensures var r := Cleanup(h);
            && Released(r)
            && r.connectionState == Disconnected && !r.isTalking && r.sourceNodes == {}
            && h.sourceNodes <= r.effects.stopped
            && r.nextStartTime == h.nextStartTime && r.error == h.error
            && r.effects.started == h.effects.started && r.nodes.session == h.nodes.session
  {
  }

  lemma CleanupIdempotent(h: Hook)
    ensures Cleanup(Cleanup(h)) == Cleanup(h)
  {
  }

  /** Whatever the state, every tearing-down callback ends in 'disconnected', never 'error'. */
  lemma TeardownEndsDisconnected(h: Hook, e: Event)
    requires e.ConnectFailed? || e.SessionClosed? || e.SessionErrored? || e.DisconnectCalled?
    ensures Step(h, e).connectionState == Disconnected && Released(Step(h, e))
  {
  }

  /** A connect failure leaves a non-empty message, err.message when it has one. */
  lemma ConnectFailureReported(h: Hook, reason: Option<string>)
    ensures var r := ConnectThrew(h, reason);
            && r.error.Some? && |r.error.value| > 0
            && (reason.Some? && reason.value != "" ==> r.error.value == reason.value)
            && (reason == None || reason == Some("") ==> r.error.value == ConnectFailedText)
            && r.connectionState == Disconnected && Released(r) && !r.isTalking
  {
  }

  lemma TransportErrorReported(h: Hook)
    ensures var r := Errored(h);
            && r.error == Some(ConnectionErrorText)
            && r.connectionState == Disconnected && Released(r)
  {
  }

  /** disconnect asks for a close whenever a session was ever stored, even after an earlier disconnect. */
  lemma DisconnectRequestsClose(h: Hook)
    ensures var r := Disconnect(h);
            && r.effects.closeRequests == h.effects.closeRequests + Count(h.nodes.session)
            && r.nodes.session == h.nodes.session
            && Disconnect(r).effects.closeRequests == r.effects.closeRequests + Count(h.nodes.session)
  {
  }

  // ---------------------------------------------------------------------------
  // Lifecycle

  /** connect sets 'connecting' and clears the error from any state; contexts still open leak. */
  lemma ConnectFromAnyState(h: Hook)
    ensures var r := Connect(h);
            && r.connectionState == Connecting && r.error == None
            && r.inputContextOpen && r.outputContextOpen
            && r.effects.leakedHandles == h.effects.leakedHandles + Count(h.inputContextOpen) + Count(h.outputContextOpen)
            && r.sourceNodes == h.sourceNodes && r.nextStartTime == h.nextStartTime
  {
  }

  /** Only onopen moves a state into 'connected'. */
  lemma OnlyOpenConnects(h: Hook, e: Event)
    requires h.connectionState != Connected && Step(h, e).connectionState == Connected
    ensures e == SessionOpened
  {
  }

  /** onopen connects even after everything has been torn down. */
  lemma OpenAfterTeardown(h: Hook)
    ensures var r := Opened(Cleanup(h));
            r.connectionState == Connected && Released(r)
  {
  }

  /** The clock survives disconnect and reconnect: the first new chunk waits for the old clock. */
  lemma ReconnectKeepsStaleClock(h: Hook, audio: seq<Byte>, now: nat)
    requires Inv(h)
    requires |audio| > 0 && |audio| % 2 == 0
    ensures var h2 := Opened(MicrophoneGranted(Connect(Disconnect(h))));
            && h2.nextStartTime == h.nextStartTime
            && Receive(h2, ServerMessage(audio, false), now).effects.started[|h.effects.started|].start
               == Max(h.nextStartTime, now)
  {
    var h2 := Opened(MicrophoneGranted(Connect(Disconnect(h))));
    assert Inv(h2) by {
      StepKeepsInv(h, DisconnectCalled);
      StepKeepsInv(Disconnect(h), ConnectCalled);
      StepKeepsInv(Connect(Disconnect(h)), MicrophoneReady);
    }
    ChunkScheduling(h2, audio, now);
  }

  // ---------------------------------------------------------------------------
  // The send path

  function Captures(frames: seq<Frame>): (es: seq<Event>)
    ensures |es| == |frames|
  {
    if frames == [] then [] else [AudioCaptured(frames[0])] + Captures(frames[1..])
  }

  /** While capture is wired, every captured block is queued once, in capture order. */
  lemma {:induction false} CaptureQueuesInOrder(h: Hook, frames: seq<Frame>)
    requires h.nodes.processor
    ensures Run(h, Captures(frames)) == h.(effects := h.effects.(outbox := h.effects.outbox + frames))
    decreases |frames|
  {
    if frames != [] {
      var es := Captures(frames);
      assert es[0] == AudioCaptured(frames[0]) && es[1..] == Captures(frames[1..]);
      CaptureQueuesInOrder(AudioProcessed(h, frames[0]), frames[1..]);
      assert h.effects.outbox + [frames[0]] + frames[1..] == h.effects.outbox + frames;
    }
  }

  // ---------------------------------------------------------------------------
  // Scenarios

  /** connect followed by the microphone grant wires capture, whatever came before. */
  lemma ConnectThenGrantWiresCapture(h: Hook)
    ensures var g := MicrophoneGranted(Connect(h));
            && g.connectionState == Connecting
            && g.inputContextOpen && g.outputContextOpen
            && g.nodes == Nodes(true, true, true, true, true)
  {
  }

  /** Three captured blocks of 4096 samples give three queued sends, in order. */
  lemma ThreeBlocksThreeSends(h: Hook, f1: Frame, f2: Frame, f3: Frame)
    requires h.nodes.processor
    requires |f1| == 4096 && |f2| == 4096 && |f3| == 4096
    ensures Run(h, [AudioCaptured(f1), AudioCaptured(f2), AudioCaptured(f3)]).effects.outbox
            == h.effects.outbox + [f1, f2, f3]
  {
    var fs := [f1, f2, f3];
    assert [f3][1..] == [] && Captures([f3]) == [AudioCaptured(f3)];
    assert [f2, f3][1..] == [f3] && Captures([f2, f3]) == [AudioCaptured(f2), AudioCaptured(f3)];
    assert fs[1..] == [f2, f3];
    assert Captures(fs) == [AudioCaptured(f1), AudioCaptured(f2), AudioCaptured(f3)];
    CaptureQueuesInOrder(h, fs);
  }

  /**
   * Two half-second chunks (12000 samples each) on an idle output clock: the
   * second starts exactly 12000 ticks after the first; the flag stays up
   * until both have ended.
   */
  lemma TwoHalfSecondChunks(h: Hook, a1: seq<Byte>, a2: seq<Byte>)
    requires Inv(h) && h.outputContextOpen && h.sourceNodes == {} && h.nextStartTime == 0
    requires |a1| == 24000 && |a2| == 24000
    ensures var n := |h.effects.started|;
            var r1 := Receive(h, ServerMessage(a1, false), 0);
            var r2 := Receive(r1, ServerMessage(a2, false), 0);
            var e1 := Ended(r2, n);
            var e2 := Ended(e1, n + 1);
            && r2.effects.started[n].start == 0 && r2.effects.started[n + 1].start == 12000
            && r2.isTalking && e1.isTalking && !e2.isTalking
  {
    var n := |h.effects.started|;
    ChunkScheduling(h, a1, 0);
    var r1 := Receive(h, ServerMessage(a1, false), 0);
    ReceiveKeepsInv(h, ServerMessage(a1, false), 0);
    ChunkScheduling(r1, a2, 0);
    var r2 := Receive(r1, ServerMessage(a2, false), 0);
    assert r2.effects.started[..n + 1] == r1.effects.started;
    assert r2.effects.started[n] == r1.effects.started[n];
    assert r2.sourceNodes == {n, n + 1};
    assert Ended(r2, n).sourceNodes == {n + 1};
  }

  /** A chunk interrupted before it ends is stopped and the flag drops at once. */
  lemma InterruptedChunk(h: Hook, a: seq<Byte>, now: nat, later: nat)
    requires Inv(h) && h.outputContextOpen
    requires |a| > 0 && |a| % 2 == 0
    ensures var r1 := Receive(h, ServerMessage(a, false), now);
            var r2 := Receive(r1, ServerMessage([], true), later);
            && r1.isTalking && h.nextSourceId in r1.sourceNodes
            && h.nextSourceId in r2.effects.stopped && r2.sourceNodes == {} && !r2.isTalking
  {
    ChunkScheduling(h, a, now);
    var r1 := Receive(h, ServerMessage(a, false), now);
    InterruptionResets(r1, ServerMessage([], true), later);
  }

  /** The microphone is refused: the message is kept, every handle released, state 'disconnected'. */
  lemma MicrophoneRefused(h: Hook)
    ensures var r := ConnectThrew(Connect(h), Some("Permission denied"));
            && r.error == Some("Permission denied")
            && r.connectionState == Disconnected && Released(r)
  {
    ConnectFailureReported(Connect(h), Some("Permission denied"));
  }
}
