/**
 * The hook itself: its React state and refs as fields, each callback as a
 * method that updates them in place. Model() reads the fields back as a
 * SessionModel.Hook, and every method is tied to the transition function of
 * its callback.
 */
module LiveSessionHook {
  import opened Wrappers
  import opened Pcm
  import opened SessionModel
  import SessionProperties

  class LiveSession {
    var connectionState: ConnectionState
    var isTalking: bool
    var error: Option<string>
    /** Start tick for the next chunk (nextStartTimeRef). */
    var nextStartTime: nat
    /** Ids of the sources scheduled and not yet ended or stopped (sourceNodesRef). */
    var sourceNodes: set<nat>
    /** Id the next created source gets. */
    var nextSourceId: nat
    /** inputAudioContextRef holds an open context. */
    var inputContextOpen: bool
    /** audioContextRef holds an open context. */
    var outputContextOpen: bool
    /** The other refs: analyser, stream, input source, processor, session. */
    var nodes: Nodes
    /** What the hook has done to the outside world so far. */
    var effects: Effects

    function Model(): Hook
      reads this
    {
      Hook(connectionState, isTalking, error, nextStartTime, sourceNodes, nextSourceId,
           inputContextOpen, outputContextOpen, nodes, effects)
    }

    ghost predicate Valid()
      reads this
    {
      Inv(Model())
    }

    /** The first render: 'disconnected', nothing open, clock at 0. */
    constructor ()
      ensures Valid() && Model() == Initial
    {
      connectionState, isTalking, error := Disconnected, false, None;
      nextStartTime, sourceNodes, nextSourceId := 0, {}, 0;
      inputContextOpen, outputContextOpen := false, false;
      nodes := NoNodes;
      effects := Effects({}, [], [], 0, 0);
    }

    /** sourceNodesRef.current.forEach(node => node.stop()). */
    method StopAll()
      modifies this`effects
      ensures effects == old(effects).(stopped := old(effects.stopped) + sourceNodes)
    {
      var rest := sourceNodes;
      while rest != {}
        invariant rest <= sourceNodes
        invariant effects == old(effects).(stopped := old(effects.stopped) + (sourceNodes - rest))
        decreases rest
      {
        var node :| node in rest;
        effects := effects.(stopped := effects.stopped + {node});
        rest := rest - {node};
      }
    }

    /** cleanup: release every handle, stop and forget the sources; clock and error are kept. */
    method Cleanup()
      requires Valid()
      modifies this
      ensures Valid() && Model() == SessionModel.Cleanup(old(Model()))
      ensures connectionState == Disconnected && !isTalking && sourceNodes == {}
      ensures Released(Model()) && effects.stopped == old(effects.stopped) + old(sourceNodes)
      ensures nextStartTime == old(nextStartTime) && error == old(error)
    {
      ghost var before := Model();
      nodes := nodes.(processor := false, inputSource := false, stream := false);
      inputContextOpen := false;
      StopAll();
      sourceNodes := {};
      outputContextOpen := false;
      connectionState := Disconnected;
      isTalking := false;
      nodes := nodes.(analyser := false);
      SessionProperties.CleanupKeepsInv(before);
    }

    /** connect up to the await on the microphone; no guard on the current state. */
    method Connect()
      requires Valid()
      modifies this
      ensures Valid() && Model() == SessionModel.Connect(old(Model()))
      ensures connectionState == Connecting && error == None
      ensures inputContextOpen && outputContextOpen && nodes.analyser
      ensures effects.leakedHandles
              == old(effects.leakedHandles) + Count(old(inputContextOpen)) + Count(old(outputContextOpen))
    {
      ghost var before := Model();
      connectionState := Connecting;
      error := None;
      effects := Leak(effects, Count(inputContextOpen) + Count(outputContextOpen));
      inputContextOpen := true;
      outputContextOpen := true;
      nodes := nodes.(analyser := true);
      SessionProperties.StepKeepsInv(before, ConnectCalled);
    }

    /** connect after getUserMedia resolved: store the stream and wire capture into the session. */
    method MicrophoneGranted()
      requires Valid()
      modifies this
      ensures Valid() && Model() == SessionModel.MicrophoneGranted(old(Model()))
      ensures nodes.stream
      ensures old(inputContextOpen) ==> nodes.inputSource && nodes.processor && nodes.session
    {
      ghost var before := Model();
      var n := nodes;
      if !inputContextOpen {
        nodes := n.(stream := true);
        effects := Leak(effects, Count(n.stream));
      } else {
        nodes := Nodes(n.analyser, true, true, true, true);
        effects := Leak(effects, Count(n.stream) + Count(n.inputSource) + Count(n.processor));
      }
      SessionProperties.StepKeepsInv(before, MicrophoneReady);
    }

    /** The catch block of connect. */
    method ConnectFailed(reason: Option<string>)
      requires Valid()
      modifies this
      ensures Valid() && Model() == ConnectThrew(old(Model()), reason)
      ensures error == Some(ErrorText(reason)) && connectionState == Disconnected
    {
      error := Some(ErrorText(reason));
      connectionState := Error;
      Cleanup();
    }

    /** onopen. */
    method OnOpen()
      requires Valid()
      modifies this
      ensures Valid() && Model() == Opened(old(Model()))
      ensures connectionState == Connected
    {
      connectionState := Connected;
    }

    /**
     * The audio branch of onmessage: talking, clock raised to the device
     * time, the bytes read as 16-bit values (an odd count throws), the
     * channel filled, the source started at the clock and added to the set.
     */
    method PlayChunk(audio: seq<Byte>, currentTime: nat) returns (threw: bool)
      modifies this
      ensures Model() == SessionModel.PlayChunk(old(Model()), audio, currentTime)
      ensures threw == (|audio| % 2 == 1)
    {
      isTalking := true;
      nextStartTime := Max(nextStartTime, currentTime);
      var read := ReadInt16s(audio);
      if read.Failure? {
        return true;
      }
      var pcm := read.value;
      var channel := new real[|pcm|];
      FillChannel(pcm, channel);
      var id := nextSourceId;
      nextSourceId := nextSourceId + 1;
      effects := effects.(started := effects.started + [Playback(id, nextStartTime, channel[..], nodes.analyser)]);
      nextStartTime := nextStartTime + channel.Length;
      sourceNodes := sourceNodes + {id};
      threw := false;
    }

    /** The interruption branch of onmessage: stop every source, clear the set, clock to 0. */
    method Interrupt()
      modifies this
      ensures Model() == SessionModel.Interrupt(old(Model()))
    {
      StopAll();
      sourceNodes := {};
      nextStartTime := 0;
      isTalking := false;
    }

    /**
     * onmessage: a chunk, when there is one and the output context is open,
     * then the interruption. A chunk that throws ends the handler there.
     */
    method OnMessage(audio: seq<Byte>, interrupted: bool, currentTime: nat) returns (threw: bool)
      requires Valid()
      modifies this
      ensures Valid() && Model() == Receive(old(Model()), ServerMessage(audio, interrupted), currentTime)
      ensures threw == ChunkThrows(old(Model()), ServerMessage(audio, interrupted))
    {
      ghost var before := Model();
      threw := false;
      if |audio| > 0 && outputContextOpen {
        threw := PlayChunk(audio, currentTime);
      }
      if interrupted && !threw {
        Interrupt();
      }
      SessionProperties.StepKeepsInv(before, MessageReceived(ServerMessage(audio, interrupted), currentTime));
    }

    /** The 'ended' listener of source id. */
    method OnEnded(id: nat)
      requires Valid()
      modifies this
      ensures Valid() && Model() == Ended(old(Model()), id)
      ensures sourceNodes == old(sourceNodes) - {id}
      ensures isTalking == (if sourceNodes == {} then false else old(isTalking))
    {
      ghost var before := Model();
      sourceNodes := sourceNodes - {id};
      if sourceNodes == {} {
        isTalking := false;
      }
      SessionProperties.StepKeepsInv(before, SourceEnded(id));
    }

    /** onclose. */
    method OnClose()
      requires Valid()
      modifies this
      ensures Valid() && Model() == Closed(old(Model()))
    {
      Cleanup();
    }

    /** onerror. */
    method OnError()
      requires Valid()
      modifies this
      ensures Valid() && Model() == Errored(old(Model()))
      ensures error == Some(ConnectionErrorText) && connectionState == Disconnected
    {
      error := Some(ConnectionErrorText);
      Cleanup();
    }

    /** disconnect: request a close when a session is stored, then clean up. */
    method Disconnect()
      requires Valid()
      modifies this
      ensures Valid() && Model() == SessionModel.Disconnect(old(Model()))
      ensures effects.closeRequests == old(effects.closeRequests) + Count(nodes.session)
    {
      if nodes.session {
        effects := effects.(closeRequests := effects.closeRequests + 1);
      }
      Cleanup();
    }

    /** onaudioprocess: one send queued per captured block. */
    method OnAudioProcess(frame: Frame)
      requires Valid()
      modifies this
      ensures Valid() && Model() == AudioProcessed(old(Model()), frame)
      ensures nodes.processor ==> effects.outbox == old(effects.outbox) + [frame]
    {
      ghost var before := Model();
      if nodes.processor {
        effects := effects.(outbox := effects.outbox + [frame]);
      }
      SessionProperties.StepKeepsInv(before, AudioCaptured(frame));
    }
  }
}
