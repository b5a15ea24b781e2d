/**
 * The state of the live-session hook as a value, and one transition function
 * per callback of the hook. Times are in ticks of the 24 kHz output clock, so
 * a buffer of n samples lasts exactly n ticks.
 */
module SessionModel {
  import opened Wrappers
  import opened Pcm

  /** The connection state shown to the page. */
  datatype ConnectionState = Disconnected | Connecting | Connected | Error

  /** One captured microphone block, as handed to the send path. */
  type Frame = seq<real>

  /** One call of source.start: the source id, its start tick, its channel data and its routing. */
  datatype Playback = Playback(id: nat, start: nat, samples: seq<real>, viaAnalyser: bool)

  /**
   * A server message as far as the hook looks at it: the decoded bytes of the
   * first part's inline audio (empty when the field is absent or the empty
   * string) and the interrupted flag.
   */
  datatype ServerMessage = ServerMessage(audio: seq<Byte>, interrupted: bool)

  /** The refs besides the two audio contexts; true when the ref holds an object. */
  datatype Nodes = Nodes(analyser: bool, stream: bool, inputSource: bool, processor: bool, session: bool)

  /**
   * What the hook has done to the outside world so far: the sources on which
   * stop() was called, every source.start call in order, every captured block
   * queued for sending in order, the handles overwritten while still open, and
   * the session.close requests.
   */
  datatype Effects = Effects(
    stopped: set<nat>,
    started: seq<Playback>,
    outbox: seq<Frame>,
    leakedHandles: nat,
    closeRequests: nat)

  /** The hook's React state and refs, and the effects it has had. */
  datatype Hook = Hook(
    connectionState: ConnectionState,
    isTalking: bool,
    error: Option<string>,
    nextStartTime: nat,
    sourceNodes: set<nat>,
    nextSourceId: nat,
    inputContextOpen: bool,
    outputContextOpen: bool,
    nodes: Nodes,
    effects: Effects)

  const ConnectFailedText: string := "Failed to access microphone or connect."
  const ConnectionErrorText: string := "Connection error occurred."

  /** The hook as first rendered: nothing open, clock at 0, no sources. */
  const NoNodes: Nodes := Nodes(false, false, false, false, false)

  const Initial: Hook := Hook(Disconnected, false, None, 0, {}, 0, false, false,
                              NoNodes, Effects({}, [], [], 0, 0))

  function Max(a: nat, b: nat): nat {
    if a >= b then a else b
  }

  function Count(b: bool): nat {
    if b then 1 else 0
  }

  /** All handles released (the session ref is never cleared). */
  predicate Released(h: Hook) {
    && !h.inputContextOpen && !h.outputContextOpen
    && !h.nodes.analyser && !h.nodes.stream && !h.nodes.inputSource && !h.nodes.processor
  }

  /** Leaked-handle count after overwriting the given refs. */
  function Leak(e: Effects, n: nat): Effects {
    e.(leakedHandles := e.leakedHandles + n)
  }

  /** cleanup: release every handle, stop and forget every source. */
  function Cleanup(h: Hook): Hook {
    h.(nodes := h.nodes.(processor := false, inputSource := false, stream := false, analyser := false),
       inputContextOpen := false,
       effects := h.effects.(stopped := h.effects.stopped + h.sourceNodes),
       sourceNodes := {},
       outputContextOpen := false,
       connectionState := Disconnected,
       isTalking := false)
  }

  /**
   * connect, up to the await on the microphone: connecting, error cleared,
   * both contexts opened and the analyser created. Contexts still open from
   * an earlier call are overwritten without being closed.
   */
  function Connect(h: Hook): Hook {
    h.(connectionState := Connecting,
       error := None,
       effects := Leak(h.effects, Count(h.inputContextOpen) + Count(h.outputContextOpen)),
       inputContextOpen := true,
       outputContextOpen := true,
       nodes := h.nodes.(analyser := true))
  }

  /**
   * connect, after the microphone was granted: the stream, the source node,
   * the processor and the session are stored and capture is wired. When the
   * input context has been released meanwhile, only the stream is stored and
   * the null dereference that follows reaches the catch block (the separate
   * ConnectThrew event).
   */
  function MicrophoneGranted(h: Hook): Hook {
    var n := h.nodes;
    if !h.inputContextOpen then
      h.(nodes := n.(stream := true), effects := Leak(h.effects, Count(n.stream)))
    else
      h.(nodes := Nodes(n.analyser, true, true, true, true),
         effects := Leak(h.effects, Count(n.stream) + Count(n.inputSource) + Count(n.processor)))
  }

  /** err.message when it is present and non-empty, the fixed text otherwise. */
  function ErrorText(message: Option<string>): string {
    if message.Some? && message.value != "" then message.value else ConnectFailedText
  }

  /** The catch block of connect: error set, state 'error', then cleanup. */
  function ConnectThrew(h: Hook, message: Option<string>): Hook {
    Cleanup(h.(error := Some(ErrorText(message)), connectionState := Error))
  }

  /** onopen. */
  function Opened(h: Hook): Hook {
    h.(connectionState := Connected)
  }

  /** Start a source with the given channel data at the clock and advance the clock by its length. */
  function Schedule(h: Hook, samples: seq<real>): Hook {
    var p := Playback(h.nextSourceId, h.nextStartTime, samples, h.nodes.analyser);
    h.(effects := h.effects.(started := h.effects.started + [p]),
       nextStartTime := h.nextStartTime + |samples|,
       sourceNodes := h.sourceNodes + {h.nextSourceId},
       nextSourceId := h.nextSourceId + 1)
  }

  /** The audio branch of onmessage: talking, clock raised to the device time, decode, schedule. */
  function PlayChunk(h: Hook, audio: seq<Byte>, currentTime: nat): Hook {
    var h1 := h.(isTalking := true, nextStartTime := Max(h.nextStartTime, currentTime));
    match ReadInt16s(audio)
    case Success(pcm) => Schedule(h1, Decode(pcm))
    case Failure(_) => h1
  }

  /** Whether onmessage throws: an audio chunk of odd byte length reaches the decoder. */
  predicate ChunkThrows(h: Hook, m: ServerMessage) {
    |m.audio| > 0 && h.outputContextOpen && |m.audio| % 2 == 1
  }

  /** The interruption branch of onmessage: stop and forget every source, clock to 0. */
  function Interrupt(h: Hook): Hook {
    h.(effects := h.effects.(stopped := h.effects.stopped + h.sourceNodes),
       sourceNodes := {},
       nextStartTime := 0,
       isTalking := false)
  }

  /** onmessage: audio first (ignored without an output context), then the interruption. */
  function Receive(h: Hook, m: ServerMessage, currentTime: nat): Hook {
    var h1 := if |m.audio| > 0 && h.outputContextOpen then PlayChunk(h, m.audio, currentTime) else h;
    if ChunkThrows(h, m) then h1
    else if m.interrupted then Interrupt(h1)
    else h1
  }

  /** The 'ended' listener of one source. */
  function Ended(h: Hook, id: nat): Hook {
    var rest := h.sourceNodes - {id};
    h.(sourceNodes := rest, isTalking := if rest == {} then false else h.isTalking)
  }

  /** onclose. */
  function Closed(h: Hook): Hook {
    Cleanup(h)
  }

  /** onerror. */
  function Errored(h: Hook): Hook {
    Cleanup(h.(error := Some(ConnectionErrorText)))
  }

  /** disconnect: a close request when a session was ever stored, then cleanup. */
  function Disconnect(h: Hook): Hook {
    Cleanup(h.(effects := h.effects.(closeRequests := h.effects.closeRequests + Count(h.nodes.session))))
  }

  /** onaudioprocess: one send queued per captured block while the processor is wired. */
  function AudioProcessed(h: Hook, frame: Frame): Hook {
    if h.nodes.processor then h.(effects := h.effects.(outbox := h.effects.outbox + [frame])) else h
  }

  /** Everything that can drive the hook. */
  datatype Event =
    | ConnectCalled
    | MicrophoneReady
    | ConnectFailed(reason: Option<string>)
    | SessionOpened
    | MessageReceived(msg: ServerMessage, currentTime: nat)
    | SourceEnded(id: nat)
    | SessionClosed
    | SessionErrored
    | DisconnectCalled
    | AudioCaptured(frame: Frame)

  function Step(h: Hook, e: Event): Hook {
    match e
    case ConnectCalled => Connect(h)
    case MicrophoneReady => MicrophoneGranted(h)
    case ConnectFailed(msg) => ConnectThrew(h, msg)
    case SessionOpened => Opened(h)
    case MessageReceived(m, now) => Receive(h, m, now)
    case SourceEnded(id) => Ended(h, id)
    case SessionClosed => Closed(h)
    case SessionErrored => Errored(h)
    case DisconnectCalled => Disconnect(h)
    case AudioCaptured(f) => AudioProcessed(h, f)
  }

  function Run(h: Hook, es: seq<Event>): Hook
    decreases |es|
  {
    if es == [] then h else Run(Step(h, es[0]), es[1..])
  }

  /**
   * What every reachable state satisfies: source ids are issued in order and
   * never exceed the counter, a non-empty set of sources means talking, the
   * analyser exists exactly while the output context does, every started
   * source went through the analyser and holds samples in [-1, 1).
   */
  predicate Inv(h: Hook) {
    && (forall id :: id in h.sourceNodes ==> id < h.nextSourceId)
    && (h.sourceNodes != {} ==> h.isTalking)
    && h.outputContextOpen == h.nodes.analyser
    && |h.effects.started| == h.nextSourceId
    && (forall k :: 0 <= k < |h.effects.started| ==> h.effects.started[k].id == k)
    && (forall k :: 0 <= k < |h.effects.started| ==> h.effects.started[k].viaAnalyser)
    && (forall k :: 0 <= k < |h.effects.started| ==> AllInUnitRange(h.effects.started[k].samples))
  }

  /** End tick of a started source. */
  function End(p: Playback): nat {
    p.start + |p.samples|
  }

  /**
   * The sources started from index b on never overlap each other and all end
   * by the clock.
   */
  predicate ScheduledFrom(h: Hook, b: nat) {
    var ps := h.effects.started;
    && b <= |ps|
    && (forall i, j :: b <= i < j < |ps| ==> End(ps[i]) <= ps[j].start)
    && (forall i :: b <= i < |ps| ==> End(ps[i]) <= h.nextStartTime)
  }

  /** Whether an event carries the interrupted flag. */
  predicate Interrupting(e: Event) {
    e.MessageReceived? && e.msg.interrupted
  }
}
