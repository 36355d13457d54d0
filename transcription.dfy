/** The live-transcription session: the module-level handles of the
    transcription service (socket, audio context, script processor, microphone
    source, media stream, update callback), changed by `startTranscription`,
    `stopTranscription`, the socket's open and message events, and the audio
    callback. Browser objects are abstract numbered handles; what the service
    does to them is recorded as a log of effects. */
module Transcription {
  import opened Strings
  import opened Pcm

  /** The path part of the socket URL (the protocol and host come from the page's location). */
  const SocketPath: string := "/transcription-ws/ws"

  datatype ReadyState = Connecting | Open | Closing | Closed

  datatype Socket = Socket(id: nat, state: ReadyState)

  datatype Effect =
    | Connect(socket: nat, path: string)      // new WebSocket(...)
    | DisconnectProcessor(handle: nat)        // processor.disconnect()
    | DisconnectInput(handle: nat)            // input.disconnect()
    | StopTracks(handle: nat)                 // stream.getTracks().forEach(t => t.stop())
    | CloseContext(handle: nat)               // audioContext.close()
    | CloseSocket(socket: nat)                // socket.close()
    | Send(socket: nat, frame: seq<byte>)     // socket.send(buffer)
    | Deliver(callback: nat, text: string)    // transcriptionCallback(event.data)

  /** The six module-level variables, the next fresh handle number, and the
      sockets whose `onopen` is still to come (`connecting`) or has run up to
      its `await getUserMedia` (`awaiting`). A socket stays in these sets
      after the variable `socket` no longer refers to it: stopping or
      replacing a CONNECTING socket does not close it, and an `onopen`
      already waiting for the microphone is not cancelled. */
  datatype Session = Session(
    socket: Option<Socket>,
    audioContext: Option<nat>,
    processor: Option<nat>,
    input: Option<nat>,
    stream: Option<nat>,
    callback: Option<nat>,
    nextId: nat,
    connecting: set<nat>,
    awaiting: set<nat>)

  predicate IsOpen(socket: Option<Socket>) {
    socket.Some? && socket.value.state == Open
  }

  /** `isTranscribing()`. */
  predicate Transcribing(s: Session) {
    IsOpen(s.socket)
  }

  /** What `stopTranscription` does, in its order: each release only for a
      handle that is set, and the socket closed only when it is OPEN. */
  function StopEffects(s: Session): seq<Effect> {
    ProcessorRelease(s) + InputRelease(s) + StreamRelease(s) + ContextRelease(s) + SocketRelease(s)
  }

  function ProcessorRelease(s: Session): seq<Effect> {
    if s.processor.Some? then [DisconnectProcessor(s.processor.value)] else []
  }

  function InputRelease(s: Session): seq<Effect> {
    if s.input.Some? then [DisconnectInput(s.input.value)] else []
  }

  function StreamRelease(s: Session): seq<Effect> {
    if s.stream.Some? then [StopTracks(s.stream.value)] else []
  }

  function ContextRelease(s: Session): seq<Effect> {
    if s.audioContext.Some? then [CloseContext(s.audioContext.value)] else []
  }

  function SocketRelease(s: Session): seq<Effect> {
    if IsOpen(s.socket) then [CloseSocket(s.socket.value.id)] else []
  }

  /** `stopTranscription()`: every variable null; the pending handlers live on. */
  function Stopped(s: Session): Session {
    s.(socket := None, audioContext := None, processor := None, input := None, stream := None, callback := None)
  }

  /** `startTranscription(cb)` up to the point where it waits for the socket:
      stop first only when the current socket is OPEN, install the callback,
      open a new CONNECTING socket. */
  function Started(s: Session, cb: nat): Session {
    var base := if IsOpen(s.socket) then Stopped(s) else s;
    base.(callback := Some(cb), socket := Some(Socket(base.nextId, Connecting)),
          connecting := base.connecting + {base.nextId}, nextId := base.nextId + 1)
  }

  function StartEffects(s: Session): seq<Effect> {
    (if IsOpen(s.socket) then StopEffects(s) else []) + [Connect(s.nextId, SocketPath)]
  }

  /** Socket `id` opens: it is OPEN if it is still the current socket, and its
      `onopen` handler runs up to the `await` of the microphone request. */
  function Opened(s: Session, id: nat): Session
    requires id in s.connecting
  {
    s.(socket := if s.socket.Some? && s.socket.value.id == id then Some(Socket(id, Open)) else s.socket,
       connecting := s.connecting - {id},
       awaiting := s.awaiting + {id})
  }

  /** The rest of socket `id`'s `onopen`, once the microphone request settles,
      when its first `steps` setup steps succeed (stream, audio context, source,
      processor; 4 or more means all of them). A failing step leaves the handles
      already obtained in place. The handles are assigned whatever the variable
      `socket` refers to by then. */
  function SetUp(s: Session, id: nat, steps: nat): Session
    requires id in s.awaiting
  {
    var n := s.nextId;
    s.(stream := if steps >= 1 then Some(n) else s.stream,
       audioContext := if steps >= 2 then Some(n + 1) else s.audioContext,
       input := if steps >= 3 then Some(n + 2) else s.input,
       processor := if steps >= 4 then Some(n + 3) else s.processor,
       nextId := n + 4,
       awaiting := s.awaiting - {id})
  }

  /** A socket closed by the server or the network: no longer OPEN, and never to open. */
  function ClosedByPeer(s: Session): Session
    requires s.socket.Some?
  {
    s.(socket := Some(s.socket.value.(state := Closed)), connecting := s.connecting - {s.socket.value.id})
  }

  /** Some audio handle is set. */
  predicate HasAudio(s: Session) {
    s.stream.Some? || s.audioContext.Some? || s.input.Some? || s.processor.Some?
  }

  /** No audio handle outlives its session: audio is set only beside a socket. */
  predicate AudioHasSocket(s: Session) {
    HasAudio(s) ==> s.socket.Some?
  }

  /** The set-up as evidently intended: it keeps the handles only while its own
      socket is still the current, OPEN one, and otherwise gives them up. */
  function GuardedSetUp(s: Session, id: nat, steps: nat): Session
    requires id in s.awaiting
  {
    if IsOpen(s.socket) && s.socket.value.id == id then SetUp(s, id, steps)
    else s.(nextId := s.nextId + 4, awaiting := s.awaiting - {id})
  }

  /** One audio block: encoded and sent only while the socket is OPEN. */
  function BlockEffects(s: Session, frame: seq<byte>): seq<Effect> {
    if IsOpen(s.socket) then [Send(s.socket.value.id, frame)] else []
  }

  /** An inbound message reaches the current callback, if there is one. */
  function MessageEffects(s: Session, text: string): seq<Effect> {
    if s.callback.Some? then [Deliver(s.callback.value, text)] else []
  }

  // ---------------------------------------------------------------------------
  // Properties of the session
  // ---------------------------------------------------------------------------

  /** After stopping, every handle is null and the service is not transcribing. */
  lemma StopClearsEverything(s: Session)
    ensures var t := Stopped(s);
      && t.socket.None? && t.audioContext.None? && t.processor.None?
      && t.input.None? && t.stream.None? && t.callback.None?
      && !Transcribing(t)
  {
  }

  /** Stopping twice is stopping once: the second call releases nothing. */
  lemma StopIdempotent(s: Session)
    ensures Stopped(Stopped(s)) == Stopped(s)
    ensures StopEffects(Stopped(s)) == []
  {
  }

  /** Each release in `stopTranscription` happens exactly for a handle that is
      set, and the socket is closed exactly when it is OPEN. */
  lemma StopReleasesExactlyTheSetHandles(s: Session, h: nat)
    ensures DisconnectProcessor(h) in StopEffects(s) <==> s.processor == Some(h)
    ensures DisconnectInput(h) in StopEffects(s) <==> s.input == Some(h)
    ensures StopTracks(h) in StopEffects(s) <==> s.stream == Some(h)
    ensures CloseContext(h) in StopEffects(s) <==> s.audioContext == Some(h)
    ensures CloseSocket(h) in StopEffects(s) <==> IsOpen(s.socket) && s.socket.value.id == h
  {
    InStopEffects(s, DisconnectProcessor(h));
    InStopEffects(s, DisconnectInput(h));
    InStopEffects(s, StopTracks(h));
    InStopEffects(s, CloseContext(h));
    InStopEffects(s, CloseSocket(h));
  }

  lemma InStopEffects(s: Session, x: Effect)
    ensures x in StopEffects(s) <==>
      x in ProcessorRelease(s) || x in InputRelease(s) || x in StreamRelease(s)
      || x in ContextRelease(s) || x in SocketRelease(s)
  {
  }

  /** The processor is disconnected before the source, the tracks are stopped
      before the context is closed, and the socket is closed last. */
  lemma StopOrder(s: Session, p: nat, c: nat)
    requires s.processor == Some(p) && s.audioContext == Some(c) && IsOpen(s.socket)
    ensures StopEffects(s)[0] == DisconnectProcessor(p)
    ensures StopEffects(s)[|StopEffects(s)| - 2] == CloseContext(c)
    ensures StopEffects(s)[|StopEffects(s)| - 1] == CloseSocket(s.socket.value.id)
  {
  }

  /** Starting closes the previous session only when its socket is OPEN; in
      every case it installs the new callback and connects a new socket to the
      transcription path, which is not yet transcribing. */
  lemma StartReplacesOnlyOpenSessions(s: Session, cb: nat)
    ensures var t := Started(s, cb);
      && t.callback == Some(cb)
      && t.socket == Some(Socket(s.nextId, Connecting))
      && !Transcribing(t)
      && StartEffects(s)[|StartEffects(s)| - 1] == Connect(s.nextId, SocketPath)
      && (IsOpen(s.socket) ==> StartEffects(s)[..|StartEffects(s)| - 1] == StopEffects(s))
      && (!IsOpen(s.socket) ==> StartEffects(s) == [Connect(s.nextId, SocketPath)])
  {
  }

  /** A start while the socket is not OPEN (still connecting, or closed by the
      server) keeps the previous audio handles: they are neither released nor
      forgotten, and the next successful setup overwrites them. */
  lemma StartKeepsAudioOfUnopenedSession(s: Session, cb: nat)
    requires !IsOpen(s.socket)
    ensures var t := Started(s, cb);
      t.stream == s.stream && t.audioContext == s.audioContext
      && t.input == s.input && t.processor == s.processor
  {
  }

  /** Opening makes the service transcribe exactly when the socket that opens
      is the current one; an older socket opening changes no variable. Either
      way its handler is now waiting for the microphone. */
  lemma OpenedSocket(s: Session, id: nat)
    requires id in s.connecting
    ensures var t := Opened(s, id);
      && (s.socket.Some? && s.socket.value.id == id ==> Transcribing(t))
      && (s.socket.None? || s.socket.value.id != id ==> t.socket == s.socket)
      && id in t.awaiting && id !in t.connecting
      && t.stream == s.stream && t.processor == s.processor && t.callback == s.callback
  {
  }

  /** The set-up assigns the handles its steps obtain, keeps those of a failed
      step, and leaves the socket and the callback as they are. */
  lemma SetUpSteps(s: Session, id: nat, steps: nat)
    requires id in s.awaiting
    ensures var t := SetUp(s, id, steps);
      && t.socket == s.socket && t.callback == s.callback && id !in t.awaiting
      && (steps >= 4 ==> t.stream.Some? && t.audioContext.Some? && t.input.Some? && t.processor.Some?)
      && (1 <= steps < 4 ==> t.stream == Some(s.nextId) && t.processor == s.processor)
      && (steps == 0 ==> (HasAudio(t) <==> HasAudio(s)))
  {
  }

  /** The handles obtained in one set-up are fresh and distinct. */
  lemma SetUpHandlesDistinct(s: Session, id: nat)
    requires id in s.awaiting
    ensures var t := SetUp(s, id, 4);
      && t.stream.value != t.audioContext.value && t.audioContext.value != t.input.value
      && t.input.value != t.processor.value && t.stream.value != t.processor.value
      && t.stream.value >= s.nextId && t.processor.value < t.nextId
  {
  }

  /** As written: a stop while the new socket is still connecting, or while its
      `onopen` waits for the microphone, is followed by a set-up that leaves the
      microphone, context and processor set with no socket at all. */
  lemma StopBeforeSetUpLeavesAudio(s: Session, cb: nat)
    ensures var id := s.nextId;
      var t := Started(s, cb);
      var early := SetUp(Opened(Stopped(t), id), id, 4);
      var late := SetUp(Stopped(Opened(t, id)), id, 4);
      && early.stream.Some? && early.processor.Some? && early.socket.None? && !AudioHasSocket(early)
      && late.stream.Some? && late.processor.Some? && late.socket.None? && !AudioHasSocket(late)
  {
  }

  /** As written, the leaked handles are lost for good once a new session
      opens before a stop: the new start keeps them (its socket was never
      OPEN, so it does not stop first), and the new set-up overwrites all four
      with fresh handles, so no later stop can release the leaked ones. */
  lemma LeakedAudioOverwritten(s: Session, cb: nat, cb2: nat)
    ensures var id := s.nextId;
      var late := SetUp(Stopped(Opened(Started(s, cb), id)), id, 4);
      var u := Started(late, cb2);
      var again := SetUp(Opened(u, late.nextId), late.nextId, 4);
      && late.stream.Some? && late.audioContext.Some? && late.input.Some? && late.processor.Some?
      && u.stream == late.stream && u.audioContext == late.audioContext
      && u.input == late.input && u.processor == late.processor
      && again.stream.Some? && again.stream.value > late.stream.value
      && again.audioContext.Some? && again.audioContext.value > late.audioContext.value
      && again.input.Some? && again.input.value > late.input.value
      && again.processor.Some? && again.processor.value > late.processor.value
  {
  }

  /** Corrected: the same two traces with the guarded set-up leave nothing set. */
  lemma GuardedStopBeforeSetUp(s: Session, cb: nat)
    ensures var id := s.nextId;
      var t := Started(s, cb);
      var early := GuardedSetUp(Opened(Stopped(t), id), id, 4);
      var late := GuardedSetUp(Stopped(Opened(t, id)), id, 4);
      && !HasAudio(early) && !HasAudio(late)
  {
  }

  /** Corrected: every transition of the service, with the guarded set-up in
      place of the as-written one, keeps audio handles beside a socket. */
  lemma GuardedKeepsAudioWithSocket(s: Session, cb: nat, id: nat, steps: nat)
    requires AudioHasSocket(s)
    ensures AudioHasSocket(Started(s, cb)) && AudioHasSocket(Stopped(s))
    ensures id in s.connecting ==> AudioHasSocket(Opened(s, id))
    ensures id in s.awaiting ==> AudioHasSocket(GuardedSetUp(s, id, steps))
    ensures s.socket.Some? ==> AudioHasSocket(ClosedByPeer(s))
    ensures id in s.awaiting && IsOpen(s.socket) && s.socket.value.id == id ==>
      GuardedSetUp(s, id, steps) == SetUp(s, id, steps)
  {
  }

  /** Audio is sent only over an OPEN socket and otherwise dropped. */
  lemma BlocksOnlyWhileOpen(s: Session, frame: seq<byte>)
    ensures BlockEffects(s, frame) != [] <==> Transcribing(s)
    ensures Transcribing(s) ==> BlockEffects(s, frame) == [Send(s.socket.value.id, frame)]
  {
  }

  /** Messages go to the latest callback, and are ignored once stopped. */
  lemma MessagesReachLatestCallback(s: Session, cb: nat, text: string)
    ensures MessageEffects(Started(s, cb), text) == [Deliver(cb, text)]
    ensures MessageEffects(Stopped(s), text) == []
  {
  }

  /** The stop log is the audio releases followed by the socket release. */
  lemma StopEffectsSplit(s: Session, e0: seq<Effect>, e1: seq<Effect>, e2: seq<Effect>)
    requires e1 == e0 + ProcessorRelease(s) + InputRelease(s) + StreamRelease(s) + ContextRelease(s)
    requires e2 == e1 + SocketRelease(s)
    ensures e2 == e0 + StopEffects(s)
  {
  }

  // ---------------------------------------------------------------------------
  // The service itself
  // ---------------------------------------------------------------------------

  class TranscriptionService {
    var socket: Option<Socket>
    var audioContext: Option<nat>
    var processor: Option<nat>
    var input: Option<nat>
    var stream: Option<nat>
    var callback: Option<nat>
    var nextId: nat
    var connecting: set<nat>
    var awaiting: set<nat>
    /** Everything the service has done to the browser objects, oldest first. */
    var effects: seq<Effect>

    function State(): Session
      reads this
    {
      Session(socket, audioContext, processor, input, stream, callback, nextId, connecting, awaiting)
    }

    /** The module as loaded: every variable null. */
    constructor ()
      ensures State() == Session(None, None, None, None, None, None, 0, {}, {}) && effects == []
    {
      socket, audioContext, processor, input, stream, callback := None, None, None, None, None, None;
      nextId, connecting, awaiting := 0, {}, {};
      effects := [];
    }

    /** `isTranscribing()`. */
    function IsTranscribing(): (r: bool)
      reads this
      ensures r <==> Transcribing(State())
    {
      socket.Some? && socket.value.state == Open
    }

    /** `stopTranscription()`. */
    method Stop() returns (ok: bool)
      modifies this
      ensures ok
      ensures State() == Stopped(old(State()))
      ensures effects == old(effects) + StopEffects(old(State()))
    {
      ghost var s0 := State();
      ghost var e0 := effects;
      ReleaseAudio();
      ghost var s1 := State();
      ghost var e1 := effects;
      ReleaseSocket();
      assert SocketRelease(s1) == SocketRelease(s0);
      assert effects == e1 + SocketRelease(s0);
      callback := None;
      StopEffectsSplit(s0, e0, e1, effects);
      assert State() == Stopped(s0);
      return true;
    }

    /** The guarded socket close at the end of `stopTranscription`. */
    method ReleaseSocket()
      modifies this
      ensures State() == old(State()).(socket := None)
      ensures effects == old(effects) + SocketRelease(old(State()))
    {
      if socket.Some? {
        if socket.value.state == Open {
          effects := effects + [CloseSocket(socket.value.id)];
        }
        socket := None;
      }
    }

    /** The four guarded audio releases at the start of `stopTranscription`. */
    method ReleaseAudio()
      modifies this
      ensures State() == old(State()).(processor := None, input := None, stream := None, audioContext := None)
      ensures effects == old(effects) + ProcessorRelease(old(State())) + InputRelease(old(State()))
        + StreamRelease(old(State())) + ContextRelease(old(State()))
    {
      if processor.Some? {
        effects := effects + [DisconnectProcessor(processor.value)];
        processor := None;
      }
      if input.Some? {
        effects := effects + [DisconnectInput(input.value)];
        input := None;
      }
      if stream.Some? {
        effects := effects + [StopTracks(stream.value)];
        stream := None;
      }
      if audioContext.Some? {
        effects := effects + [CloseContext(audioContext.value)];
        audioContext := None;
      }
    }

    /** `startTranscription(cb)` up to the wait for the socket to open. */
    method Start(cb: nat)
      modifies this
      ensures State() == Started(old(State()), cb)
      ensures effects == old(effects) + StartEffects(old(State()))
    {
      if socket.Some? && socket.value.state == Open {
        var _ := Stop();
      }
      callback := Some(cb);
      socket := Some(Socket(nextId, Connecting));
      effects := effects + [Connect(nextId, SocketPath)];
      connecting := connecting + {nextId};
      nextId := nextId + 1;
    }

    /** Socket `id` opens and its `onopen` runs up to `await getUserMedia`. */
    method SocketOpened(id: nat)
      requires id in connecting
      modifies this
      ensures State() == Opened(old(State()), id)
      ensures effects == old(effects)
    {
      if socket.Some? && socket.value.id == id {
        socket := Some(Socket(id, Open));
      }
      connecting := connecting - {id};
      awaiting := awaiting + {id};
    }

    /** The rest of socket `id`'s `onopen` with the first `steps` setup steps
        succeeding; its promise resolves when all four do and rejects otherwise. */
    method MicSetUp(id: nat, steps: nat) returns (resolved: bool)
      requires id in awaiting
      modifies this
      ensures resolved <==> steps >= 4
      ensures State() == SetUp(old(State()), id, steps)
      ensures effects == old(effects)
    {
      awaiting := awaiting - {id};
      var n := nextId;
      nextId := n + 4;
      if steps < 1 { return false; }
      stream := Some(n);
      if steps < 2 { return false; }
      audioContext := Some(n + 1);
      if steps < 3 { return false; }
      input := Some(n + 2);
      if steps < 4 { return false; }
      processor := Some(n + 3);
      return true;
    }

    /** The server or the network closes the current socket. */
    method SocketClosed()
      requires socket.Some?
      modifies this
      ensures State() == ClosedByPeer(old(State()))
      ensures effects == old(effects)
    {
      connecting := connecting - {socket.value.id};
      socket := Some(socket.value.(state := Closed));
    }

    /** `processor.onaudioprocess` for one block of samples. */
    method AudioProcess(samples: seq<real>)
      requires processor.Some?
      modifies this
      ensures State() == old(State())
      ensures !IsOpen(old(socket)) ==> effects == old(effects)
      ensures IsOpen(old(socket)) ==> exists frame :: (Encodes(samples, frame) &&
        effects == old(effects) + BlockEffects(old(State()), frame))
    {
      if socket.Some? && socket.value.state == Open {
        var frame := EncodeBlock(samples);
        effects := effects + [Send(socket.value.id, frame)];
      }
    }

    /** `socket.onmessage` with the message text. */
    method Message(text: string)
      modifies this
      ensures State() == old(State())
      ensures effects == old(effects) + MessageEffects(old(State()), text)
    {
      if callback.Some? {
        effects := effects + [Deliver(callback.value, text)];
      }
    }
  }
}
