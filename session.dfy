/** The live-interpretation session: the state the hook keeps between events
    and the callbacks that change it. Each callback runs to completion before
    the next event is handled. */
module LiveSession {
  import opened Types
  import opened Transcript
  import opened Playback

  /** The parts of a server message the session reads; `audioData` is the
      inline audio of the first part of the model turn. */
  datatype ServerContent = ServerContent(
    inputTranscription: Option<string>,
    outputTranscription: Option<string>,
    audioData: Option<string>,
    interrupted: bool,
    turnComplete: bool)

  datatype LiveServerMessage = LiveServerMessage(serverContent: Option<ServerContent>)

  /** The outcome of one start-up step that the environment decides. */
  datatype Step = Succeeds | Fails(reason: string)

  /** A connected remote session, known by the instruction it was configured with. */
  datatype RemoteSession = RemoteSession(systemInstruction: string)

  const InstructionHead: string := "You are a real-time interpreter. Translate what the user says into "
  const InstructionTail: string := ". Speak ONLY the translated text, do not add any other conversational phrases."

  /** The system instruction sent at connect time, naming the target language. */
  function SystemInstruction(targetLanguage: string): (instruction: string)
    ensures |instruction| == |InstructionHead| + |targetLanguage| + |InstructionTail|
    ensures instruction[..|InstructionHead|] == InstructionHead
    ensures instruction[|InstructionHead|..|InstructionHead| + |targetLanguage|] == targetLanguage
    ensures instruction[|InstructionHead| + |targetLanguage|..] == InstructionTail
  {
    InstructionHead + targetLanguage + InstructionTail
  }

  /** Distinct target languages give distinct instructions. */
  lemma SystemInstructionNamesLanguage(a: string, b: string)
    requires SystemInstruction(a) == SystemInstruction(b)
    ensures a == b
  {
    assert SystemInstruction(a)[|InstructionHead|..|InstructionHead| + |a|] == a;
    assert SystemInstruction(b)[|InstructionHead|..|InstructionHead| + |b|] == b;
  }

  const MissingKeyReason: string := "API_KEY environment variable is not set."
  const StartErrorPrefix: string := "Failed to start session: "
  const RuntimeErrorPrefix: string := "An error occurred: "

  /** Why start-up fails, checked in the order the steps run: the key, then
      the microphone, then the audio contexts and the connection. */
  function StartFailure(apiKey: string, microphone: Step, connect: Step): (reason: Option<string>)
    ensures reason.None? <==> apiKey != "" && microphone.Succeeds? && connect.Succeeds?
    ensures apiKey == "" ==> reason == Some(MissingKeyReason)
    ensures apiKey != "" && microphone.Fails? ==> reason == Some(microphone.reason)
    ensures apiKey != "" && microphone.Succeeds? && connect.Fails? ==> reason == Some(connect.reason)
  {
    if apiKey == "" then Some(MissingKeyReason)
    else if microphone.Fails? then Some(microphone.reason)
    else if connect.Fails? then Some(connect.reason)
    else None
  }

  /** Which of the session's resource references are set: the remote
      session, the microphone stream, the two audio contexts and the two
      capture nodes. A context that is set is open. */
  datatype Resources = Resources(
    session: Option<RemoteSession>,
    mediaStream: bool,
    inputContext: bool,
    outputContext: bool,
    scriptProcessor: bool,
    mediaStreamSource: bool)

  const NoResources: Resources := Resources(None, false, false, false, false, false)

  /** The fields that stopping a session writes. */
  datatype Fields = Fields(
    status: AppStatus,
    transcript: seq<TranscriptMessage>,
    inputTranscription: string,
    outputTranscription: string,
    nextStartTime: Seconds,
    audioSources: set<BufferSource>,
    resources: Resources)

  class GeminiLive {
    var targetLanguage: string
    var status: AppStatus
    var error: Option<string>
    var transcript: seq<TranscriptMessage>
    /** Text of the current turn on each side. */
    var inputTranscription: string
    var outputTranscription: string
    /** Playback cursor and the sources scheduled but not yet ended. */
    var nextStartTime: Seconds
    var audioSources: set<BufferSource>
    var resources: Resources
    var isInitialMount: bool

    /** The chunks scheduled since the cursor was last reset to 0. */
    ghost var chunks: seq<Arrival>
    /** How often stop and start have run. */
    ghost var stopCalls: nat
    ghost var startCalls: nat

    function Snapshot(): Fields
      reads this`status, this`transcript, this`inputTranscription, this`outputTranscription,
               this`nextStartTime, this`audioSources, this`resources
    {
      Fields(status, transcript, inputTranscription, outputTranscription, nextStartTime, audioSources, resources)
    }

    function CurrentTurn(): Turn
      reads this`status, this`transcript, this`inputTranscription, this`outputTranscription
    {
      Turn(status, transcript, inputTranscription, outputTranscription)
    }

    /** The playback invariant: the cursor is where the chunks since the last
        reset put it; sources are pending only while there is an output
        context; every pending source ends by the cursor and no two pending
        sources play at once. */
    ghost predicate PlaybackValid()
      reads this`nextStartTime, this`chunks, this`audioSources, this`resources
    {
      nextStartTime == CursorAfter(0.0, chunks)
      && (audioSources != {} ==> resources.outputContext)
      && (forall s :: s in audioSources ==> s.End() <= nextStartTime)
      && (forall s, u :: s in audioSources && u in audioSources && s != u ==>
            s.End() <= u.start || u.End() <= s.start)
    }

    /** The session invariant: playback as above, and a consistent transcript. */
    ghost predicate Valid()
      reads this`status, this`transcript, this`inputTranscription, this`outputTranscription,
               this`nextStartTime, this`chunks, this`audioSources, this`resources
    {
      PlaybackValid() && Consistent(CurrentTurn())
    }

    /** The state every stop leaves behind. */
    ghost predicate Stopped()
      reads this`status, this`transcript, this`inputTranscription, this`outputTranscription,
               this`nextStartTime, this`chunks, this`audioSources, this`resources
    {
      status == Idle && transcript == [] && inputTranscription == "" && outputTranscription == ""
      && nextStartTime == 0.0 && chunks == [] && audioSources == {} && resources == NoResources
    }

    /** The state after a stop followed by a start with the given outcomes. */
    ghost predicate Restarted(apiKey: string, microphone: Step, connect: Step)
      reads this
    {
      match StartFailure(apiKey, microphone, connect)
      case Some(reason) =>
        Stopped() && error == Some(StartErrorPrefix + reason)
      case None =>
        status == Connecting && error == None
        && transcript == [] && inputTranscription == "" && outputTranscription == ""
        && nextStartTime == 0.0 && chunks == [] && audioSources == {}
        && resources == Resources(Some(RemoteSession(SystemInstruction(targetLanguage))), true, true, true, false, false)
    }

    /** The hook's first render. */
    constructor (targetLanguage: string)
      ensures Valid() && Stopped()
      ensures this.targetLanguage == targetLanguage && error == None && isInitialMount
      ensures stopCalls == 0 && startCalls == 0
    {
      this.targetLanguage := targetLanguage;
      status := Idle;
      error := None;
      transcript := [];
      inputTranscription := "";
      outputTranscription := "";
      nextStartTime := 0.0;
      audioSources := {};
      resources := NoResources;
      isInitialMount := true;
      chunks := [];
      stopCalls := 0;
      startCalls := 0;
    }

    /** Stops every pending source, then empties the set. */
    method StopAudioSources()
      modifies this`audioSources, audioSources
      ensures audioSources == {}
      ensures forall s :: s in old(audioSources) ==> s.stopped
    {
      var sources := audioSources;
      var remaining := sources;
      while remaining != {}
        invariant remaining <= sources
        invariant forall s :: s in sources - remaining ==> s.stopped
        decreases |remaining|
      {
        var s :| s in remaining;
        s.Stop();
        remaining := remaining - {s};
      }
      audioSources := {};
    }

    /** The resource part of `stopSession`: close the remote session (a
        failure to close is only logged), stop the microphone tracks,
        disconnect the capture nodes, close the input context, and, only when
        there is an output context, stop and forget every pending source and
        close that context. Each release is skipped when its reference is null. */
    method ReleaseResources()
      modifies this`resources, this`audioSources, audioSources
      ensures resources == NoResources
      ensures audioSources == if old(resources.outputContext) then {} else old(audioSources)
      ensures forall s :: s in old(audioSources) && old(resources.outputContext) ==> s.stopped
    {
      var r := resources;
      if r.session.Some? {
        r := r.(session := None);
      }
      if r.mediaStream {
        r := r.(mediaStream := false);
      }
      if r.scriptProcessor {
        r := r.(scriptProcessor := false);
      }
      if r.mediaStreamSource {
        r := r.(mediaStreamSource := false);
      }
      if r.inputContext {
        r := r.(inputContext := false);
      }
      if r.outputContext {
        StopAudioSources();
        r := r.(outputContext := false);
      }
      resources := r;
    }

    /** The transcript part of `stopSession`: no lines, empty accumulators. */
    method ClearTranscript()
      modifies this`transcript, this`inputTranscription, this`outputTranscription
      ensures transcript == [] && inputTranscription == "" && outputTranscription == ""
    {
      transcript := [];
      inputTranscription := "";
      outputTranscription := "";
    }

    /** The cursor back to 0, forgetting the chunks scheduled so far. */
    method ResetCursor()
      modifies this`nextStartTime, this`chunks
      ensures nextStartTime == 0.0 && chunks == []
    {
      nextStartTime := 0.0;
      chunks := [];
    }

    /** `stopSession`: status Idle, each resource released if present, then
        transcript, accumulators and cursor reset. The error is kept, and a
        second stop changes nothing. */
    method StopSession()
      requires Valid()
      modifies this`status, this`resources, this`audioSources, this`transcript, this`inputTranscription,
               this`outputTranscription, this`nextStartTime, this`chunks, this`stopCalls, audioSources
      ensures Valid() && Stopped()
      ensures forall s :: s in old(audioSources) ==> s.stopped
      ensures stopCalls == old(stopCalls) + 1
      ensures old(Stopped()) ==> Snapshot() == old(Snapshot())
    {
      stopCalls := stopCalls + 1;
      status := Idle;
      ReleaseResources();
      ClearTranscript();
      ResetCursor();
    }

    /** The `catch` of `startSession`: record the error, status Error, then
        stop, which writes Idle last and keeps the error. */
    method FailStart(reason: string)
      requires Valid()
      modifies this`status, this`error, this`resources, this`audioSources, this`transcript, this`inputTranscription,
               this`outputTranscription, this`nextStartTime, this`chunks, this`stopCalls, audioSources
      ensures Valid() && Stopped() && error == Some(StartErrorPrefix + reason)
      ensures forall s :: s in old(audioSources) ==> s.stopped
      ensures stopCalls == old(stopCalls) + 1
    {
      error := Some(StartErrorPrefix + reason);
      status := Error;
      StopSession();
    }

    /** The `try` block of `startSession`: check the key, acquire the
        microphone, create both audio contexts and connect with an instruction
        naming the target language, stopping at the first step that fails. */
    method AcquireResources(apiKey: string, microphone: Step, connect: Step) returns (failure: Option<string>)
      requires Valid()
      modifies this`resources
      ensures Valid()
      ensures failure == StartFailure(apiKey, microphone, connect)
      ensures failure.None? ==>
        resources == old(resources).(session := Some(RemoteSession(SystemInstruction(targetLanguage))),
                                     mediaStream := true, inputContext := true, outputContext := true)
    {
      failure := None;
      if apiKey == "" {
        failure := Some(MissingKeyReason);
      } else if microphone.Fails? {
        failure := Some(microphone.reason);
      } else {
        var r := resources.(mediaStream := true, inputContext := true, outputContext := true);
        if connect.Fails? {
          failure := Some(connect.reason);
        } else {
          r := r.(session := Some(RemoteSession(SystemInstruction(targetLanguage))));
        }
        resources := r;
      }
    }

    /** `startSession`: clear the error and go to Connecting, then run the
        start-up steps; a failing step records its reason and stops
        everything. */
    method StartSession(apiKey: string, microphone: Step, connect: Step)
      requires Valid()
      modifies this`status, this`error, this`resources, this`audioSources, this`transcript, this`inputTranscription,
               this`outputTranscription, this`nextStartTime, this`chunks, this`stopCalls, this`startCalls, audioSources
      ensures Valid()
      ensures startCalls == old(startCalls) + 1
      ensures StartFailure(apiKey, microphone, connect).None? ==>
        status == Connecting && error == None && stopCalls == old(stopCalls)
        && resources == old(resources).(session := Some(RemoteSession(SystemInstruction(targetLanguage))),
                                        mediaStream := true, inputContext := true, outputContext := true)
        && unchanged(this`transcript, this`inputTranscription, this`outputTranscription,
                     this`nextStartTime, this`chunks, this`audioSources)
      ensures StartFailure(apiKey, microphone, connect).Some? ==>
        Stopped() && error == Some(StartErrorPrefix + StartFailure(apiKey, microphone, connect).value)
        && stopCalls == old(stopCalls) + 1
        && forall s :: s in old(audioSources) ==> s.stopped
    {
      startCalls := startCalls + 1;
      error := None;
      status := Connecting;
      var failure := AcquireResources(apiKey, microphone, connect);
      if failure.Some? {
        FailStart(failure.value);
      }
    }

    /** `onopen`: status Listening; the capture graph is wired when there is an input context. */
    method OnOpen()
      requires Valid()
      modifies this`status, this`resources
      ensures Valid()
      ensures status == Listening
      ensures resources == if old(resources.inputContext)
                           then old(resources).(mediaStreamSource := true, scriptProcessor := true)
                           else old(resources)
    {
      status := Listening;
      if !resources.inputContext {
        return;
      }
      resources := resources.(mediaStreamSource := true, scriptProcessor := true);
    }

    /** A partial transcription of the user's speech. */
    method OnInputTranscription(text: string)
      requires Valid()
      modifies this`transcript, this`inputTranscription
      ensures Valid()
      ensures CurrentTurn() == ReceiveInput(old(CurrentTurn()), text)
    {
      ReceiveInputKeepsConsistent(CurrentTurn(), text);
      inputTranscription := inputTranscription + text;
      transcript := UpdatePartial(transcript, LocalSpeaker, inputTranscription);
    }

    /** A partial transcription of the translated speech. */
    method OnOutputTranscription(text: string)
      requires Valid()
      modifies this`status, this`transcript, this`outputTranscription
      ensures Valid()
      ensures CurrentTurn() == ReceiveOutput(old(CurrentTurn()), text, RemoteSpeaker(targetLanguage))
    {
      ReceiveOutputKeepsConsistent(CurrentTurn(), text, RemoteSpeaker(targetLanguage));
      status := Speaking;
      outputTranscription := outputTranscription + text;
      transcript := UpdatePartial(transcript, RemoteSpeaker(targetLanguage), outputTranscription);
    }

    /** Inline audio: when it is non-empty and there is an output context, the
        decoded chunk starts at `max(cursor, now)`, the cursor moves to its
        end and the new source joins the pending ones, after all of which it
        starts. */
    method OnAudioData(data: string, now: Seconds, decode: string -> Seconds) returns (source: BufferSource?)
      requires Valid()
      modifies this`nextStartTime, this`audioSources, this`chunks
      ensures Valid()
      ensures source != null <==> data != "" && resources.outputContext
      ensures source == null ==> unchanged(this)
      ensures source != null ==>
        fresh(source) && !source.stopped
        && source.start == StartTime(old(nextStartTime), now) && source.duration == decode(data)
        && nextStartTime == source.End()
        && audioSources == old(audioSources) + {source}
        && (forall s :: s in old(audioSources) ==> s.End() <= source.start)
        && chunks == old(chunks) + [Arrival(now, decode(data))]
        && Schedule(0.0, chunks) == Schedule(0.0, old(chunks)) + [Window(source.start, source.End())]
    {
      source := null;
      if data != "" && resources.outputContext {
        var start := StartTime(nextStartTime, now);
        var duration := decode(data);
        source := new BufferSource(start, duration);
        ScheduleAppend(0.0, chunks, Arrival(now, duration));
        assert forall s :: s in audioSources ==> s.End() <= start;
        nextStartTime := start + duration;
        chunks := chunks + [Arrival(now, duration)];
        audioSources := audioSources + {source};
      }
    }

    /** `ended` of a source: it leaves the pending set. */
    method OnSourceEnded(source: BufferSource)
      requires Valid()
      modifies this`audioSources
      ensures Valid()
      ensures audioSources == old(audioSources) - {source}
    {
      audioSources := audioSources - {source};
    }

    /** An interruption: every pending source stopped, the set emptied, the cursor back to 0. */
    method OnInterrupted()
      requires Valid()
      modifies this`nextStartTime, this`audioSources, this`chunks, audioSources
      ensures Valid()
      ensures audioSources == {} && nextStartTime == 0.0 && chunks == []
      ensures forall s :: s in old(audioSources) ==> s.stopped
    {
      StopAudioSources();
      ResetCursor();
    }

    /** Turn completion: every line final, both accumulators empty, status Listening. */
    method OnTurnComplete()
      requires Valid()
      modifies this`status, this`transcript, this`inputTranscription, this`outputTranscription
      ensures Valid()
      ensures CurrentTurn() == CompleteTurn(old(CurrentTurn()))
    {
      transcript := MarkAllFinal(transcript);
      inputTranscription := "";
      outputTranscription := "";
      status := Listening;
    }

    /** The transcription part of a message: the input side, then the output side. */
    method OnTranscriptions(input: Option<string>, output: Option<string>)
      requires Valid()
      modifies this`status, this`transcript, this`inputTranscription, this`outputTranscription
      ensures Valid()
      ensures CurrentTurn() == ApplyContent(old(CurrentTurn()), input, output, false, RemoteSpeaker(targetLanguage))
    {
      if input.Some? {
        OnInputTranscription(input.value);
      }
      if output.Some? {
        OnOutputTranscription(output.value);
      }
    }

    /** The playback part of a message: schedule its audio, then honour an
        interruption, so a chunk that arrives with an interruption is
        scheduled and stopped at once. */
    method OnPlayback(audioData: Option<string>, interrupted: bool, now: Seconds, decode: string -> Seconds)
      returns (scheduled: BufferSource?)
      requires Valid()
      modifies this`nextStartTime, this`audioSources, this`chunks, audioSources
      ensures Valid()
      ensures var audio := audioData.Some? && audioData.value != "" && resources.outputContext;
        (scheduled != null <==> audio)
        && (audio ==> fresh(scheduled)
                      && scheduled.start == StartTime(old(nextStartTime), now)
                      && scheduled.duration == decode(audioData.value))
        && (interrupted ==>
              audioSources == {} && nextStartTime == 0.0 && chunks == []
              && (forall s :: s in old(audioSources) ==> s.stopped)
              && (audio ==> scheduled.stopped))
        && (!interrupted ==>
              audioSources == old(audioSources) + (if audio then {scheduled} else {})
              && nextStartTime == (if audio then scheduled.End() else old(nextStartTime))
              && (audio ==> !scheduled.stopped))
    {
      scheduled := null;
      if audioData.Some? {
        scheduled := OnAudioData(audioData.value, now, decode);
      }
      if interrupted {
        OnInterrupted();
      }
    }

    /** The server content of a message: the handlers run in a fixed order
        (input transcription, output transcription, audio, interruption, turn
        completion). */
    method OnServerContent(content: ServerContent, now: Seconds, decode: string -> Seconds)
      returns (scheduled: BufferSource?)
      requires Valid()
      modifies this`status, this`transcript, this`inputTranscription, this`outputTranscription,
               this`nextStartTime, this`audioSources, this`chunks, audioSources
      ensures Valid()
      ensures CurrentTurn() == ApplyContent(old(CurrentTurn()), content.inputTranscription,
                                            content.outputTranscription, content.turnComplete,
                                            RemoteSpeaker(targetLanguage))
      ensures var audio := content.audioData.Some? && content.audioData.value != "" && resources.outputContext;
        (scheduled != null <==> audio)
        && (audio ==> fresh(scheduled)
                      && scheduled.start == StartTime(old(nextStartTime), now)
                      && scheduled.duration == decode(content.audioData.value))
        && (content.interrupted ==>
              audioSources == {} && nextStartTime == 0.0 && chunks == []
              && (forall s :: s in old(audioSources) ==> s.stopped)
              && (audio ==> scheduled.stopped))
        && (!content.interrupted ==>
              audioSources == old(audioSources) + (if audio then {scheduled} else {})
              && nextStartTime == (if audio then scheduled.End() else old(nextStartTime))
              && (audio ==> !scheduled.stopped))
    {
      OnTranscriptions(content.inputTranscription, content.outputTranscription);
      scheduled := OnPlayback(content.audioData, content.interrupted, now, decode);
      if content.turnComplete {
        OnTurnComplete();
      }
    }

    /** `onmessage`: a message without server content changes nothing. */
    method OnMessage(message: LiveServerMessage, now: Seconds, decode: string -> Seconds)
      returns (scheduled: BufferSource?)
      requires Valid()
      modifies this`status, this`transcript, this`inputTranscription, this`outputTranscription,
               this`nextStartTime, this`audioSources, this`chunks, audioSources
      ensures Valid()
      ensures message.serverContent.None? ==> scheduled == null && unchanged(this)
      ensures message.serverContent.Some? ==>
        CurrentTurn() == ApplyContent(old(CurrentTurn()), message.serverContent.value.inputTranscription,
                                      message.serverContent.value.outputTranscription,
                                      message.serverContent.value.turnComplete, RemoteSpeaker(targetLanguage))
        && (scheduled != null <==> message.serverContent.value.audioData.Some?
                                   && message.serverContent.value.audioData.value != "" && resources.outputContext)
    {
      scheduled := null;
      if message.serverContent.Some? {
        scheduled := OnServerContent(message.serverContent.value, now, decode);
      }
    }

    /** `onerror`: record the error, status Error, then stop, which writes
        Idle last and keeps the error. */
    method OnError(message: string)
      requires Valid()
      modifies this`status, this`error, this`resources, this`audioSources, this`transcript, this`inputTranscription,
               this`outputTranscription, this`nextStartTime, this`chunks, this`stopCalls, audioSources
      ensures Valid() && Stopped()
      ensures status == Idle && error == Some(RuntimeErrorPrefix + message)
      ensures forall s :: s in old(audioSources) ==> s.stopped
      ensures stopCalls == old(stopCalls) + 1
    {
      error := Some(RuntimeErrorPrefix + message);
      status := Error;
      StopSession();
    }

    /** `onclose`: status Idle unless it already is; nothing is released. */
    method OnClose()
      requires Valid()
      modifies this`status
      ensures Valid()
      ensures status == Idle
    {
      if status != Idle {
        status := Idle;
      }
    }

    /** The effect run on the first render and whenever the target language
        changes: skipped on the first render; afterwards an active session is
        stopped and started again, and an inactive one is left alone. */
    method RunLanguageEffect(apiKey: string, microphone: Step, connect: Step)
      requires Valid()
      modifies this`isInitialMount, this`status, this`error, this`resources, this`audioSources, this`transcript,
               this`inputTranscription, this`outputTranscription, this`nextStartTime, this`chunks,
               this`stopCalls, this`startCalls, audioSources
      ensures Valid()
      ensures !isInitialMount
      ensures old(isInitialMount) || !IsActive(old(status)) ==> unchanged(this`status, this`error, this`resources,
        this`audioSources, this`transcript, this`inputTranscription, this`outputTranscription,
        this`nextStartTime, this`chunks, this`stopCalls, this`startCalls)
      ensures !old(isInitialMount) && IsActive(old(status)) ==>
        Restarted(apiKey, microphone, connect)
        && (forall s :: s in old(audioSources) ==> s.stopped)
        && startCalls == old(startCalls) + 1
        && stopCalls == old(stopCalls) + (if StartFailure(apiKey, microphone, connect).None? then 1 else 2)
    {
      if isInitialMount {
        isInitialMount := false;
        return;
      }
      if IsActive(status) {
        StopSession();
        StartSession(apiKey, microphone, connect);
      }
    }

    /** The mount: React commits the first render and runs the effect once,
        which only clears the first-render flag. The start-up outcomes are
        those the effect would use, and are not consulted on this run. Every
        other event happens after the mount. */
    method Mount(apiKey: string, microphone: Step, connect: Step)
      requires Valid() && isInitialMount
      modifies this`isInitialMount, this`status, this`error, this`resources, this`audioSources, this`transcript,
               this`inputTranscription, this`outputTranscription, this`nextStartTime, this`chunks,
               this`stopCalls, this`startCalls, audioSources
      ensures Valid() && !isInitialMount
      ensures unchanged(this`status, this`error, this`resources, this`audioSources, this`transcript,
                        this`inputTranscription, this`outputTranscription, this`nextStartTime, this`chunks,
                        this`stopCalls, this`startCalls)
    {
      RunLanguageEffect(apiKey, microphone, connect);
    }

    /** A new target language from the selector, after the mount: the hook
        re-renders and runs the effect only when the language actually
        differs, which restarts an active session. */
    method ChangeTargetLanguage(language: string, apiKey: string, microphone: Step, connect: Step)
      requires Valid() && !isInitialMount
      modifies this`targetLanguage, this`isInitialMount, this`status, this`error, this`resources,
               this`audioSources, this`transcript, this`inputTranscription, this`outputTranscription,
               this`nextStartTime, this`chunks, this`stopCalls, this`startCalls, audioSources
      ensures Valid() && !isInitialMount
      ensures targetLanguage == language
      ensures language == old(targetLanguage) ==> unchanged(this)
      ensures language != old(targetLanguage) && !IsActive(old(status)) ==>
        unchanged(this`status, this`error, this`resources, this`audioSources, this`transcript,
                  this`inputTranscription, this`outputTranscription, this`nextStartTime, this`chunks,
                  this`stopCalls, this`startCalls)
      ensures language != old(targetLanguage) && IsActive(old(status)) ==>
        Restarted(apiKey, microphone, connect)
        && resources.session == (if StartFailure(apiKey, microphone, connect).None?
                                 then Some(RemoteSession(SystemInstruction(language))) else None)
        && (forall s :: s in old(audioSources) ==> s.stopped)
        && startCalls == old(startCalls) + 1
        && stopCalls == old(stopCalls) + (if StartFailure(apiKey, microphone, connect).None? then 1 else 2)
    {
      if language != targetLanguage {
        targetLanguage := language;
        RunLanguageEffect(apiKey, microphone, connect);
      }
    }
  }
}
