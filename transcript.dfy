/** The transcript updaters of the live-interpretation hook: how partial
    transcriptions and turn completion rewrite the list of transcript lines and
    the two per-speaker accumulators. */
module Transcript {
  import opened Types

  /** True when the transcript ends with a line of `speaker` that is still open. */
  function OpenTurn(t: seq<TranscriptMessage>, speaker: string): (open: bool)
    ensures open ==> |t| > 0 && t[|t| - 1].speaker == speaker
    ensures (forall i :: 0 <= i < |t| ==> t[i].isFinal) ==> !open
  {
    |t| > 0 && t[|t| - 1].speaker == speaker && !t[|t| - 1].isFinal
  }

  /** The updater run on a partial transcription: the accumulated text of the
      turn either rewrites the open last line of that speaker or opens a new line. */
  function UpdatePartial(prev: seq<TranscriptMessage>, speaker: string, accumulated: string)
    : (next: seq<TranscriptMessage>)
    ensures |next| > 0 && next[|next| - 1] == TranscriptMessage(speaker, accumulated, false)
    ensures |next| == if OpenTurn(prev, speaker) then |prev| else |prev| + 1
    ensures forall i :: 0 <= i < |prev| - 1 ==> next[i] == prev[i]
    ensures forall i :: 0 <= i < |prev| && prev[i].isFinal ==> next[i] == prev[i]
    ensures !OpenTurn(prev, speaker) ==> forall i :: 0 <= i < |prev| ==> next[i] == prev[i]
  {
    if OpenTurn(prev, speaker) then
      prev[|prev| - 1 := prev[|prev| - 1].(text := accumulated)]
    else
      prev + [TranscriptMessage(speaker, accumulated, false)]
  }

  /** The updater run on turn completion: every line becomes final. */
  function MarkAllFinal(prev: seq<TranscriptMessage>): (next: seq<TranscriptMessage>)
    ensures |next| == |prev|
    ensures forall i :: 0 <= i < |prev| ==>
      next[i].isFinal && next[i].speaker == prev[i].speaker && next[i].text == prev[i].text
  {
    seq(|prev|, i requires 0 <= i < |prev| => prev[i].(isFinal := true))
  }

  /** Final lines come first: after an open line, every later line is open too. */
  ghost predicate FinalPrefix(t: seq<TranscriptMessage>) {
    forall i, j :: 0 <= i < j < |t| && !t[i].isFinal ==> !t[j].isFinal
  }

  /** The transcript state of the hook: status, lines and the accumulated text
      of the current turn on each side. */
  datatype Turn = Turn(status: AppStatus, transcript: seq<TranscriptMessage>, inputText: string, outputText: string)

  /** A partial input transcription: append to the input accumulator, then update the lines. */
  function ReceiveInput(t: Turn, text: string): (r: Turn)
    ensures r.inputText == t.inputText + text && r.status == t.status && r.outputText == t.outputText
    ensures |t.transcript| <= |r.transcript| <= |t.transcript| + 1
    ensures 0 < |r.transcript| && r.transcript[|r.transcript| - 1] == TranscriptMessage(LocalSpeaker, r.inputText, false)
  {
    var accumulated := t.inputText + text;
    t.(inputText := accumulated, transcript := UpdatePartial(t.transcript, LocalSpeaker, accumulated))
  }

  /** A partial output transcription: status Speaking, append to the output
      accumulator, then update the lines of the remote speaker. */
  function ReceiveOutput(t: Turn, text: string, remote: string): (r: Turn)
    ensures r.outputText == t.outputText + text && r.status == Speaking && r.inputText == t.inputText
    ensures |t.transcript| <= |r.transcript| <= |t.transcript| + 1
    ensures 0 < |r.transcript| && r.transcript[|r.transcript| - 1] == TranscriptMessage(remote, r.outputText, false)
  {
    var accumulated := t.outputText + text;
    t.(status := Speaking, outputText := accumulated,
       transcript := UpdatePartial(t.transcript, remote, accumulated))
  }

  /** Turn completion: every line final, both accumulators empty, status Listening. */
  function CompleteTurn(t: Turn): (r: Turn)
    ensures r.status == Listening && r.inputText == "" && r.outputText == ""
    ensures |r.transcript| == |t.transcript| && forall i :: 0 <= i < |r.transcript| ==> r.transcript[i].isFinal
  {
    Turn(Listening, MarkAllFinal(t.transcript), "", "")
  }

  /** The transcript part of one server message, handlers in source order:
      input transcription, output transcription, then turn completion. */
  function ApplyContent(t: Turn, input: Option<string>, output: Option<string>, turnComplete: bool, remote: string)
    : (r: Turn)
    ensures |t.transcript| <= |r.transcript| <= |t.transcript| + 2
    ensures turnComplete ==>
      r.status == Listening && r.inputText == "" && r.outputText == ""
      && forall i :: 0 <= i < |r.transcript| ==> r.transcript[i].isFinal
    ensures !turnComplete ==> r.status == if output.Some? then Speaking else t.status
    ensures input.None? && output.None? && !turnComplete ==> r == t
  {
    var afterInput := if input.Some? then ReceiveInput(t, input.value) else t;
    var afterOutput := if output.Some? then ReceiveOutput(afterInput, output.value, remote) else afterInput;
    if turnComplete then CompleteTurn(afterOutput) else afterOutput
  }

  /** The invariant the hook keeps: final lines form a prefix, and an open last
      line shows exactly the accumulated text of its side of the conversation. */
  ghost predicate Consistent(t: Turn) {
    FinalPrefix(t.transcript)
    && (|t.transcript| > 0 && !t.transcript[|t.transcript| - 1].isFinal ==>
          t.transcript[|t.transcript| - 1].text
          == if t.transcript[|t.transcript| - 1].speaker == LocalSpeaker then t.inputText else t.outputText)
  }

  lemma UpdatePartialKeepsFinalPrefix(prev: seq<TranscriptMessage>, speaker: string, accumulated: string)
    requires FinalPrefix(prev)
    ensures FinalPrefix(UpdatePartial(prev, speaker, accumulated))
  {
  }

  /** A partial input transcription: the accumulator grows by the text; an open
      "You" line only changes its text, otherwise exactly one open "You" line
      holding the accumulator is appended; status and output side unchanged. */
  lemma InputTranscription(t: Turn, text: string)
    ensures var r := ReceiveInput(t, text);
      r.inputText == t.inputText + text
      && r.status == t.status && r.outputText == t.outputText
      && (OpenTurn(t.transcript, LocalSpeaker) ==>
            |r.transcript| == |t.transcript|
            && r.transcript[..|t.transcript| - 1] == t.transcript[..|t.transcript| - 1]
            && r.transcript[|t.transcript| - 1] == t.transcript[|t.transcript| - 1].(text := r.inputText))
      && (!OpenTurn(t.transcript, LocalSpeaker) ==>
            r.transcript == t.transcript + [TranscriptMessage(LocalSpeaker, r.inputText, false)])
  {
  }

  /** The same rule on the output side, for the remote speaker, and the status becomes Speaking. */
  lemma OutputTranscription(t: Turn, text: string, remote: string)
    ensures var r := ReceiveOutput(t, text, remote);
      r.outputText == t.outputText + text
      && r.status == Speaking && r.inputText == t.inputText
      && (OpenTurn(t.transcript, remote) ==>
            |r.transcript| == |t.transcript|
            && r.transcript[..|t.transcript| - 1] == t.transcript[..|t.transcript| - 1]
            && r.transcript[|t.transcript| - 1] == t.transcript[|t.transcript| - 1].(text := r.outputText))
      && (!OpenTurn(t.transcript, remote) ==>
            r.transcript == t.transcript + [TranscriptMessage(remote, r.outputText, false)])
  {
  }

  /** A partial event is local: no line but the last changes, no final line
      changes at all (so none is reopened), and at most one line is added. */
  lemma PartialIsLocal(prev: seq<TranscriptMessage>, speaker: string, accumulated: string)
    ensures var next := UpdatePartial(prev, speaker, accumulated);
      |prev| <= |next| <= |prev| + 1
      && (|prev| > 0 ==> next[..|prev| - 1] == prev[..|prev| - 1])
      && (forall i :: 0 <= i < |prev| && prev[i].isFinal ==> next[i].isFinal && next[i] == prev[i])
  {
  }

  /** Turn completion keeps every speaker and text and the length, makes every
      line final, empties both accumulators and returns to Listening. */
  lemma TurnCompletion(t: Turn)
    ensures var r := CompleteTurn(t);
      |r.transcript| == |t.transcript|
      && (forall i :: 0 <= i < |t.transcript| ==> r.transcript[i] == t.transcript[i].(isFinal := true))
      && r.inputText == "" && r.outputText == "" && r.status == Listening
  {
  }

  /** Completing a turn twice is the same as completing it once. */
  lemma CompleteTurnIdempotent(t: Turn)
    ensures CompleteTurn(CompleteTurn(t)) == CompleteTurn(t)
  {
  }

  /** After a completed turn, the next partial event of either speaker opens a new line. */
  lemma PartialAfterCompletionOpensLine(t: Turn, speaker: string, accumulated: string)
    ensures var done := CompleteTurn(t).transcript;
      UpdatePartial(done, speaker, accumulated) == done + [TranscriptMessage(speaker, accumulated, false)]
  {
  }

  lemma ReceiveInputKeepsConsistent(t: Turn, text: string)
    requires Consistent(t)
    ensures Consistent(ReceiveInput(t, text))
  {
  }

  lemma ReceiveOutputKeepsConsistent(t: Turn, text: string, remote: string)
    requires Consistent(t) && remote != LocalSpeaker
    ensures Consistent(ReceiveOutput(t, text, remote))
  {
  }

  lemma CompleteTurnIsConsistent(t: Turn)
    ensures Consistent(CompleteTurn(t))
  {
  }

  /** Every server message keeps the transcript invariant. */
  lemma ApplyContentKeepsConsistent(t: Turn, input: Option<string>, output: Option<string>, turnComplete: bool, remote: string)
    requires Consistent(t) && remote != LocalSpeaker
    ensures Consistent(ApplyContent(t, input, output, turnComplete, remote))
  {
    var afterInput := if input.Some? then ReceiveInput(t, input.value) else t;
    if input.Some? { ReceiveInputKeepsConsistent(t, input.value); }
    if output.Some? { ReceiveOutputKeepsConsistent(afterInput, output.value, remote); }
  }

  /** As written, a new "You" line opened after a remote line within the same
      turn repeats the whole turn's input so far, since the accumulator is not
      reset when a line is pushed. */
  lemma InterleavedTurnRepeatsInput(remote: string)
    requires remote != LocalSpeaker
    ensures var start := Turn(Listening, [], "", "");
      var t := ReceiveInput(ReceiveOutput(ReceiveInput(start, "Hello "), "Hallo ", remote), "world");
      t.transcript == [TranscriptMessage(LocalSpeaker, "Hello ", false),
                       TranscriptMessage(remote, "Hallo ", false),
                       TranscriptMessage(LocalSpeaker, "Hello world", false)]
  {
    assert "" + "Hello " == "Hello " && "" + "Hallo " == "Hallo ";
    var t1 := ReceiveInput(Turn(Listening, [], "", ""), "Hello ");
    assert t1.transcript == [TranscriptMessage(LocalSpeaker, "Hello ", false)];
    var t2 := ReceiveOutput(t1, "Hallo ", remote);
    assert !OpenTurn(t1.transcript, remote);
    assert t2.transcript == t1.transcript + [TranscriptMessage(remote, "Hallo ", false)];
    assert !OpenTurn(t2.transcript, LocalSpeaker);
    assert "Hello " + "world" == "Hello world";
  }
}
