/** Entities shared by the live-interpretation hook and the presenter view. */
module Types {

  /** A value that may be absent (a `null` or `undefined` field of a message). */
  datatype Option<T> = None | Some(value: T)

  /** Connection status shown by the console. */
  datatype AppStatus = Idle | Connecting | Listening | Speaking | Error

  /** One line of the transcript. The last line of a speaker's turn is rewritten
      while it is not final; completing a turn makes every line final. */
  datatype TranscriptMessage = TranscriptMessage(speaker: string, text: string, isFinal: bool)

  /** Speaker name of the user's own (input) speech. */
  const LocalSpeaker: string := "You"

  /** Speaker name of the remote interpreter speaking `targetLanguage`. */
  function RemoteSpeaker(targetLanguage: string): (name: string)
    ensures name != LocalSpeaker
  {
    "Gemini (" + targetLanguage + ")"
  }

  /** The remote speaker's name identifies the target language. */
  lemma RemoteSpeakerInjective(a: string, b: string)
    requires RemoteSpeaker(a) == RemoteSpeaker(b)
    ensures a == b
  {
    assert RemoteSpeaker(a)[8..8 + |a|] == a;
    assert RemoteSpeaker(b)[8..8 + |b|] == b;
  }

  /** A session is active in every status except Idle and Error. */
  function IsActive(status: AppStatus): (active: bool)
    ensures active <==> status == Connecting || status == Listening || status == Speaking
  {
    status != Idle && status != Error
  }
}
