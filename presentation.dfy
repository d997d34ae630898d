/** The presenter view: the transcript filtered down to the finished lines of
    the remote interpreter. */
module Presentation {
  import opened Types
  import opened Transcript

  /** The filter's condition: a final line not spoken by the user. */
  function Presented(m: TranscriptMessage): (shown: bool)
    ensures m.speaker == LocalSpeaker || !m.isFinal ==> !shown
    ensures forall language :: m.speaker == RemoteSpeaker(language) && m.isFinal ==> shown
  {
    m.speaker != LocalSpeaker && m.isFinal
  }

  /** The lines the presenter view shows, in transcript order. */
  function FilteredTranscript(t: seq<TranscriptMessage>): (view: seq<TranscriptMessage>)
    ensures |view| <= |t|
    ensures forall m :: m in view ==> m in t && m.speaker != LocalSpeaker
    ensures forall m :: m in view ==> m.isFinal
  {
    if t == [] then []
    else
      var last := t[|t| - 1];
      FilteredTranscript(t[..|t| - 1]) + (if Presented(last) then [last] else [])
  }

  /** The lines not spoken by the user, final or not. */
  function RemoteLines(t: seq<TranscriptMessage>): (lines: seq<TranscriptMessage>)
    ensures |lines| <= |t|
    ensures forall m :: m in lines ==> m in t && m.speaker != LocalSpeaker
  {
    if t == [] then []
    else
      var last := t[|t| - 1];
      RemoteLines(t[..|t| - 1]) + (if last.speaker != LocalSpeaker then [last] else [])
  }

  /** The view is an order-preserving selection from the transcript: `indices`
      is strictly increasing, picks the view's lines one by one, and holds
      exactly the positions of the final non-"You" lines (so the view is complete). */
  lemma {:induction false} ViewSelectsPresentedLines(t: seq<TranscriptMessage>) returns (indices: seq<nat>)
    ensures |indices| == |FilteredTranscript(t)|
    ensures forall k :: 0 <= k < |indices| ==> indices[k] < |t| && FilteredTranscript(t)[k] == t[indices[k]]
    ensures forall k, l :: 0 <= k < l < |indices| ==> indices[k] < indices[l]
    ensures forall i :: 0 <= i < |t| ==> (Presented(t[i]) <==> i in indices)
  {
    if t == [] {
      indices := [];
    } else {
      var n := |t| - 1;
      var front := t[..n];
      var before := ViewSelectsPresentedLines(front);
      var view, viewFront := FilteredTranscript(t), FilteredTranscript(front);
      var tail := if Presented(t[n]) then [t[n]] else [];
      assert view == viewFront + tail;
      indices := before + if Presented(t[n]) then [n] else [];
      forall k | 0 <= k < |indices|
        ensures indices[k] < |t| && view[k] == t[indices[k]]
      {
        if k < |before| {
          assert view[k] == viewFront[k];
          assert t[before[k]] == front[before[k]];
        }
      }
      forall k, l | 0 <= k < l < |indices|
        ensures indices[k] < indices[l]
      {
        if l == |before| {
          assert before[k] < n;
        }
      }
      forall i | 0 <= i < |t|
        ensures Presented(t[i]) <==> i in indices
      {
        if i < n {
          assert t[i] == front[i];
          assert i in indices <==> i in before;
        } else {
          assert n !in before by {
            forall k | 0 <= k < |before| ensures before[k] != n { }
          }
        }
      }
    }
  }

  lemma {:induction false} FilterAppend(a: seq<TranscriptMessage>, b: seq<TranscriptMessage>)
    ensures FilteredTranscript(a + b) == FilteredTranscript(a) + FilteredTranscript(b)
    decreases |b|
  {
    if b == [] {
      assert a + b == a;
    } else {
      var n := |b| - 1;
      assert (a + b)[..|a + b| - 1] == a + b[..n];
      assert (a + b)[|a + b| - 1] == b[n];
      FilterAppend(a, b[..n]);
    }
  }

  /** A partial transcription never changes what the presenter view shows: it
      only touches lines that are not final. */
  lemma PartialLeavesViewUnchanged(prev: seq<TranscriptMessage>, speaker: string, accumulated: string)
    ensures FilteredTranscript(UpdatePartial(prev, speaker, accumulated)) == FilteredTranscript(prev)
  {
  }

  /** Once every line is final, the view is exactly the lines not spoken by the user. */
  lemma {:induction false} ViewOfFinishedTranscript(t: seq<TranscriptMessage>)
    requires forall i :: 0 <= i < |t| ==> t[i].isFinal
    ensures FilteredTranscript(t) == RemoteLines(t)
  {
    if t != [] {
      ViewOfFinishedTranscript(t[..|t| - 1]);
    }
  }

  /** After turn completion the view holds exactly the non-"You" lines of the
      transcript as it was, in order, each now final. */
  lemma ViewAfterTurnComplete(t: Turn)
    ensures FilteredTranscript(CompleteTurn(t).transcript) == MarkAllFinal(RemoteLines(t.transcript))
  {
    ViewOfFinishedTranscript(CompleteTurn(t).transcript);
    RemoteLinesOfFinished(t.transcript);
  }

  /** Marking lines final commutes with selecting the lines not spoken by the user. */
  lemma {:induction false} RemoteLinesOfFinished(t: seq<TranscriptMessage>)
    ensures RemoteLines(MarkAllFinal(t)) == MarkAllFinal(RemoteLines(t))
  {
    if t != [] {
      var n := |t| - 1;
      var done := MarkAllFinal(t);
      var last := t[n].(isFinal := true);
      assert done[n] == last;
      assert done[..n] == MarkAllFinal(t[..n]);
      RemoteLinesOfFinished(t[..n]);
      var tail := if t[n].speaker != LocalSpeaker then [t[n]] else [];
      assert MarkAllFinal(tail) == if last.speaker != LocalSpeaker then [last] else [];
      MarkAllFinalAppend(RemoteLines(t[..n]), tail);
      calc {
        RemoteLines(done);
        RemoteLines(MarkAllFinal(t[..n])) + MarkAllFinal(tail);
        MarkAllFinal(RemoteLines(t[..n])) + MarkAllFinal(tail);
        MarkAllFinal(RemoteLines(t[..n]) + tail);
        MarkAllFinal(RemoteLines(t));
      }
    }
  }

  lemma MarkAllFinalAppend(a: seq<TranscriptMessage>, b: seq<TranscriptMessage>)
    ensures MarkAllFinal(a + b) == MarkAllFinal(a) + MarkAllFinal(b)
  {
  }
}
