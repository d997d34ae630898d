/** Gapless playback of translated audio: a cursor ("next start time") that
    each chunk starts at, or at the clock if the cursor lies in the past, and
    that then advances by the chunk's duration. */
module Playback {

  /** A point in time or a duration on the output audio clock. */
  type Seconds = r: real | 0.0 <= r

  /** `Math.max` of the cursor and the clock: when the next chunk starts. */
  function StartTime(cursor: Seconds, now: Seconds): (start: Seconds)
    ensures cursor <= start && now <= start
    ensures start == cursor || start == now
  {
    if cursor < now then now else cursor
  }

  /** A decoded chunk: the clock when it was scheduled and its buffer's duration. */
  datatype Arrival = Arrival(now: Seconds, duration: Seconds)

  /** The interval during which a scheduled chunk plays. */
  datatype Window = Window(start: Seconds, end: Seconds)

  /** The cursor after scheduling `chunks` in order, starting from `cursor`. */
  function CursorAfter(cursor: Seconds, chunks: seq<Arrival>): (c: Seconds)
    ensures cursor <= c
    decreases |chunks|
  {
    if chunks == [] then cursor
    else CursorAfter(StartTime(cursor, chunks[0].now) + chunks[0].duration, chunks[1..])
  }

  /** The playback windows of `chunks` scheduled in order, starting from `cursor`. */
  function Schedule(cursor: Seconds, chunks: seq<Arrival>): (windows: seq<Window>)
    ensures |windows| == |chunks|
    decreases |chunks|
  {
    if chunks == [] then []
    else
      var start := StartTime(cursor, chunks[0].now);
      [Window(start, start + chunks[0].duration)] + Schedule(start + chunks[0].duration, chunks[1..])
  }

  /** The summed durations of the chunks. */
  function TotalDuration(chunks: seq<Arrival>): Seconds
    decreases |chunks|
  {
    if chunks == [] then 0.0 else chunks[0].duration + TotalDuration(chunks[1..])
  }

  /** Scheduling one more chunk: it starts at `max(cursor, now)` and moves the cursor to its end. */
  lemma {:induction false} ScheduleAppend(cursor: Seconds, chunks: seq<Arrival>, next: Arrival)
    ensures var start := StartTime(CursorAfter(cursor, chunks), next.now);
      CursorAfter(cursor, chunks + [next]) == start + next.duration
      && Schedule(cursor, chunks + [next]) == Schedule(cursor, chunks) + [Window(start, start + next.duration)]
    decreases |chunks|
  {
    if chunks == [] {
      assert chunks + [next] == [next];
    } else {
      var c := StartTime(cursor, chunks[0].now) + chunks[0].duration;
      assert (chunks + [next])[0] == chunks[0];
      assert (chunks + [next])[1..] == chunks[1..] + [next];
      ScheduleAppend(c, chunks[1..], next);
    }
  }

  /** Chunks scheduled without interruption play one after another: each starts
      no earlier than the cursor and its own arrival, lasts its duration, ends
      before every later one starts and no later than the final cursor. */
  lemma {:induction false} WindowsDoNotOverlap(cursor: Seconds, chunks: seq<Arrival>)
    ensures var w := Schedule(cursor, chunks);
      (forall i :: 0 <= i < |w| ==>
         cursor <= w[i].start && chunks[i].now <= w[i].start
         && w[i].end == w[i].start + chunks[i].duration
         && w[i].end <= CursorAfter(cursor, chunks))
      && (forall i, j :: 0 <= i < j < |w| ==> w[i].end <= w[j].start)
    decreases |chunks|
  {
    if chunks != [] {
      var start := StartTime(cursor, chunks[0].now);
      var c := start + chunks[0].duration;
      WindowsDoNotOverlap(c, chunks[1..]);
      var w := Schedule(cursor, chunks);
      var rest := Schedule(c, chunks[1..]);
      assert w == [Window(start, c)] + rest;
      CursorNeverDecreases(c, chunks[1..]);
      forall i | 0 < i < |w|
        ensures w[i] == rest[i - 1] && chunks[i] == chunks[1..][i - 1]
      {
      }
    }
  }

  /** The cursor never moves back and advances by at least the total duration. */
  lemma {:induction false} CursorNeverDecreases(cursor: Seconds, chunks: seq<Arrival>)
    ensures cursor + TotalDuration(chunks) <= CursorAfter(cursor, chunks)
    decreases |chunks|
  {
    if chunks != [] {
      CursorNeverDecreases(StartTime(cursor, chunks[0].now) + chunks[0].duration, chunks[1..]);
    }
  }

  /** Every chunk arrives before the ones scheduled ahead of it have finished. */
  ghost predicate ArrivesAhead(cursor: Seconds, chunks: seq<Arrival>) {
    forall i :: 0 <= i < |chunks| ==> chunks[i].now <= CursorAfter(cursor, chunks[..i])
  }

  /** Arriving ahead carries over from a sequence of chunks to its tail: the
      first chunk starts at the cursor, and the rest arrive ahead of its end. */
  lemma AheadTail(cursor: Seconds, chunks: seq<Arrival>)
    requires chunks != [] && ArrivesAhead(cursor, chunks)
    ensures StartTime(cursor, chunks[0].now) == cursor
    ensures ArrivesAhead(cursor + chunks[0].duration, chunks[1..])
  {
    assert chunks[..0] == [];
    var c := cursor + chunks[0].duration;
    var tail := chunks[1..];
    forall i | 0 <= i < |tail|
      ensures tail[i].now <= CursorAfter(c, tail[..i])
    {
      assert chunks[..i + 1][0] == chunks[0];
      assert chunks[..i + 1][1..] == tail[..i];
    }
  }

  /** Gapless playback: when every chunk arrives before the ones already
      scheduled have finished, each chunk starts exactly where the previous one
      ends, and the cursor advances by exactly the total duration. */
  lemma {:induction false} GaplessWhenAhead(cursor: Seconds, chunks: seq<Arrival>)
    requires ArrivesAhead(cursor, chunks)
    ensures CursorAfter(cursor, chunks) == cursor + TotalDuration(chunks)
    ensures forall i :: 0 <= i < |chunks| ==>
      Schedule(cursor, chunks)[i].start == cursor + TotalDuration(chunks[..i])
    decreases |chunks|
  {
    if chunks != [] {
      assert chunks[..0] == [];
      var c := cursor + chunks[0].duration;
      var tail := chunks[1..];
      AheadTail(cursor, chunks);
      GaplessWhenAhead(c, tail);
      var windows := Schedule(cursor, chunks);
      assert windows == [Window(cursor, c)] + Schedule(c, tail);
      forall i | 0 < i < |chunks|
        ensures windows[i].start == cursor + TotalDuration(chunks[..i])
      {
        var front := chunks[..i];
        assert front[0] == chunks[0];
        assert front[1..] == tail[..i - 1];
        assert TotalDuration(front) == chunks[0].duration + TotalDuration(tail[..i - 1]);
        assert windows[i] == Schedule(c, tail)[i - 1];
      }
    }
  }

  /** A playback handle created for one decoded chunk. */
  class BufferSource {
    const start: Seconds
    const duration: Seconds
    var stopped: bool

    /** `createBufferSource`, then `start(start)` with a buffer of `duration`. */
    constructor (start: Seconds, duration: Seconds)
      ensures this.start == start && this.duration == duration && !stopped
    {
      this.start := start;
      this.duration := duration;
      stopped := false;
    }

    /** When the chunk finishes playing. */
    function End(): Seconds {
      start + duration
    }

    /** `source.stop()`: halts playback. */
    method Stop()
      modifies this
      ensures stopped
    {
      stopped := true;
    }
  }
}
