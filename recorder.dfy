/**
 * The recorder component. Once camera and microphone are granted it owns a
 * media recorder (modelled as an `Inactive`/`Recording` flag), an array of
 * encoded chunks that grows in arrival order, and a once-a-second timer that
 * raises an elapsed-seconds counter. The counter is 0 from mount and ticks
 * once the stream is granted, not from when a recording starts, and neither start nor stop resets it; whenever it has
 * reached the maximum while recording, the recorder is stopped. Stopping makes
 * the encoder flush a last chunk and then hands the concatenation of all
 * chunks received so far to the page.
 *
 * The pure functions give the effect of each event on a `RecorderView`; the
 * class `Recorder` holds the same state in fields and its methods are proved
 * against these functions.
 */
module RecorderComponent {
  import opened Wrappers

  newtype byte = x: int | 0 <= x < 256

  type Chunk = seq<byte>

  type Blob = seq<byte>

  const DefaultMaxSeconds: nat := 120

  datatype MediaState = Inactive | Recording

  datatype RecorderView = RecorderView(hasRecorder: bool, media: MediaState, elapsed: nat, chunks: seq<Chunk>)

  /** The state after an event, and the blob handed to the page's `onStop`, if the event stopped the recorder. */
  datatype Step = Step(next: RecorderView, delivered: Option<Blob>)

  /** `new Blob(chunks)`: the chunks' bytes, one chunk after the other. */
  function Concat(chunks: seq<Chunk>): (b: Blob)
    ensures chunks == [] ==> b == []
    ensures chunks != [] ==> chunks[0] <= b
    ensures forall i :: 0 <= i < |chunks| ==> |chunks[i]| <= |b|
  {
    if chunks == [] then [] else chunks[0] + Concat(chunks[1..])
  }

  /** A chunk pushed last ends up at the end of the blob. */
  lemma {:induction false} ConcatAppend(chunks: seq<Chunk>, c: Chunk)
    ensures Concat(chunks + [c]) == Concat(chunks) + c
  {
    if chunks != [] {
      assert (chunks + [c])[1..] == chunks[1..] + [c];
      ConcatAppend(chunks[1..], c);
    }
  }

  /** The chunks received first make up the beginning of the blob. */
  lemma {:induction false} ConcatPrefix(chunks: seq<Chunk>, more: seq<Chunk>)
    ensures Concat(chunks) <= Concat(chunks + more)
  {
    if chunks != [] {
      assert (chunks + more)[1..] == chunks[1..] + more;
      ConcatPrefix(chunks[1..], more);
    }
  }

  /** Just mounted: no recorder yet (the media permission is pending) and the counter at 0. */
  function Mounted(): (s: RecorderView)
    ensures !s.hasRecorder && s.media == Inactive && s.elapsed == 0 && s.chunks == []
  {
    RecorderView(false, Inactive, 0, [])
  }

  /**
   * The media stream was granted: a fresh, inactive recorder with an empty
   * chunk array is installed and the timer is running. The counter is kept.
   */
  function Acquired(s: RecorderView): (t: RecorderView)
    ensures t.hasRecorder && t.media == Inactive && t.chunks == []
    ensures t.elapsed == s.elapsed
  {
    RecorderView(true, Inactive, s.elapsed, [])
  }

  /**
   * The Start button is enabled. The two buttons are never enabled together,
   * and once the recorder exists exactly one of them is.
   */
  predicate StartEnabled(s: RecorderView): (b: bool)
    ensures b ==> !StopEnabled(s)
    ensures s.hasRecorder ==> (b || StopEnabled(s))
    ensures !s.hasRecorder ==> !b && !StopEnabled(s)
  {
    s.hasRecorder && s.media != Recording
  }

  /** The Stop button is enabled. */
  predicate StopEnabled(s: RecorderView)
  {
    s.hasRecorder && s.media == Recording
  }

  /** The "Maximum recording time reached" caption is shown. */
  predicate MaxReached(s: RecorderView, maxSeconds: nat)
  {
    s.elapsed >= maxSeconds
  }

  /** Pressing Start: only an enabled button does anything, and the counter is not reset. */
  function AfterStart(s: RecorderView): (t: RecorderView)
    ensures t.elapsed == s.elapsed && t.chunks == s.chunks && t.hasRecorder == s.hasRecorder
    ensures StartEnabled(s) ==> t.media == Recording && StopEnabled(t)
    ensures !StartEnabled(s) ==> t == s
  {
    if StartEnabled(s) then s.(media := Recording) else s
  }

  /** `ondataavailable`: the chunk is pushed at the end. */
  function ChunkReceived(s: RecorderView, c: Chunk): (t: RecorderView)
    ensures t.chunks == s.chunks + [c]
    ensures t.hasRecorder == s.hasRecorder && t.media == s.media && t.elapsed == s.elapsed
  {
    s.(chunks := s.chunks + [c])
  }

  /**
   * `recorder.stop()` on a recording recorder: the encoder flushes `last`,
   * the recorder becomes inactive and `onStop` receives every chunk so far.
   */
  function Stopped(s: RecorderView, last: Chunk): (r: Step)
    requires s.media == Recording
    ensures r.next.media == Inactive && r.next.elapsed == s.elapsed && r.next.hasRecorder == s.hasRecorder
    ensures r.next.chunks == s.chunks + [last]
    ensures r.delivered == Some(Concat(s.chunks) + last)
  {
    ConcatAppend(s.chunks, last);
    Step(s.(media := Inactive, chunks := s.chunks + [last]), Some(Concat(s.chunks + [last])))
  }

  /** Pressing Stop: only an enabled button does anything; the counter is not reset. */
  function AfterStop(s: RecorderView, last: Chunk): (r: Step)
    ensures r.next.elapsed == s.elapsed
    ensures r.delivered.Some? <==> StopEnabled(s)
    ensures StopEnabled(s) ==> r == Stopped(s, last)
    ensures !StopEnabled(s) ==> r.next == s
  {
    if StopEnabled(s) then Stopped(s, last) else Step(s, None)
  }

  /**
   * One timer tick: the counter goes up by one, then the auto-stop rule runs.
   * After a tick the recorder is never recording at or past the maximum.
   */
  function AfterTick(s: RecorderView, maxSeconds: nat, last: Chunk): (r: Step)
    ensures r.next.elapsed == s.elapsed + 1
    ensures r.next.hasRecorder == s.hasRecorder
    ensures r.delivered.Some? <==> s.media == Recording && s.elapsed + 1 >= maxSeconds
    ensures r.next.media == Recording <==> s.media == Recording && s.elapsed + 1 < maxSeconds
    ensures r.next.media == Recording ==> !MaxReached(r.next, maxSeconds)
    ensures s.media == Recording && s.elapsed + 1 >= maxSeconds ==>
              r == Stopped(s.(elapsed := s.elapsed + 1), last) &&
              r.delivered == Some(Concat(s.chunks) + last)
    ensures !(s.media == Recording && s.elapsed + 1 >= maxSeconds) ==>
              r == Step(s.(elapsed := s.elapsed + 1), None)
  {
    var t := s.(elapsed := s.elapsed + 1);
    if t.elapsed >= maxSeconds && t.media == Recording then Stopped(t, last) else Step(t, None)
  }

  /** `n` ticks in a row, with no button pressed in between. */
  function Ticks(s: RecorderView, maxSeconds: nat, n: nat, last: Chunk): (t: RecorderView)
    ensures t.elapsed == s.elapsed + n && t.hasRecorder == s.hasRecorder
    ensures t.media == Recording ==> s.media == Recording
    decreases n
  {
    if n == 0 then s else Ticks(AfterTick(s, maxSeconds, last).next, maxSeconds, n - 1, last)
  }

  /**
   * A recording started with the counter at `elapsed < maxSeconds` goes on
   * for the next `maxSeconds - elapsed - 1` ticks and is stopped by the tick
   * that brings the counter to `maxSeconds`.
   */
  lemma {:induction false} AutoStopDeadline(s: RecorderView, maxSeconds: nat, n: nat, last: Chunk)
    requires s.media == Recording && s.elapsed < maxSeconds
    ensures Ticks(s, maxSeconds, n, last).elapsed == s.elapsed + n
    ensures Ticks(s, maxSeconds, n, last).media == Recording <==> s.elapsed + n < maxSeconds
    decreases n
  {
    if n > 0 {
      var t := AfterTick(s, maxSeconds, last).next;
      if t.media == Recording {
        AutoStopDeadline(t, maxSeconds, n - 1, last);
      } else {
        TicksWhileInactive(t, maxSeconds, n - 1, last);
      }
    }
  }

  /** Ticks never start a recording; they only raise the counter. */
  lemma {:induction false} TicksWhileInactive(s: RecorderView, maxSeconds: nat, n: nat, last: Chunk)
    requires s.media == Inactive
    ensures Ticks(s, maxSeconds, n, last) == s.(elapsed := s.elapsed + n)
    decreases n
  {
    if n > 0 {
      TicksWhileInactive(AfterTick(s, maxSeconds, last).next, maxSeconds, n - 1, last);
    }
  }

  /**
   * Because the counter runs from mount, a recording started once the maximum
   * has been reached is stopped by the very next tick.
   */
  lemma LateStartStopsAtNextTick(s: RecorderView, maxSeconds: nat, last: Chunk)
    requires StartEnabled(s) && MaxReached(s, maxSeconds)
    ensures AfterTick(AfterStart(s), maxSeconds, last).next.media == Inactive
    ensures AfterTick(AfterStart(s), maxSeconds, last).delivered == Some(Concat(s.chunks) + last)
  {
  }

  /**
   * Nothing lowers the counter, so once the "Maximum recording time reached"
   * caption shows it stays: ticks, both buttons, arriving chunks and a
   * re-acquired stream all keep it.
   */
  lemma CaptionStays(s: RecorderView, maxSeconds: nat, n: nat, c: Chunk, last: Chunk)
    requires MaxReached(s, maxSeconds)
    ensures MaxReached(Ticks(s, maxSeconds, n, last), maxSeconds)
    ensures MaxReached(AfterStart(s), maxSeconds)
    ensures MaxReached(AfterStop(s, last).next, maxSeconds)
    ensures MaxReached(ChunkReceived(s, c), maxSeconds)
    ensures MaxReached(Acquired(s), maxSeconds)
  {
  }

  /** Chunks arriving one after the other, in order. */
  function ChunksReceived(s: RecorderView, cs: seq<Chunk>): (t: RecorderView)
    ensures t.chunks == s.chunks + cs
    ensures t.hasRecorder == s.hasRecorder && t.media == s.media && t.elapsed == s.elapsed
    decreases |cs|
  {
    if cs == [] then s
    else
      var t := ChunksReceived(ChunkReceived(s, cs[0]), cs[1..]);
      assert s.chunks + [cs[0]] + cs[1..] == s.chunks + cs;
      t
  }

  /**
   * The chunk array is never emptied while the recorder lives: after a stop,
   * a new start and more chunks, the next blob begins with the earlier one.
   */
  lemma LaterBlobExtendsEarlier(s: RecorderView, more: seq<Chunk>, last1: Chunk, last2: Chunk)
    requires StopEnabled(s)
    ensures var first := AfterStop(s, last1);
            var again := ChunksReceived(AfterStart(first.next), more);
            && again.media == Recording
            && first.delivered.value <= AfterStop(again, last2).delivered.value
  {
    ConcatAppend(s.chunks, last1);
    ConcatAppend(s.chunks + [last1] + more, last2);
    ConcatPrefix(s.chunks + [last1], more);
  }

  class Recorder {
    const maxSeconds: nat
    var hasRecorder: bool
    var media: MediaState
    var elapsedSeconds: nat
    var chunks: seq<Chunk>

    function View(): RecorderView
      reads this
    {
      RecorderView(hasRecorder, media, elapsedSeconds, chunks)
    }

    /** Mounting with the `maxSeconds` prop, 120 when it is not given. */
    constructor (maxSecondsProp: Option<nat>)
      ensures maxSeconds == if maxSecondsProp.Some? then maxSecondsProp.value else DefaultMaxSeconds
      ensures View() == Mounted()
    {
      maxSeconds := if maxSecondsProp.Some? then maxSecondsProp.value else DefaultMaxSeconds;
      hasRecorder, media, elapsedSeconds, chunks := false, Inactive, 0, [];
    }

    /** The mount effect once the stream is granted: a new recorder and the timer. */
    method Acquire()
      modifies this
      ensures View() == Acquired(old(View()))
    {
      hasRecorder := true;
      media := Inactive;
      chunks := [];
    }

    method ReceiveChunk(c: Chunk)
      modifies this
      ensures View() == ChunkReceived(old(View()), c)
    {
      chunks := chunks + [c];
    }

    method ClickStart()
      modifies this
      ensures View() == AfterStart(old(View()))
    {
      if hasRecorder && media != Recording {
        media := Recording;
      }
    }

    /** `recorder.stop()`, which flushes `last` and then fires `onstop`. */
    method StopRecorder(last: Chunk) returns (blob: Blob)
      requires media == Recording
      modifies this
      ensures Step(View(), Some(blob)) == Stopped(old(View()), last)
    {
      chunks := chunks + [last];
      media := Inactive;
      blob := Concat(chunks);
    }

    method ClickStop(last: Chunk) returns (delivered: Option<Blob>)
      modifies this
      ensures Step(View(), delivered) == AfterStop(old(View()), last)
    {
      delivered := None;
      if hasRecorder && media == Recording {
        var blob := StopRecorder(last);
        delivered := Some(blob);
      }
    }

    /** The interval callback followed by the auto-stop effect; the interval exists only once a recorder does. */
    method Tick(last: Chunk) returns (delivered: Option<Blob>)
      requires hasRecorder
      modifies this
      ensures Step(View(), delivered) == AfterTick(old(View()), maxSeconds, last)
    {
      elapsedSeconds := elapsedSeconds + 1;
      delivered := None;
      if elapsedSeconds >= maxSeconds && media == Recording {
        var blob := StopRecorder(last);
        delivered := Some(blob);
      }
    }
  }
}
