/** The playback scheduler's arithmetic: where an inbound audio chunk is
    started on the output clock, and what a run of chunks without an
    interruption looks like. Times and durations are seconds on the output
    audio context's clock. */
module Playback {

  /** A reading of the output clock, a start time or a duration. */
  type Seconds = r: real | 0.0 <= r

  /** The start time of a chunk arriving at clock `now` while the scheduling
      watermark is `next`: Math.max(next, now), so never in the past and
      never before the previously scheduled audio has ended. */
  function StartTime(next: Seconds, now: Seconds): (t: Seconds)
    ensures now <= t && next <= t
    ensures t == now || t == next
  {
    if next < now then now else next
  }

  /** One decoded inbound chunk: the clock reading when it was scheduled and
      the duration of its decoded buffer. */
  datatype Chunk = Chunk(arrival: Seconds, duration: Seconds)

  /** The start times given to successive chunks with no interruption in
      between, starting from watermark `next`. Every chunk starts no earlier
      than its arrival, and the first no earlier than the watermark. */
  function Starts(next: Seconds, chunks: seq<Chunk>): (starts: seq<Seconds>)
    ensures |starts| == |chunks|
    ensures forall i | 0 <= i < |chunks| :: chunks[i].arrival <= starts[i]
    ensures |chunks| > 0 ==> next <= starts[0]
    decreases |chunks|
  {
    if chunks == [] then []
    else
      var t := StartTime(next, chunks[0].arrival);
      [t] + Starts(t + chunks[0].duration, chunks[1..])
  }

  /** The watermark after a run of chunks: where the next chunk would go.
      It never moves backwards. */
  function Watermark(next: Seconds, chunks: seq<Chunk>): (w: Seconds)
    ensures next <= w
    decreases |chunks|
  {
    if chunks == [] then next
    else Watermark(StartTime(next, chunks[0].arrival) + chunks[0].duration, chunks[1..])
  }

  /** Total duration of a run of chunks. */
  function TotalDuration(chunks: seq<Chunk>): Seconds {
    if chunks == [] then 0.0
    else TotalDuration(chunks[..|chunks| - 1]) + chunks[|chunks| - 1].duration
  }

  /** Appending a chunk to a run schedules it at StartTime(watermark, arrival)
      and advances the watermark by its duration: the run is the same as
      scheduling the chunks one message at a time. */
  lemma {:induction false} StartsSnoc(next: Seconds, chunks: seq<Chunk>, c: Chunk)
    ensures Starts(next, chunks + [c]) == Starts(next, chunks) + [StartTime(Watermark(next, chunks), c.arrival)]
    ensures Watermark(next, chunks + [c]) == StartTime(Watermark(next, chunks), c.arrival) + c.duration
    decreases |chunks|
  {
    if chunks == [] {
      assert chunks + [c] == [c];
    } else {
      var t := StartTime(next, chunks[0].arrival);
      assert (chunks + [c])[0] == chunks[0];
      assert (chunks + [c])[1..] == chunks[1..] + [c];
      StartsSnoc(t + chunks[0].duration, chunks[1..], c);
    }
  }

  /** Each chunk after the first starts at the later of the previous chunk's
      end and its own arrival. */
  lemma {:induction false} StartsChain(next: Seconds, chunks: seq<Chunk>, i: nat)
    requires 0 < i < |chunks|
    ensures var s := Starts(next, chunks);
      s[i] == StartTime(s[i - 1] + chunks[i - 1].duration, chunks[i].arrival)
    decreases i
  {
    var t := StartTime(next, chunks[0].arrival);
    if i > 1 {
      StartsChain(t + chunks[0].duration, chunks[1..], i - 1);
    }
  }

  /** Gap-free playback: a chunk that arrives before the previous one has
      finished starts exactly where the previous one ends. */
  lemma GapFree(next: Seconds, chunks: seq<Chunk>, i: nat)
    requires 0 < i < |chunks|
    requires chunks[i].arrival <= Starts(next, chunks)[i - 1] + chunks[i - 1].duration
    ensures Starts(next, chunks)[i] == Starts(next, chunks)[i - 1] + chunks[i - 1].duration
  {
    StartsChain(next, chunks, i);
  }

  /** No overlap and arrival order: every chunk starts no earlier than the
      end of every chunk scheduled before it. */
  lemma {:induction false} NoOverlap(next: Seconds, chunks: seq<Chunk>, i: nat, j: nat)
    requires i < j < |chunks|
    ensures Starts(next, chunks)[i] + chunks[i].duration <= Starts(next, chunks)[j]
    decreases j
  {
    StartsChain(next, chunks, j);
    if i < j - 1 {
      NoOverlap(next, chunks, i, j - 1);
    }
  }

  /** A burst: when no chunk arrives later than the first chunk's start,
      chunk i starts at that first start plus the durations of the chunks
      before it. */
  lemma {:induction false} BurstBackToBack(next: Seconds, chunks: seq<Chunk>, i: nat)
    requires i < |chunks|
    requires forall k | 0 <= k < |chunks| :: chunks[k].arrival <= StartTime(next, chunks[0].arrival)
    ensures Starts(next, chunks)[i] == StartTime(next, chunks[0].arrival) + TotalDuration(chunks[..i])
    decreases i
  {
    if i == 0 {
      assert chunks[..0] == [];
    } else {
      BurstBackToBack(next, chunks, i - 1);
      StartsChain(next, chunks, i);
      assert chunks[..i][..i - 1] == chunks[..i - 1];
    }
  }

  /** One source node playing a decoded chunk: a serial number standing for
      the node's identity (the source keeps nodes in a Set, compared by
      reference), the time it was started at and the length of its buffer. */
  datatype Source = Source(id: nat, start: Seconds, duration: Seconds) {
    /** The clock time at which this node finishes playing. */
    function End(): Seconds {
      start + duration
    }
  }
}
