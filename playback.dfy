/**
 * The playback scheduler of public/app.js: one pointer,
 * `playbackScheduledTime`, says where the next decoded chunk starts on the
 * playback context's clock. A chunk starts at the pointer when the pointer is
 * still ahead of `now`, 50 ms after `now` when playback has run dry, and the
 * pointer then moves to the chunk's end.
 */
module Playback {

  /** Sample rate of the playback context and of every created buffer. */
  const SampleRate: real := 24000.0

  /** Lead given to a chunk that arrives after playback has run dry. */
  const StartLead: real := 0.05

  /** One `source.start(t)` call: the context it was made on, its start time
      and the float samples it plays. */
  datatype Cue = Cue(context: nat, start: real, samples: seq<real>)

  /** `buffer.duration` of a buffer of n samples. */
  function Duration(n: nat): (d: real)
    ensures d >= 0.0
    ensures d * SampleRate == n as real
  {
    n as real / SampleRate
  }

  /** Start time chosen for a chunk arriving at `now`. */
  function StartTime(pointer: real, now: real): (start: real)
    ensures start >= now && start >= pointer
    ensures start == pointer || (pointer < now && start == now + StartLead)
  {
    if pointer < now then now + StartLead else pointer
  }

  /** The pointer after a chunk of n samples is scheduled. */
  function Advance(pointer: real, now: real, n: nat): (next: real)
    ensures next >= StartTime(pointer, now)
    ensures next - StartTime(pointer, now) == Duration(n)
  {
    StartTime(pointer, now) + Duration(n)
  }

  /** A chunk handed to the scheduler: the context clock when it arrived and
      how many samples it holds. */
  datatype Arrival = Arrival(now: real, samples: nat)

  /** Start times of a run of chunks scheduled one after another from `pointer`. */
  function Starts(pointer: real, arrivals: seq<Arrival>): (starts: seq<real>)
    ensures |starts| == |arrivals|
    decreases |arrivals|
  {
    if arrivals == [] then []
    else
      var a := arrivals[0];
      [StartTime(pointer, a.now)] + Starts(Advance(pointer, a.now, a.samples), arrivals[1..])
  }

  /** The pointer once a run of chunks has been scheduled from `pointer`. */
  function PointerAfter(pointer: real, arrivals: seq<Arrival>): real
    decreases |arrivals|
  {
    if arrivals == [] then pointer
    else PointerAfter(Advance(pointer, arrivals[0].now, arrivals[0].samples), arrivals[1..])
  }

  /** Scheduling one more chunk extends the run: it starts where the pointer
      left by the run says, and moves the pointer past itself. */
  lemma {:induction false} StartsSnoc(pointer: real, arrivals: seq<Arrival>, a: Arrival)
    ensures Starts(pointer, arrivals + [a]) == Starts(pointer, arrivals) + [StartTime(PointerAfter(pointer, arrivals), a.now)]
    ensures PointerAfter(pointer, arrivals + [a]) == Advance(PointerAfter(pointer, arrivals), a.now, a.samples)
    decreases |arrivals|
  {
    if arrivals == [] {
      assert [a][1..] == [];
    } else {
      var p' := Advance(pointer, arrivals[0].now, arrivals[0].samples);
      assert (arrivals + [a])[1..] == arrivals[1..] + [a];
      StartsSnoc(p', arrivals[1..], a);
    }
  }

  /** Chunks play in arrival order and never overlap: each starts no earlier
      than the previous one ends, stall or not. */
  lemma {:induction false} NoOverlap(pointer: real, arrivals: seq<Arrival>, k: nat)
    requires k + 1 < |arrivals|
    ensures Starts(pointer, arrivals)[k + 1] >= Starts(pointer, arrivals)[k] + Duration(arrivals[k].samples)
    decreases k
  {
    var a := arrivals[0];
    var p' := Advance(pointer, a.now, a.samples);
    if k == 0 {
      assert Starts(p', arrivals[1..])[0] == StartTime(p', arrivals[1].now);
    } else {
      NoOverlap(p', arrivals[1..], k - 1);
    }
  }

  /** No stall: every chunk after the first arrives before the audio queued
      ahead of it has finished. */
  ghost predicate NoStall(pointer: real, arrivals: seq<Arrival>) {
    forall k :: 0 < k < |arrivals| ==>
      arrivals[k].now <= Starts(pointer, arrivals)[k - 1] + Duration(arrivals[k - 1].samples)
  }

  /** Total playing time of a run of chunks. */
  function TotalDuration(arrivals: seq<Arrival>): (d: real)
    ensures d >= 0.0
  {
    if arrivals == [] then 0.0 else Duration(arrivals[0].samples) + TotalDuration(arrivals[1..])
  }

  lemma TotalDurationSnoc(arrivals: seq<Arrival>, a: Arrival)
    ensures TotalDuration(arrivals + [a]) == TotalDuration(arrivals) + Duration(a.samples)
  {
    if arrivals != [] {
      assert (arrivals + [a])[1..] == arrivals[1..] + [a];
      TotalDurationSnoc(arrivals[1..], a);
    }
  }

  /** Gapless playback: without a stall, chunk k starts exactly where the
      chunks before it end. */
  lemma {:induction false} Gapless(pointer: real, arrivals: seq<Arrival>, k: nat)
    requires NoStall(pointer, arrivals)
    requires k < |arrivals|
    ensures Starts(pointer, arrivals)[k] == Starts(pointer, arrivals)[0] + TotalDuration(arrivals[..k])
    decreases k
  {
    var starts := Starts(pointer, arrivals);
    if k == 0 {
      assert arrivals[..0] == [];
    } else {
      Gapless(pointer, arrivals, k - 1);
      var a := arrivals[k - 1];
      StartsStep(pointer, arrivals, k - 1);
      assert arrivals[..k] == arrivals[..k - 1] + [a];
      TotalDurationSnoc(arrivals[..k - 1], a);
    }
  }

  /** Without a stall, each chunk after the first starts where the previous
      one ends. */
  lemma {:induction false} StartsStep(pointer: real, arrivals: seq<Arrival>, k: nat)
    requires NoStall(pointer, arrivals)
    requires k + 1 < |arrivals|
    ensures Starts(pointer, arrivals)[k + 1] == Starts(pointer, arrivals)[k] + Duration(arrivals[k].samples)
  {
    var starts := Starts(pointer, arrivals);
    var end := starts[k] + Duration(arrivals[k].samples);
    assert arrivals[k + 1].now <= end;
    PointerBeforeChunk(pointer, arrivals, k + 1);
  }

  /** The start of chunk k is the start time chosen from the pointer left by
      the chunks before it. */
  lemma {:induction false} PointerBeforeChunk(pointer: real, arrivals: seq<Arrival>, k: nat)
    requires 0 < k < |arrivals|
    ensures Starts(pointer, arrivals)[k] ==
      StartTime(Starts(pointer, arrivals)[k - 1] + Duration(arrivals[k - 1].samples), arrivals[k].now)
    decreases k
  {
    var a := arrivals[0];
    var p' := Advance(pointer, a.now, a.samples);
    if k > 1 {
      PointerBeforeChunk(p', arrivals[1..], k - 1);
    }
  }

  /** Two chunks of 1.0 s and 0.5 s at 24 kHz, both arriving at clock 0 with
      the pointer reset: the second starts at exactly 1.0 s. */
  lemma BackToBack()
    ensures Starts(0.0, [Arrival(0.0, 24000), Arrival(0.0, 12000)]) == [0.0, 1.0]
  {
    var arr := [Arrival(0.0, 24000), Arrival(0.0, 12000)];
    assert Starts(1.0, arr[1..]) == [1.0];
  }
}
