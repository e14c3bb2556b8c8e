/**
 * The microphone encoder of public/audio-worklet.js: an audio worklet that
 * buffers incoming samples first-in first-out and, whenever 2048 of them are
 * available, posts them as one `Int16Array` chunk.
 */
module AudioWorklet {
  import opened Pcm16

  /** Samples per posted chunk (`this.bufferSize`). */
  const BufferSize: nat := 2048

  /** Truncation toward zero, as storing a number into an `Int16Array` does. */
  function Trunc(x: real): (n: int)
    ensures x >= 0.0 ==> 0 <= n && n as real <= x < n as real + 1.0
    ensures x < 0.0 ==> n <= 0 && n as real - 1.0 < x <= n as real
  {
    if x >= 0.0 then x.Floor else -((-x).Floor)
  }

  /** `Math.max(-1, Math.min(1, s))`. */
  function Clamp(s: real): (c: real)
    ensures -1.0 <= c <= 1.0
    ensures -1.0 <= s <= 1.0 ==> c == s
    ensures s < -1.0 ==> c == -1.0
    ensures s > 1.0 ==> c == 1.0
  {
    var hi := if s < 1.0 then s else 1.0;
    if -1.0 < hi then hi else -1.0
  }

  /** One sample converted for the wire: clamped, scaled by 32768 when
      negative and by 32767 otherwise, then truncated toward zero. */
  function ToPcm(s: real): (v: int)
    ensures IsInt16(v)
    ensures s <= -1.0 ==> v == -32768
    ensures s >= 1.0 ==> v == 32767
    ensures s < 0.0 ==> v <= 0
    ensures s >= 0.0 ==> v >= 0
    ensures s == 0.0 ==> v == 0
  {
    var c := Clamp(s);
    Trunc(if c < 0.0 then c * 32768.0 else c * 32767.0)
  }

  lemma TruncMonotonic(x: real, y: real)
    requires x <= y
    ensures Trunc(x) <= Trunc(y)
  {
    if x < 0.0 && y < 0.0 {
      assert Trunc(y) as real - 1.0 < y;
      assert x <= Trunc(x) as real;
    }
  }

  /** A louder input never gives a smaller output sample. */
  lemma ToPcmMonotonic(s: real, t: real)
    requires s <= t
    ensures ToPcm(s) <= ToPcm(t)
  {
    var cs, ct := Clamp(s), Clamp(t);
    assert cs <= ct;
    if cs < 0.0 && ct < 0.0 {
      TruncMonotonic(cs * 32768.0, ct * 32768.0);
    } else if cs >= 0.0 && ct >= 0.0 {
      TruncMonotonic(cs * 32767.0, ct * 32767.0);
    }
  }

  /** Played back through the `/ 32768` decoder, a converted sample lands
      within 1/16384 of the clamped input, and never further from zero. */
  lemma QuantisationError(s: real)
    ensures var c := Clamp(s); var f := ToFloat(ToPcm(s));
      (c < 0.0 ==> c <= f <= 0.0 && f - c < 1.0 / 32768.0) &&
      (c >= 0.0 ==> 0.0 <= f <= c && c - f < 1.0 / 16384.0)
  {
    var c := Clamp(s);
    var v := ToPcm(s);
    if c < 0.0 {
      assert c * 32768.0 <= v as real < c * 32768.0 + 1.0;
    } else {
      assert v as real <= c * 32767.0 < v as real + 1.0;
    }
  }

  /** The input split into consecutive 2048-sample chunks, front first. */
  function Chunks(s: seq<real>): (cs: seq<seq<real>>)
    ensures |cs| == |s| / BufferSize
    ensures forall k :: 0 <= k < |cs| ==> |cs[k]| == BufferSize
    decreases |s|
  {
    if |s| < BufferSize then [] else [s[..BufferSize]] + Chunks(s[BufferSize..])
  }

  /** What stays buffered once every full chunk is taken. */
  function Residual(s: seq<real>): (r: seq<real>)
    ensures |r| < BufferSize
    ensures |r| == |s| % BufferSize
  {
    s[|s| / BufferSize * BufferSize..]
  }

  function Flatten(cs: seq<seq<real>>): seq<real> {
    if cs == [] then [] else cs[0] + Flatten(cs[1..])
  }

  /** Conservation and order: the chunks in order, then the residue, are the input. */
  lemma {:induction false} ChunksThenResidual(s: seq<real>)
    ensures Flatten(Chunks(s)) + Residual(s) == s
    decreases |s|
  {
    if |s| >= BufferSize {
      var rest := s[BufferSize..];
      ChunksThenResidual(rest);
      assert |rest| / BufferSize * BufferSize == |s| / BufferSize * BufferSize - BufferSize;
      assert Residual(s) == Residual(rest);
      assert Chunks(s) == [s[..BufferSize]] + Chunks(rest);
      assert Flatten(Chunks(s)) == s[..BufferSize] + Flatten(Chunks(rest));
      assert s == s[..BufferSize] + rest;
    }
  }

  /** The `Int16Array` filled from one chunk. */
  function Encode(chunk: seq<real>): (xs: seq<int>)
    ensures |xs| == |chunk|
    ensures AllInt16(xs)
  {
    seq(|chunk|, i requires 0 <= i < |chunk| => ToPcm(chunk[i]))
  }

  /** Every message posted for a buffered sequence, in posting order. */
  function Frames(s: seq<real>): (fs: seq<seq<int>>)
    ensures |fs| == |s| / BufferSize
  {
    var cs := Chunks(s);
    seq(|cs|, k requires 0 <= k < |cs| => Encode(cs[k]))
  }

  /** Each posted message is 2048 in-range samples, each the conversion of
      the input sample at the same overall position. */
  lemma FramesAt(s: seq<real>, k: nat, i: nat)
    requires k < |s| / BufferSize && i < BufferSize
    ensures |Frames(s)[k]| == BufferSize
    ensures Frames(s)[k][i] == ToPcm(s[k * BufferSize + i])
  {
    ChunksAt(s, k);
  }

  lemma {:induction false} ChunksAt(s: seq<real>, k: nat)
    requires k < |s| / BufferSize
    ensures Chunks(s)[k] == s[k * BufferSize..(k + 1) * BufferSize]
    decreases k
  {
    if k > 0 {
      var rest := s[BufferSize..];
      ChunksAt(rest, k - 1);
      assert Chunks(s)[k] == Chunks(rest)[k - 1];
    }
  }

  lemma FramesStep(s: seq<real>)
    requires |s| >= BufferSize
    ensures Frames(s) == [Encode(s[..BufferSize])] + Frames(s[BufferSize..])
  {
    assert Chunks(s) == [s[..BufferSize]] + Chunks(s[BufferSize..]);
  }

  lemma FramesShort(s: seq<real>)
    requires |s| < BufferSize
    ensures Frames(s) == [] && Residual(s) == s
  {
  }

  /** `new Int16Array(chunk.length)` filled sample by sample. */
  method ConvertChunk(chunk: seq<real>) returns (int16: array<int>)
    ensures fresh(int16)
    ensures int16[..] == Encode(chunk)
  {
    int16 := new int[|chunk|];
    for i := 0 to |chunk|
      invariant forall j :: 0 <= j < i ==> int16[j] == ToPcm(chunk[j])
    {
      int16[i] := ToPcm(chunk[i]);
    }
  }

  class AudioRecorderWorklet {
    /** `this.buffer`: samples received but not yet posted. */
    var buffer: seq<real>
    /** `this.bufferSize`. */
    const bufferSize: nat
    /** Every `int16buffer` posted on `this.port`, in order. */
    var posted: seq<seq<int>>

    ghost predicate Valid()
      reads this
    {
      bufferSize == BufferSize && |buffer| < bufferSize
    }

    constructor ()
      ensures Valid()
      ensures buffer == [] && posted == []
    {
      buffer := [];
      bufferSize := BufferSize;
      posted := [];
    }

    /** One render quantum: `inputs[0][0]` is the first channel of the first
        input; a missing input or channel leaves everything as it was. */
    method Process(inputs: seq<seq<seq<real>>>) returns (keepAlive: bool)
      requires Valid()
      modifies this`buffer, this`posted
      ensures Valid()
      ensures keepAlive
      ensures |inputs| == 0 || |inputs[0]| == 0 ==>
        buffer == old(buffer) && posted == old(posted)
      ensures |inputs| > 0 && |inputs[0]| > 0 ==>
        var all := old(buffer) + inputs[0][0];
        posted == old(posted) + Frames(all) && buffer == Residual(all)
    {
      if |inputs| == 0 || |inputs[0]| == 0 {
        return true;
      }
      var channelData := inputs[0][0];
      ghost var all := buffer + channelData;
      for i := 0 to |channelData|
        invariant buffer == old(buffer) + channelData[..i]
        invariant posted == old(posted)
      {
        buffer := buffer + [channelData[i]];
      }
      assert channelData[..|channelData|] == channelData;
      while |buffer| >= bufferSize
        invariant bufferSize == BufferSize
        invariant posted + Frames(buffer) == old(posted) + Frames(all)
        invariant Residual(buffer) == Residual(all)
        decreases |buffer|
      {
        var chunk := buffer[..bufferSize];
        FramesStep(buffer);
        assert Residual(buffer) == Residual(buffer[bufferSize..]);
        buffer := buffer[bufferSize..];
        var int16 := ConvertChunk(chunk);
        posted := posted + [int16[..]];
      }
      FramesShort(buffer);
      return true;
    }
  }
}
