/** The audio callbacks of audio_engine.py. The microphone callback copies the
    latest input block into `_mic_buf`; the virtual-cable callback advances
    every playing sound by one block, mixes the blocks scaled by each sound's
    volume, adds the microphone and writes the clipped result, and feeds the
    headphone stream from the same mix. Streams, devices and locks are
    outside the model: the arrays the callbacks receive are parameters and
    the block written to the headphones is returned. */
module AudioEngine {
  import opened Common
  import opened SoundRecord
  import opened Configuration
  import opened Effects

  /** `BLOCK`: the block size every stream is opened with. */
  const Block: nat := 1024

  /** What the mixer reads and writes of one sound record. */
  datatype Voice = Voice(data: seq<real>, pos: int, playing: bool, volume: real)

  ghost function VoiceOf(s: Sound): Voice
    reads s
  {
    Voice(s.data, s.pos, s.playing, s.volume)
  }

  /** The voices of the records, in the order the mixer visits them. */
  ghost function Voices(recs: seq<Sound>): (vs: seq<Voice>)
    reads set r | r in recs
    ensures |vs| == |recs|
    ensures forall i :: 0 <= i < |recs| ==> vs[i] == VoiceOf(recs[i])
  {
    if recs == [] then [] else Voices(recs[..|recs| - 1]) + [VoiceOf(recs[|recs| - 1])]
  }

  predicate InRange(v: Voice)
  {
    0 <= v.pos <= |v.data|
  }

  predicate AllInRange(vs: seq<Voice>)
  {
    forall i :: 0 <= i < |vs| ==> InRange(vs[i])
  }

  function Zeros(n: nat): (z: seq<real>)
    ensures |z| == n
    ensures forall k :: 0 <= k < n ==> z[k] == 0.0
  {
    seq(n, k => 0.0)
  }

  /** `x + y` elementwise. */
  function Add(x: seq<real>, y: seq<real>): (r: seq<real>)
    requires |x| == |y|
    ensures |r| == |x|
    ensures forall k :: 0 <= k < |x| ==> r[k] == x[k] + y[k]
  {
    seq(|x|, k requires 0 <= k < |x| => x[k] + y[k])
  }

  function ClipSample(x: real): real
  {
    if x < -1.0 then -1.0 else if x > 1.0 then 1.0 else x
  }

  /** `np.clip(x, -1.0, 1.0)`: every sample lands in [-1, 1] and a sample
      already there is kept. */
  function Clip(x: seq<real>): (r: seq<real>)
    ensures |r| == |x|
    ensures forall k :: 0 <= k < |x| ==> -1.0 <= r[k] <= 1.0
    ensures forall k :: 0 <= k < |x| && -1.0 <= x[k] <= 1.0 ==> r[k] == x[k]
  {
    seq(|x|, k requires 0 <= k < |x| => ClipSample(x[k]))
  }

  /** `data[pos:pos + frames]`, padded with zeros to `frames` samples when
      fewer are left. */
  function Chunk(v: Voice, frames: nat): (c: seq<real>)
    requires InRange(v)
    ensures |c| == frames
  {
    var got := v.data[v.pos..MinInt(v.pos + frames, |v.data|)];
    got + Zeros(frames - |got|)
  }

  /** The chunk holds the samples from `pos` on and silence past the end. */
  lemma ChunkAt(v: Voice, frames: nat, k: nat)
    requires InRange(v) && k < frames
    ensures Chunk(v, frames)[k] == if v.pos + k < |v.data| then v.data[v.pos + k] else 0.0
  {
    var got := v.data[v.pos..MinInt(v.pos + frames, |v.data|)];
    if v.pos + k < |v.data| {
      assert got[k] == v.data[v.pos + k];
    }
  }

  /** The record after one block: a paused sound is skipped; a sound with
      fewer than `frames` samples left stops and rewinds; any other moves on
      by one block. */
  function Advance(v: Voice, frames: nat): (w: Voice)
    requires InRange(v)
    ensures InRange(w)
    ensures w.data == v.data && w.volume == v.volume
    ensures !v.playing ==> w == v
  {
    if !v.playing then v
    else if MinInt(v.pos + frames, |v.data|) - v.pos < frames then v.(playing := false, pos := 0)
    else v.(pos := v.pos + frames)
  }

  /** A sound that has reached its end plays one block of silence and stops
      (for a non-empty block); a sound with a full block left keeps playing
      from `pos + frames`. */
  lemma AdvanceCases(v: Voice, frames: nat)
    requires InRange(v) && v.playing
    ensures v.pos + frames > |v.data| ==> !Advance(v, frames).playing && Advance(v, frames).pos == 0
    ensures v.pos == |v.data| ==> Chunk(v, frames) == Zeros(frames)
    ensures v.pos + frames <= |v.data| ==>
      Advance(v, frames).playing && Advance(v, frames).pos == v.pos + frames
      && Chunk(v, frames) == v.data[v.pos..v.pos + frames]
  {
    if v.pos == |v.data| {
      forall k | 0 <= k < frames ensures Chunk(v, frames)[k] == 0.0 {
        ChunkAt(v, frames, k);
      }
    }
  }

  /** `sound_mix` once the loop has visited `vs`: each playing voice adds its
      chunk scaled by its volume. */
  function Mix(vs: seq<Voice>, frames: nat): (m: seq<real>)
    requires AllInRange(vs)
    ensures |m| == frames
    ensures (forall i :: 0 <= i < |vs| ==> !vs[i].playing) ==> m == Zeros(frames)
  {
    if vs == [] then Zeros(frames) else MixStep(Mix(vs[..|vs| - 1], frames), vs[|vs| - 1])
  }

  /** One pass of the loop: a playing voice adds its chunk scaled by its
      volume, a paused one adds nothing. */
  function MixStep(prev: seq<real>, v: Voice): (m: seq<real>)
    requires InRange(v)
    ensures |m| == |prev|
    ensures !v.playing ==> m == prev
  {
    if v.playing then Add(prev, Scale(Chunk(v, |prev|), v.volume)) else prev
  }

  /** All samples zero. */
  predicate Silent(x: seq<real>)
  {
    forall k :: 0 <= k < |x| ==> x[k] == 0.0
  }

  /** With every sound paused or silent the mix is silence. */
  lemma {:induction false} MixOfSilence(vs: seq<Voice>, frames: nat)
    requires AllInRange(vs)
    requires forall i :: 0 <= i < |vs| ==> !vs[i].playing || Silent(vs[i].data)
    ensures Mix(vs, frames) == Zeros(frames)
  {
    if vs != [] {
      var pre := vs[..|vs| - 1];
      assert forall i :: 0 <= i < |pre| ==> pre[i] == vs[i];
      MixOfSilence(pre, frames);
      var v := vs[|vs| - 1];
      if v.playing {
        forall k | 0 <= k < frames ensures Chunk(v, frames)[k] == 0.0 {
          ChunkAt(v, frames, k);
        }
      }
    }
  }

  /** Paused voices contribute nothing: dropping them leaves the mix as it is. */
  lemma {:induction false} MixSkipsPaused(vs: seq<Voice>, v: Voice, frames: nat)
    requires AllInRange(vs) && InRange(v) && !v.playing
    ensures Mix(vs + [v], frames) == Mix(vs, frames)
  {
    assert (vs + [v])[..|vs|] == vs;
  }

  /** `float(config.get(key, 1.0))` for an entry that is a number. */
  function GainSetting(entries: map<string, Json>, key: string): real
    requires key in entries ==> entries[key].JNum?
  {
    if key in entries then entries[key].n else 1.0
  }

  /** The virtual-cable block: the mix plus the scaled microphone, clipped. */
  function CableOut(mix: seq<real>, mic: seq<real>, micVol: real): (r: seq<real>)
    requires |mix| == |mic|
    ensures |r| == |mix|
    ensures forall k :: 0 <= k < |r| ==> -1.0 <= r[k] <= 1.0
  {
    Clip(Add(mix, Scale(mic, micVol)))
  }

  /** The headphone block: with monitoring on the headphones hear the cable's
      signal, with it off only the sounds; either way scaled by `hpVol` and
      clipped. */
  function HeadphoneOut(mix: seq<real>, mic: seq<real>, micVol: real, hpVol: real, enabled: bool): (r: seq<real>)
    requires |mix| == |mic|
    ensures |r| == |mix|
    ensures forall k :: 0 <= k < |r| ==> -1.0 <= r[k] <= 1.0
  {
    if enabled then Clip(Scale(Add(mix, Scale(mic, micVol)), hpVol)) else Clip(Scale(mix, hpVol))
  }

  /** At headphone volume 1 with monitoring on the headphones hear exactly
      what the virtual cable sends. */
  lemma MonitorMatchesCable(mix: seq<real>, mic: seq<real>, micVol: real)
    requires |mix| == |mic|
    ensures HeadphoneOut(mix, mic, micVol, 1.0, true) == CableOut(mix, mic, micVol)
  {
    var s := Add(mix, Scale(mic, micVol));
    assert Scale(s, 1.0) == s;
  }

  /** With monitoring off the microphone never reaches the headphones. */
  lemma MonitorOffIgnoresMic(mix: seq<real>, mic1: seq<real>, mic2: seq<real>, micVol: real, hpVol: real)
    requires |mix| == |mic1| == |mic2|
    ensures HeadphoneOut(mix, mic1, micVol, hpVol, false) == HeadphoneOut(mix, mic2, micVol, hpVol, false)
  {
  }

  /** A silent mix with the microphone at volume 0 sends silence on both
      outputs. */
  lemma SilenceOut(mic: seq<real>, hpVol: real, enabled: bool)
    ensures CableOut(Zeros(|mic|), mic, 0.0) == Zeros(|mic|)
    ensures HeadphoneOut(Zeros(|mic|), mic, 0.0, hpVol, enabled) == Zeros(|mic|)
  {
    var z := Zeros(|mic|);
    assert Add(z, Scale(mic, 0.0)) == z;
    assert Scale(z, hpVol) == z by {
      forall i | 0 <= i < |z|
        ensures Scale(z, hpVol)[i] == z[i]
      {
        assert z[i] == 0.0;
      }
    }
    assert Clip(z) == z;
  }

  /** The callback's view of the sounds dictionary: its records in iteration
      order, each listed once. */
  predicate DistinctRecords(recs: seq<Sound>)
  {
    forall i, j :: 0 <= i < |recs| && 0 <= j < |recs| && i != j ==> recs[i] != recs[j]
  }

  /** One record of the mixing loop: a playing record gives its padded chunk
      and moves on; a paused one is left alone. */
  method Step(s: Sound, frames: nat) returns (chunk: seq<real>)
    requires InRange(VoiceOf(s))
    modifies s`pos, s`playing
    ensures VoiceOf(s) == Advance(old(VoiceOf(s)), frames)
    ensures old(s.playing) ==> chunk == Chunk(old(VoiceOf(s)), frames)
  {
    chunk := [];
    if !s.playing {
      return;
    }
    var pos := s.pos;
    var data := s.data;
    chunk := data[pos..MinInt(pos + frames, |data|)];
    if |chunk| < frames {
      chunk := chunk + Zeros(frames - |chunk|);
      s.playing := false;
      s.pos := 0;
    } else {
      s.pos := pos + frames;
    }
  }

  /** `sound_mix += chunk * volume`, in place. */
  method AddScaled(mix: array<real>, chunk: seq<real>, volume: real)
    requires |chunk| == mix.Length
    modifies mix
    ensures mix[..] == Add(old(mix[..]), Scale(chunk, volume))
  {
    var k := 0;
    while k < mix.Length
      invariant 0 <= k <= mix.Length
      invariant forall j :: 0 <= j < k ==> mix[j] == old(mix[j]) + chunk[j] * volume
      invariant forall j :: k <= j < mix.Length ==> mix[j] == old(mix[j])
    {
      mix[k] := mix[k] + chunk[k] * volume;
      k := k + 1;
    }
  }

  /** One pass of the locked loop on the record `s`. */
  method MixOne(s: Sound, mix: array<real>)
    requires InRange(VoiceOf(s))
    modifies s`pos, s`playing, mix
    ensures VoiceOf(s) == Advance(old(VoiceOf(s)), mix.Length)
    ensures mix[..] == MixStep(old(mix[..]), old(VoiceOf(s)))
  {
    var playing := s.playing;
    var volume := s.volume;
    var chunk := Step(s, mix.Length);
    if playing {
      AddScaled(mix, chunk, volume);
    }
  }

  /** The locked loop of `_vmic_cb`: every record advances by one block and
      the returned buffer is `Mix` of the records as they were. */
  method MixBlock(recs: seq<Sound>, frames: nat) returns (mix: array<real>)
    requires DistinctRecords(recs)
    requires AllInRange(Voices(recs))
    modifies (set r | r in recs)`pos
    modifies (set r | r in recs)`playing
    ensures fresh(mix)
    ensures mix[..] == Mix(old(Voices(recs)), frames)
    ensures forall i :: 0 <= i < |recs| ==> VoiceOf(recs[i]) == Advance(old(VoiceOf(recs[i])), frames)
  {
    ghost var vs := Voices(recs);
    mix := new real[frames](_ => 0.0);
    assert mix[..] == Zeros(frames);
    var i := 0;
    while i < |recs|
      invariant 0 <= i <= |recs|
      invariant mix.Length == frames
      invariant mix[..] == Mix(vs[..i], frames)
      invariant forall j :: 0 <= j < i ==> VoiceOf(recs[j]) == Advance(vs[j], frames)
      invariant forall j :: i <= j < |recs| ==> VoiceOf(recs[j]) == vs[j]
    {
      MixOne(recs[i], mix);
      assert vs[..i + 1][..i] == vs[..i];
      i := i + 1;
    }
    assert vs[..i] == vs;
  }

  class Engine {
    /** `_mic_buf`: the latest microphone block. */
    var micBuf: array<real>
    /** `_monitor_enabled` */
    var monitorEnabled: bool
    /** Whether `start` opened the headphone stream (`_monitor_stream`). */
    var monitorOpen: bool

    /** The module's initial state, with the outcome of opening the
        headphone stream as a parameter. */
    constructor (monitorOpen: bool)
      ensures fresh(micBuf) && micBuf[..] == Zeros(Block)
      ensures monitorEnabled && this.monitorOpen == monitorOpen
    {
      micBuf := new real[Block](_ => 0.0);
      monitorEnabled := true;
      this.monitorOpen := monitorOpen;
    }

    /** `set_monitor_enabled`. */
    method SetMonitorEnabled(enabled: bool)
      modifies this`monitorEnabled
      ensures monitorEnabled == enabled
    {
      monitorEnabled := enabled;
    }

    /** `_mic_cb`: the first `frames` samples of the buffer take the input's
        first channel; the rest of the buffer is kept. */
    method MicCallback(indata: seq<real>, frames: nat)
      requires frames <= |indata| && frames <= micBuf.Length
      modifies micBuf
      ensures micBuf[..] == indata[..frames] + old(micBuf[..])[frames..]
    {
      var k := 0;
      while k < frames
        invariant 0 <= k <= frames
        invariant forall j :: 0 <= j < k ==> micBuf[j] == indata[j]
        invariant forall j :: k <= j < micBuf.Length ==> micBuf[j] == old(micBuf[j])
      {
        micBuf[k] := indata[k];
        k := k + 1;
      }
    }

    /** `_vmic_cb` for the records `recs` of the sounds dictionary and the
        configuration `entries`: every record advances one block, `outdata`
        gets the virtual-cable block, and when the headphone stream is open
        the returned block is what is written to it. The cable block does
        not depend on the monitor flag. */
    method CableCallback(outdata: array<real>, frames: nat, recs: seq<Sound>, entries: map<string, Json>)
      returns (headphones: Option<seq<real>>)
      requires outdata.Length == frames && frames <= micBuf.Length && outdata != micBuf
      requires DistinctRecords(recs)
      requires AllInRange(Voices(recs))
      requires "mic_volume" in entries ==> entries["mic_volume"].JNum?
      requires "headphone_volume" in entries ==> entries["headphone_volume"].JNum?
      modifies outdata
      modifies (set r | r in recs)`pos
      modifies (set r | r in recs)`playing
      ensures forall i :: 0 <= i < |recs| ==> VoiceOf(recs[i]) == Advance(old(VoiceOf(recs[i])), frames)
      ensures outdata[..] ==
        CableOut(Mix(old(Voices(recs)), frames), micBuf[..frames], GainSetting(entries, "mic_volume"))
      ensures headphones ==
        if monitorOpen then
          Some(HeadphoneOut(Mix(old(Voices(recs)), frames), micBuf[..frames],
            GainSetting(entries, "mic_volume"), GainSetting(entries, "headphone_volume"), monitorEnabled))
        else None
    {
      var buf := MixBlock(recs, frames);
      var mix := buf[..];
      var mic := micBuf[..frames];
      var micVol := GainSetting(entries, "mic_volume");
      WriteBlock(outdata, CableOut(mix, mic, micVol));
      headphones := None;
      if monitorOpen {
        headphones := Some(HeadphoneOut(mix, mic, micVol, GainSetting(entries, "headphone_volume"), monitorEnabled));
      }
    }
  }

  /** `outdata[:, 0] = block`. */
  method WriteBlock(outdata: array<real>, block: seq<real>)
    requires outdata.Length == |block|
    modifies outdata
    ensures outdata[..] == block
  {
    forall k | 0 <= k < |block| {
      outdata[k] := block[k];
    }
  }

  /** The records of the sounds dictionary in iteration order. */
  function RecordsOf(sounds: map<string, Sound>, order: seq<string>): (recs: seq<Sound>)
    requires forall n :: n in order ==> n in sounds
    ensures |recs| == |order|
    ensures forall i :: 0 <= i < |order| ==> recs[i] == sounds[order[i]]
  {
    if order == [] then [] else RecordsOf(sounds, order[..|order| - 1]) + [sounds[order[|order| - 1]]]
  }

  /** Distinct names of a dictionary without shared records give distinct
      records. */
  lemma RecordsDistinct(sounds: map<string, Sound>, order: seq<string>)
    requires forall n :: n in order ==> n in sounds
    requires forall i, j :: 0 <= i < |order| && 0 <= j < |order| && i != j ==> order[i] != order[j]
    requires Distinct(sounds)
    ensures DistinctRecords(RecordsOf(sounds, order))
  {
  }
}
