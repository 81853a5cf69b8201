/** The sequential side of the sound core: four channels, each with the
    tone it is playing (`gToneInfo`) and a bounded queue of tones to play
    next (`gToneSeqQueue`), a master volume per channel, the quiet flag and
    the 32-sample buffer `soundWrite` fills before handing a chunk to the
    I2S driver. Frequencies, phases and scales are reals. */
module SoundCore {
  import opened Ints

  const NumChannels := 4
  /** `kToneSeqQueueLength`. */
  const QueueLength := 32
  /** `SOUND_BUF_SIZE`. */
  const SoundBufSize := 32
  /** `kI2S_SamplingHz`. */
  const SamplingHz := 8000
  const TwoPi: real := 2.0 * 3.14159265359

  /** `ToneInfo`: whether the channel sounds, the phase step per sample
      (negative for noise), the time left in milliseconds and the
      amplitude (negative when no tone is loaded). */
  datatype ToneInfo = ToneInfo(isAlive: bool, deltaTheta: real, duration: real, scale: real)

  /** The phase step per sample of a tone of f Hz: 2π·f over twice the
      sampling rate; it has the sign of f. */
  function Phase(f: real): (d: real)
    ensures (d < 0.0) <==> (f < 0.0)
    ensures f == 0.0 ==> d == 0.0
  {
    TwoPi * f / (SamplingHz as real * 2.0)
  }

  /** The amplitude of a channel at a volume: volume/255 of a third of
      the int16 range, so that three channels at full volume still fit. */
  function Scale(volume: uint8): (a: real)
    ensures 0.0 <= a <= 32768.0 / 3.0
    ensures volume == 255 ==> a == 32768.0 / 3.0
  {
    volume as real / 255.0 * 32768.0 / 3.0
  }

  /** The packet `appendSeq` queues for a tone: a negative frequency is
      noise, marked by the phase step -1; any other frequency has a phase
      step of at least 0. */
  function Packet(f: real, d: int16, v: uint8): (t: ToneInfo)
    ensures t.isAlive && t.duration == d as real && t.scale == Scale(v)
    ensures f < 0.0 <==> t.deltaTheta < 0.0
    ensures f < 0.0 ==> t.deltaTheta == -1.0
  {
    ToneInfo(true, if f >= 0.0 then Phase(f) else -1.0, d as real, Scale(v))
  }

  /** What `getNextTone` makes of a queued packet: a live tone with the
      packet's phase step, duration and amplitude. */
  function Load(p: ToneInfo): (t: ToneInfo)
    ensures t.isAlive
  {
    ToneInfo(true, p.deltaTheta, p.duration, p.scale)
  }

  /** What `setToneInfo` makes of the current tone: frequency 0 silences
      it, a negative frequency turns it into noise, a positive one into a
      tone of the given duration; the amplitude is always replaced. */
  function SetTone(t: ToneInfo, f: real, d: int16, v: uint8): (r: ToneInfo)
    ensures r.scale == Scale(v)
    ensures r.isAlive <==> f != 0.0
    ensures f != 0.0 ==> (r.deltaTheta < 0.0 <==> f < 0.0)
  {
    var t' :=
      if f == 0.0 then t.(isAlive := false)
      else if f < 0.0 then t.(isAlive := true, deltaTheta := -1.0)
      else t.(isAlive := true, deltaTheta := Phase(f), duration := d as real);
    t'.(scale := Scale(v))
  }

  /** Playing a pitched tone at once gives the same tone as queueing it and
      loading it later. */
  lemma PitchedToneAgrees(t: ToneInfo, f: real, d: int16, v: uint8)
    requires f > 0.0
    ensures SetTone(t, f, d, v) == Load(Packet(f, d, v))
  {
  }

  /** Played at once, noise and silence keep the duration of the tone that
      was playing, where the queued packet carries its own; frequency 0
      silences the channel and a negative one makes noise. */
  lemma ImmediateTone(t: ToneInfo, f: real, d: int16, v: uint8)
    requires f <= 0.0
    ensures SetTone(t, f, d, v).duration == t.duration
    ensures SetTone(t, f, d, v).isAlive <==> f < 0.0
    ensures f < 0.0 ==> SetTone(t, f, d, v) == Load(Packet(f, d, v)).(duration := t.duration)
  {
  }

  /** The samples of a sequence of chunks, in order. */
  function Flatten(chunks: seq<seq<int16>>): seq<int16>
  {
    if |chunks| == 0 then [] else Flatten(chunks[..|chunks| - 1]) + chunks[|chunks| - 1]
  }

  lemma FlattenSnoc(chunks: seq<seq<int16>>, c: seq<int16>)
    ensures Flatten(chunks + [c]) == Flatten(chunks) + c
  {
    assert (chunks + [c])[..|chunks|] == chunks;
  }

  class Sound {
    const toneInfo: array<ToneInfo>
    const masterVolume: array<real>
    const soundBuf: array<int16>
    var queues: seq<seq<ToneInfo>>
    var quiet: bool
    var soundBufIndex: nat
    /** The chunks handed to the I2S driver so far. */
    var sent: seq<seq<int16>>
    /** Every sample `soundWrite` was given, in order. */
    ghost var samples: seq<int16>

    /** Four channels with queues of at most 32 tones; every sample written
        is either in a chunk already sent or waiting in the buffer, in
        order, and the buffer index stays below 32. */
    ghost predicate Valid()
      reads this, soundBuf
    {
      toneInfo.Length == NumChannels && masterVolume.Length == NumChannels
      && soundBuf.Length == SoundBufSize
      && |queues| == NumChannels
      && (forall i :: 0 <= i < NumChannels ==> |queues[i]| <= QueueLength)
      && soundBufIndex < SoundBufSize
      && (forall k :: 0 <= k < |sent| ==> |sent[k]| == SoundBufSize)
      && samples == Flatten(sent) + soundBuf[..soundBufIndex]
    }

    /** The part of `t2kSCoreInit` that is not driver set-up: no channel
        sounds, all queues are empty, every master volume is one half. */
    constructor ()
      ensures Valid() && fresh(toneInfo) && fresh(masterVolume) && fresh(soundBuf)
      ensures quiet && soundBufIndex == 0 && sent == []
      ensures forall i :: 0 <= i < NumChannels ==>
                !toneInfo[i].isAlive && queues[i] == [] && masterVolume[i] == 0.5
    {
      toneInfo := new ToneInfo[NumChannels](_ => ToneInfo(false, 0.0, 0.0, 0.0));
      masterVolume := new real[NumChannels](_ => 0.5);
      soundBuf := new int16[SoundBufSize](_ => 0);
      queues := [[], [], [], []];
      quiet := true;
      soundBufIndex := 0;
      sent := [];
      samples := [];
    }

    /** `t2kSetMasterVolume`: a negative channel sets every channel, a
        channel past the last one is refused and changes nothing. */
    method SetMasterVolume(channel: int8, volume: uint8) returns (ok: bool)
      requires Valid()
      modifies masterVolume
      ensures Valid()
      ensures ok <==> channel < NumChannels
      ensures channel < 0 ==> forall i :: 0 <= i < NumChannels ==> masterVolume[i] == volume as real / 255.0
      ensures 0 <= channel < NumChannels ==>
                masterVolume[..] == old(masterVolume[..])[channel := volume as real / 255.0]
      ensures channel >= NumChannels ==> masterVolume[..] == old(masterVolume[..])
    {
      var level := volume as real / 255.0;
      if channel < 0 {
        var i := 0;
        while i < NumChannels
          invariant 0 <= i <= NumChannels
          invariant forall k :: 0 <= k < i ==> masterVolume[k] == level
        {
          masterVolume[i] := level;
          i := i + 1;
        }
      } else {
        if channel >= NumChannels {
          return false;
        }
        masterVolume[channel] := level;
      }
      return true;
    }

    /** `t2kAddTone`: a non-blocking enqueue. A full queue refuses the
        tone and stays as it was; the quiet flag is cleared either way. */
    method AddTone(channel: uint8, f: real, d: int16, v: uint8) returns (ok: bool)
      requires Valid()
      modifies this
      ensures Valid()
      ensures channel >= NumChannels ==> !ok && queues == old(queues) && quiet == old(quiet)
      ensures channel < NumChannels ==> !quiet && (ok <==> |old(queues[channel])| < QueueLength)
      ensures ok ==> queues == old(queues)[channel := old(queues[channel]) + [Packet(f, d, v)]]
      ensures !ok ==> queues == old(queues)
      ensures soundBufIndex == old(soundBufIndex) && sent == old(sent) && samples == old(samples)
    {
      if channel >= NumChannels {
        return false;
      }
      quiet := false;
      ok := Append(channel, Packet(f, d, v));
    }

    /** `appendSeq` with a zero wait: `xQueueSend` on a bounded queue. */
    method Append(channel: nat, p: ToneInfo) returns (ok: bool)
      requires Valid() && channel < NumChannels
      modifies this
      ensures Valid()
      ensures ok <==> |old(queues[channel])| < QueueLength
      ensures ok ==> queues == old(queues)[channel := old(queues[channel]) + [p]]
      ensures !ok ==> queues == old(queues)
      ensures quiet == old(quiet)
      ensures soundBufIndex == old(soundBufIndex) && sent == old(sent) && samples == old(samples)
    {
      if |queues[channel]| < QueueLength {
        queues := queues[channel := queues[channel] + [p]];
        return true;
      }
      return false;
    }

    /** `t2kTone`, through `setToneInfo`: the channel's queue is emptied and
        its tone replaced at once. */
    method Tone(channel: uint8, f: real, d: int16, v: uint8) returns (ok: bool)
      requires Valid()
      modifies this, toneInfo
      ensures Valid()
      ensures ok <==> channel < NumChannels
      ensures !ok ==> queues == old(queues) && toneInfo[..] == old(toneInfo[..]) && quiet == old(quiet)
      ensures ok ==> (!quiet && queues == old(queues)[channel := []]
                      && toneInfo[..] == old(toneInfo[..])[channel := SetTone(old(toneInfo[channel]), f, d, v)])
      ensures soundBufIndex == old(soundBufIndex) && sent == old(sent) && samples == old(samples)
    {
      if channel >= NumChannels {
        return false;
      }
      quiet := false;
      queues := queues[channel := []];
      toneInfo[channel] := SetTone(toneInfo[channel], f, d, v);
      return true;
    }

    /** `t2kStartToneSeq`: the channel starts playing its queue. */
    method StartToneSeq(channel: uint8) returns (ok: bool)
      requires Valid()
      modifies this, toneInfo
      ensures Valid()
      ensures ok <==> channel < NumChannels
      ensures !ok ==> toneInfo[..] == old(toneInfo[..]) && quiet == old(quiet)
      ensures ok ==> !quiet && toneInfo[..] == old(toneInfo[..])[channel := old(toneInfo[channel]).(isAlive := true)]
      ensures queues == old(queues)
      ensures soundBufIndex == old(soundBufIndex) && sent == old(sent) && samples == old(samples)
    {
      if channel >= NumChannels {
        return false;
      }
      toneInfo[channel] := toneInfo[channel].(isAlive := true);
      quiet := false;
      return true;
    }

    /** `t2kClearToneSeq` for one channel: it stops, its queue is emptied,
        and the core is quiet exactly when no channel is left sounding. A
        channel is a uint8, so the branch for all channels (-1) is never
        taken. */
    method ClearToneSeq(channel: uint8) returns (ok: bool)
      requires Valid()
      modifies this, toneInfo
      ensures Valid()
      ensures ok <==> channel < NumChannels
      ensures !ok ==> toneInfo[..] == old(toneInfo[..]) && queues == old(queues) && quiet == old(quiet)
      ensures ok ==> (toneInfo[..] == old(toneInfo[..])[channel := old(toneInfo[channel]).(isAlive := false)]
                      && queues == old(queues)[channel := []]
                      && (quiet <==> forall i :: 0 <= i < NumChannels ==> !toneInfo[i].isAlive))
      ensures soundBufIndex == old(soundBufIndex) && sent == old(sent) && samples == old(samples)
    {
      if channel >= NumChannels {
        return false;
      }
      toneInfo[channel] := toneInfo[channel].(isAlive := false);
      var silent := true;
      var i := 0;
      while i < NumChannels
        invariant 0 <= i <= NumChannels
        invariant silent <==> forall k :: 0 <= k < i ==> !toneInfo[k].isAlive
      {
        if toneInfo[i].isAlive {
          silent := false;
          break;
        }
        i := i + 1;
      }
      quiet := silent;
      queues := queues[channel := []];
      return true;
    }

    /** `getNextTone`: a non-blocking dequeue. An empty queue, or a channel
        out of range, leaves everything as it was; otherwise the head of the
        queue becomes the channel's tone. */
    method GetNextTone(channel: int) returns (ok: bool)
      requires Valid()
      modifies this, toneInfo
      ensures Valid()
      ensures ok <==> 0 <= channel < NumChannels && |old(queues[channel])| > 0
      ensures !ok ==> toneInfo[..] == old(toneInfo[..]) && queues == old(queues)
      ensures ok ==> (queues == old(queues)[channel := old(queues[channel])[1..]]
                      && toneInfo[..] == old(toneInfo[..])[channel := Load(old(queues[channel])[0])])
      ensures quiet == old(quiet)
      ensures soundBufIndex == old(soundBufIndex) && sent == old(sent) && samples == old(samples)
    {
      if channel < 0 || NumChannels <= channel || |queues[channel]| == 0 {
        return false;
      }
      toneInfo[channel] := Load(queues[channel][0]);
      queues := queues[channel := queues[channel][1..]];
      return true;
    }

    /** `soundWrite`: the sample goes to the buffer at the current index;
        when the index reaches 32 it starts again at 0 and the full buffer
        is sent as one chunk, which holds the last 32 samples written. */
    method SoundWrite(v: int16) returns (flushed: bool)
      requires Valid()
      modifies this, soundBuf
      ensures Valid()
      ensures samples == old(samples) + [v]
      ensures soundBufIndex == (old(soundBufIndex) + 1) % SoundBufSize
      ensures flushed <==> old(soundBufIndex) == SoundBufSize - 1
      ensures sent == old(sent) + (if flushed then [soundBuf[..]] else [])
      ensures flushed ==> soundBuf[..] == samples[|samples| - SoundBufSize..]
      ensures queues == old(queues) && quiet == old(quiet)
    {
      ghost var before := soundBuf[..soundBufIndex];
      soundBuf[soundBufIndex] := v;
      assert soundBuf[..soundBufIndex + 1] == before + [v];
      soundBufIndex := soundBufIndex + 1;
      samples := samples + [v];
      if soundBufIndex == SoundBufSize {
        soundBufIndex := 0;
        assert soundBuf[..] == soundBuf[..SoundBufSize];
        FlattenSnoc(sent, soundBuf[..]);
        sent := sent + [soundBuf[..]];
        assert soundBuf[..soundBufIndex] == [];
        return true;
      }
      return false;
    }
  }
}
