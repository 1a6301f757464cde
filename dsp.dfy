/**
 * The audio sink device: writes accumulate bytes, control request 0 clears
 * them and control request 1 plays them through the PWM sound backend.
 */
module Audio {
  import opened Vfs

  /** Control request that clears the accumulated samples. */
  const RESET: uint32 := 0
  /** Control request that plays the accumulated samples. */
  const PLAY: uint32 := 1

  /** How the backend is set up and driven for every playback. */
  const SAMPLE_RATE: nat := 44100
  const BUFFER_FRAMES: nat := 2048
  const CHANNELS: nat := 1
  const BIT_DEPTH: nat := 8

  /** One playback handed to the backend: the samples, their length and the format. */
  datatype Playback = Playback(
    samples: seq<uint8>, length: nat, channels: nat, bitDepth: nat,
    sampleRate: nat, bufferFrames: nat)

  /** The device as observed: the accumulated samples and the playbacks so far. */
  datatype AudioState = AudioState(samples: seq<uint8>, played: seq<Playback>)

  /** The playback request 1 hands to the backend for `samples`. */
  function PlaybackOf(samples: seq<uint8>): (p: Playback)
    ensures p.samples == samples && p.length == |samples|
    ensures p.channels == 1 && p.bitDepth == 8
  {
    Playback(samples, |samples| / CHANNELS, CHANNELS, BIT_DEPTH, SAMPLE_RATE, BUFFER_FRAMES)
  }

  /** `write_at`: appends the whole buffer; there is no positional write. */
  function Write(s: AudioState, buf: seq<uint8>): (t: AudioState)
    ensures |t.samples| == |s.samples| + |buf|
    ensures t.samples[..|s.samples|] == s.samples && t.samples[|s.samples|..] == buf
    ensures t.played == s.played
  {
    s.(samples := s.samples + buf)
  }

  /** `ioctl`: reset, play, or accept and ignore. */
  function Control(s: AudioState, request: uint32): (t: AudioState)
    ensures t.samples == s.samples || t.samples == []
    ensures |s.played| <= |t.played| <= |s.played| + 1
    ensures t.played[..|s.played|] == s.played
    ensures |t.played| == |s.played| + 1 <==> request == PLAY
    ensures t.samples != s.samples ==> request == RESET
  {
    if request == RESET then s.(samples := [])
    else if request == PLAY then s.(played := s.played + [PlaybackOf(s.samples)])
    else s
  }

  /** Writes the buffers of `bufs` in order. */
  function WriteAll(s: AudioState, bufs: seq<seq<uint8>>): AudioState
    decreases |bufs|
  {
    if bufs == [] then s else WriteAll(Write(s, bufs[0]), bufs[1..])
  }

  /** The buffers of `bufs` joined end to end. */
  function Concat(bufs: seq<seq<uint8>>): seq<uint8>
  {
    if bufs == [] then [] else bufs[0] + Concat(bufs[1..])
  }

  /** The sum of the lengths of the buffers of `bufs`. */
  function TotalLength(bufs: seq<seq<uint8>>): nat
  {
    if bufs == [] then 0 else |bufs[0]| + TotalLength(bufs[1..])
  }

  /**
   * A sequence of writes appends exactly the written bytes, in order, so the
   * length grows by the sum of the written lengths; playbacks are untouched.
   */
  lemma {:induction false} WritesAccumulate(s: AudioState, bufs: seq<seq<uint8>>)
    ensures WriteAll(s, bufs).samples == s.samples + Concat(bufs)
    ensures |WriteAll(s, bufs).samples| == |s.samples| + TotalLength(bufs)
    ensures WriteAll(s, bufs).played == s.played
    decreases |bufs|
  {
    if bufs != [] {
      WritesAccumulate(Write(s, bufs[0]), bufs[1..]);
      assert s.samples + bufs[0] + Concat(bufs[1..]) == s.samples + Concat(bufs);
    }
  }

  /** After a reset, the samples are exactly what was written since, and as long as that. */
  lemma ResetThenWrites(s: AudioState, bufs: seq<seq<uint8>>)
    ensures WriteAll(Control(s, RESET), bufs).samples == Concat(bufs)
    ensures |WriteAll(Control(s, RESET), bufs).samples| == TotalLength(bufs)
  {
    WritesAccumulate(Control(s, RESET), bufs);
    assert [] + Concat(bufs) == Concat(bufs);
  }

  /** Reset empties the samples, keeps the playback history, and a second reset changes nothing. */
  lemma ResetIdempotent(s: AudioState)
    ensures Control(s, RESET).samples == [] && Control(s, RESET).played == s.played
    ensures Control(Control(s, RESET), RESET) == Control(s, RESET)
  {
  }

  /** Play leaves the samples as they are and hands exactly them, and their length, to the backend. */
  lemma PlayHandsOverSamples(s: AudioState)
    ensures Control(s, PLAY).samples == s.samples
    ensures |Control(s, PLAY).played| == |s.played| + 1
    ensures Control(s, PLAY).played[..|s.played|] == s.played
    ensures Control(s, PLAY).played[|s.played|].samples == s.samples
    ensures Control(s, PLAY).played[|s.played|].length == |s.samples|
  {
  }

  /** Playing does not clear the samples, so playing twice plays the same bytes twice. */
  lemma PlayTwiceReplays(s: AudioState)
    ensures Control(Control(s, PLAY), PLAY).played == s.played + [PlaybackOf(s.samples), PlaybackOf(s.samples)]
  {
  }

  /** Any request other than reset and play changes nothing. */
  lemma OtherRequestsIgnored(s: AudioState, request: uint32)
    requires request != RESET && request != PLAY
    ensures Control(s, request) == s
  {
  }

  /** The audio sink device. */
  class Dsp {
    /** The accumulated samples. */
    var buf: seq<uint8>
    /** The playbacks handed to the backend so far (a hardware effect). */
    ghost var played: seq<Playback>

    constructor ()
      ensures buf == [] && played == []
    {
      buf := [];
      played := [];
    }

    ghost function State(): AudioState
      reads this
    {
      AudioState(buf, played)
    }

    /** Appends all of `data`, whatever `offset`, and reports its length. */
    method WriteAt(offset: nat, data: seq<uint8>) returns (r: Result<nat, FsError>)
      modifies this
      ensures State() == Write(old(State()), data)
      ensures r == Ok(|data|)
    {
      buf := buf + data;
      r := Ok(|data|);
    }

    /** Resets, plays (returning once playback is over), or ignores `request`; always succeeds. */
    method Ioctl(request: uint32) returns (r: Result<(), IoctlError>)
      modifies this
      ensures State() == Control(old(State()), request)
      ensures r == Ok(())
    {
      if request == RESET {
        buf := [];
      } else if request == PLAY {
        var len := |buf| / CHANNELS;
        played := played + [Playback(buf, len, CHANNELS, BIT_DEPTH, SAMPLE_RATE, BUFFER_FRAMES)];
      }
      r := Ok(());
    }
  }
}
