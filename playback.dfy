/** The playback objects the tests drive: the mock audio player and the
    observable contract of the PCM stream over a 16-bit sample buffer. */
module Playback {
  import opened Wrappers
  import opened Pcm16

  /** `MockAudioPlayer`: records the last buffer it was asked to play. */
  class MockAudioPlayer {
    var playedAudio: seq<Byte>
    /** Go's `time.Duration`, a signed count of nanoseconds; the sleep itself
        is not modelled. */
    var duration: int
    var played: bool

    /** The zero value the tests start from, with the given duration. */
    constructor (duration: int)
      ensures playedAudio == [] && this.duration == duration && !played
    {
      playedAudio := [];
      this.duration := duration;
      played := false;
    }

    /** `Play` stores the buffer, marks the player as having played, and never
        reports an error. */
    method Play(audioData: seq<Byte>) returns (err: Option<string>)
      modifies this
      ensures err == None
      ensures playedAudio == audioData && played
      ensures duration == old(duration)
    {
      playedAudio := audioData;
      played := true;
      err := None;
    }
  }

  /** `PCMStream` as far as the tests observe it: a buffer of 16-bit samples,
      its sample rate, a position counted in samples, and an error state. */
  class PcmStream {
    const data: seq<Byte>
    const sampleRate: int
    var position: int
    var failure: Option<string>

    /** The position lies within the buffer and no error has been recorded:
        no operation the tests perform makes the stream fail. */
    ghost predicate Valid()
      reads this
    {
      0 <= position <= Len() && failure == None
    }

    /** The struct literal `&PCMStream{data: d, sampleRate: r, position: 0}`;
        the error state starts as Go's nil. */
    constructor (data: seq<Byte>, sampleRate: int)
      ensures Valid()
      ensures this.data == data && this.sampleRate == sampleRate
      ensures Position() == 0 && Err() == None
      ensures Len() == |data| / 2
    {
      this.data := data;
      this.sampleRate := sampleRate;
      position := 0;
      failure := None;
    }

    /** Number of whole 16-bit samples in the buffer. */
    function Len(): (n: nat)
      ensures 2 * n <= |data| < 2 * n + 2
    {
      |data| / 2
    }

    /** The current sample; in a valid stream it lies within the buffer. */
    function Position(): (p: int)
      reads this
      ensures Valid() ==> 0 <= p <= Len()
    {
      position
    }

    /** The recorded error, None for Go's nil; a valid stream has none. */
    function Err(): (e: Option<string>)
      reads this
      ensures Valid() ==> e == None
    {
      failure
    }

    /** Seeking to a sample inside the buffer succeeds and moves the position
        there; the buffer, the rate and the error state stay as they were. */
    method Seek(target: int) returns (err: Option<string>)
      requires Valid()
      requires 0 <= target <= Len()
      modifies this`position
      ensures Valid()
      ensures err == None && Position() == target
    {
      position := target;
      err := None;
    }
  }

  /** The playback check of the Google test: the encoded buffer is handed to
      the player unchanged, playback reports no error, and the buffer holds two
      bytes per sample. */
  method AudioPlaybackScenario(samples: seq<Int16>)
    returns (err: Option<string>, played: bool, playedAudio: seq<Byte>, audio: seq<Byte>)
    ensures err == None && played
    ensures playedAudio == audio && |audio| == 2 * |samples|
    ensures Decode(playedAudio) == samples
  {
    var buffer := EncodeSamples(samples);
    audio := buffer[..];
    var player := new MockAudioPlayer(100);
    err := player.Play(audio);
    played := player.played;
    playedAudio := player.playedAudio;
  }

  /** The stream check of the integration test: a stream over an encoded
      buffer reports one sample per two bytes, starts at position 0 with no
      error, and `Seek(100)` succeeds and moves the position to 100. */
  method PcmStreamScenario(samples: seq<Int16>)
    returns (length: int, start: int, initialErr: Option<string>, seekErr: Option<string>, after: int)
    requires |samples| >= 100
    ensures length == |samples|
    ensures start == 0 && initialErr == None
    ensures seekErr == None && after == 100
  {
    var buffer := EncodeSamples(samples);
    var stream := new PcmStream(buffer[..], 24000);
    length := stream.Len();
    start := stream.Position();
    initialErr := stream.Err();
    seekErr := stream.Seek(100);
    after := stream.Position();
  }
}
