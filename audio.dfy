/**
 * The conversation audio manager of the Android app: microphone capture in
 * chunks of 512 samples, the flush on stop, the FIFO queue of reply audio
 * played back from the head, the playback-volume clamp, and the two sample
 * helpers (mean-square level and little-endian decoding).
 */
module AudioPipeline {
  import opened Pcm

  /** `AUDIO_CHUNK_SIZE`: samples per read and the threshold for sending a chunk. */
  const ChunkSize := 512
  /** `AUDIO_PLAYBACK_VOLUME`, applied when the playback track is created. */
  const DefaultPlaybackVolume: real := 0.85

  datatype Recorder = NoRecorder | Uninitialized | Recording

  /** A reply chunk as it arrives: absent, not valid Base64, or the decoded octets. */
  datatype IncomingChunk = Missing | Malformed | Decoded(octets: seq<Octet>)

  function SumSquares(s: seq<Sample>): (n: nat)
  {
    if s == [] then 0 else var x: int := s[|s| - 1]; SumSquares(s[..|s| - 1]) + x * x
  }

  lemma {:induction false} MulMonotone(a: nat, b: nat, c: nat)
    requires b <= c
    ensures a * b <= a * c
  {
    if a > 0 {
      MulMonotone(a - 1, b, c);
      assert a * b == (a - 1) * b + b;
      assert a * c == (a - 1) * c + c;
    }
  }

  lemma SquareBound(x: Sample)
    ensures (x as int) * (x as int) <= 0x4000_0000
  {
    var a: nat := if x < 0 then -(x as int) else x as int;
    assert (x as int) * (x as int) == a * a;
    MulMonotone(a, a, 32768);
    MulMonotone(32768, a, 32768);
    assert a * 32768 == 32768 * a;
  }

  /** Each square is at most 32768², so the sum is at most `|s|` times that. */
  lemma {:induction false} SumSquaresBound(s: seq<Sample>)
    ensures SumSquares(s) <= |s| * 0x4000_0000
  {
    if s != [] {
      var n := |s| - 1;
      SumSquaresBound(s[..n]);
      SquareBound(s[n]);
      assert |s| * 0x4000_0000 == n * 0x4000_0000 + 0x4000_0000;
    }
  }

  /**
   * The mean square of the first `size` samples, rounded down, and 0 when
   * `size` is not positive. The 64-bit accumulator cannot overflow for a
   * buffer of fewer than 2^33 samples, which the model therefore does not track.
   */
  method CalculateAudioLevel(buffer: array<Sample>, size: int) returns (level: int)
    requires size <= buffer.Length
    ensures level == if size > 0 then SumSquares(buffer[..size]) / size else 0
  {
    var sum := 0;
    var i := 0;
    while i < size
      invariant 0 <= i <= if size > 0 then size else 0
      invariant sum == SumSquares(buffer[..i])
    {
      assert buffer[..i + 1][..i] == buffer[..i];
      var v: int := buffer[i];
      sum := sum + v * v;
      i := i + 1;
    }
    level := if size > 0 then sum / size else 0;
  }

  /** The level lies in [0, 2^30], so the conversion of the mean to a 32-bit `Int` never truncates. */
  lemma AudioLevelRange(s: seq<Sample>)
    requires |s| > 0
    ensures 0 <= SumSquares(s) / |s| <= 0x4000_0000
  {
    SumSquaresBound(s);
  }

  /** `ByteArray.asShortArray()`: `|bytes| / 2` samples read little-endian; an odd last octet is dropped. */
  method AsShortArray(bytes: array<Octet>) returns (shorts: array<Sample>)
    ensures shorts[..] == Unpack(bytes[..])
  {
    shorts := new Sample[bytes.Length / 2];
    for i := 0 to shorts.Length
      invariant forall k :: 0 <= k < i ==> shorts[k] == FromBytes(bytes[2 * k], bytes[2 * k + 1])
    {
      shorts[i] := FromBytes(bytes[2 * i], bytes[2 * i + 1]);
    }
  }

  /** `coerceIn(0.0f, 1.0f)`. */
  function ClampVolume(v: real): (r: real)
    ensures 0.0 <= r <= 1.0
    ensures 0.0 <= v <= 1.0 ==> r == v
    ensures v < 0.0 ==> r == 0.0
    ensures v > 1.0 ==> r == 1.0
  {
    if v < 0.0 then 0.0 else if v > 1.0 then 1.0 else v
  }

  class AudioManager {
    var isRecording: bool
    var isPlayingAudio: bool
    var recorder: Recorder
    /** Samples read but not yet sent. */
    var pcmData: seq<Sample>
    /** Octet strings handed to the chunk callback, oldest first (each Base64-encoded on the wire). */
    var chunksSent: seq<seq<Octet>>
    /** Decoded reply chunks waiting to be played. */
    var audioQueue: seq<seq<Octet>>
    /** Reply chunks written to the playback track, oldest first. */
    var played: seq<seq<Octet>>
    var hasTrack: bool
    var trackVolume: real

    /** Pending samples never reach a full chunk, and playback is idle between calls. */
    ghost predicate Valid()
      reads this
    {
      |pcmData| < ChunkSize && !isPlayingAudio && audioQueue == []
    }

    constructor ()
      ensures Valid()
      ensures !isRecording && recorder == NoRecorder && pcmData == [] && chunksSent == []
      ensures played == [] && !hasTrack
    {
      isRecording := false;
      isPlayingAudio := false;
      recorder := NoRecorder;
      pcmData := [];
      chunksSent := [];
      audioQueue := [];
      played := [];
      hasTrack := false;
      trackVolume := 0.0;
    }

    /**
     * A no-op while recording. Otherwise the recording flag is raised before
     * the permission and initialisation checks, so it stays raised when
     * either fails; only a recorder that initialises starts recording.
     */
    method StartAudioInput(permissionGranted: bool, initialises: bool)
      requires Valid()
      modifies this`isRecording, this`recorder
      ensures Valid()
      ensures isRecording
      ensures old(isRecording) ==> recorder == old(recorder)
      ensures !old(isRecording) && !permissionGranted ==> recorder == old(recorder)
      ensures !old(isRecording) && permissionGranted ==> recorder == if initialises then Recording else Uninitialized
    {
      if isRecording {
        return;
      }
      isRecording := true;
      if !permissionGranted {
        return;
      }
      if !initialises {
        recorder := Uninitialized;
        return;
      }
      recorder := Recording;
    }

    /** Packs all pending samples into one little-endian chunk and hands it on; nothing happens when none are pending. */
    method RecordChunk()
      modifies this`chunksSent, this`pcmData
      ensures pcmData == []
      ensures chunksSent == if old(pcmData) == [] then old(chunksSent) else old(chunksSent) + [Pack(old(pcmData))]
    {
      if pcmData == [] {
        return;
      }
      chunksSent := chunksSent + [Pack(pcmData)];
      pcmData := [];
    }

    /**
     * One pass of the capture loop with a 512-sample buffer: a positive
     * `readSize` appends that many samples, and reaching 512 pending samples
     * sends them as one chunk.
     */
    method CaptureStep(buffer: seq<Sample>, readSize: int)
      requires Valid() && |buffer| == ChunkSize && readSize <= ChunkSize
      modifies this`chunksSent, this`pcmData
      ensures Valid()
      ensures var pending := if isRecording && recorder == Recording && readSize > 0
                             then old(pcmData) + buffer[..readSize] else old(pcmData);
              if |pending| >= ChunkSize
              then pcmData == [] && chunksSent == old(chunksSent) + [Pack(pending)]
              else pcmData == pending && chunksSent == old(chunksSent)
      ensures Pack(old(pcmData)) + (if isRecording && recorder == Recording && readSize > 0 then Pack(buffer[..readSize]) else [])
           == Flatten(chunksSent[|old(chunksSent)|..]) + Pack(pcmData)
    {
      if !(isRecording && recorder == Recording) {
        return;
      }
      if readSize > 0 {
        PackAppend(pcmData, buffer[..readSize]);
        pcmData := pcmData + buffer[..readSize];
        if |pcmData| >= ChunkSize {
          RecordChunk();
        }
      }
    }

    /**
     * A no-op when not recording; otherwise clears the flag and flushes
     * pending samples, then stops and releases the recorder. `stop()` on a
     * recorder that never initialised throws, so `ok` is false and that
     * recorder is neither released nor dropped.
     */
    method StopAudioInput() returns (ok: bool)
      requires Valid()
      modifies this`isRecording, this`recorder, this`chunksSent, this`pcmData
      ensures Valid() && !isRecording
      ensures ok <==> !(old(isRecording) && old(recorder) == Uninitialized)
      ensures !old(isRecording) ==> recorder == old(recorder) && pcmData == old(pcmData) && chunksSent == old(chunksSent)
      ensures old(isRecording) ==> pcmData == []
      ensures old(isRecording) ==> recorder == if old(recorder) == Uninitialized then Uninitialized else NoRecorder
      ensures old(isRecording) ==> chunksSent == if old(pcmData) == [] then old(chunksSent) else old(chunksSent) + [Pack(old(pcmData))]
    {
      if !isRecording {
        return true;
      }
      isRecording := false;
      if pcmData != [] {
        RecordChunk();
      }
      if recorder == Uninitialized {
        return false;
      }
      recorder := NoRecorder;
      return true;
    }

    /** Plays queued chunks from the head until the queue is empty; the track is created on first use. */
    method PlayNextAudioChunk()
      modifies this`audioQueue, this`played, this`isPlayingAudio, this`hasTrack, this`trackVolume
      ensures audioQueue == [] && !isPlayingAudio && hasTrack == (old(hasTrack) || old(audioQueue) != [])
      ensures played == old(played) + old(audioQueue)
      ensures trackVolume == if !old(hasTrack) && old(audioQueue) != [] then DefaultPlaybackVolume else old(trackVolume)
    {
      while audioQueue != []
        invariant old(played) + old(audioQueue) == played + audioQueue
        invariant hasTrack == (old(hasTrack) || |played| > |old(played)|)
        invariant trackVolume == if !old(hasTrack) && |played| > |old(played)| then DefaultPlaybackVolume else old(trackVolume)
        decreases |audioQueue|
      {
        var chunk := audioQueue[0];
        audioQueue := audioQueue[1..];
        isPlayingAudio := true;
        if !hasTrack {
          hasTrack := true;
          trackVolume := DefaultPlaybackVolume;
        }
        played := played + [chunk];
      }
      isPlayingAudio := false;
    }

    /** A decoded reply chunk joins the tail of the queue, and playback drains the queue when idle. */
    method IngestAudioChunkToPlay(chunk: IncomingChunk)
      requires Valid()
      modifies this`audioQueue, this`played, this`isPlayingAudio, this`hasTrack, this`trackVolume
      ensures Valid()
      ensures played == old(played) + (if chunk.Decoded? then [chunk.octets] else [])
    {
      if !chunk.Decoded? {
        return;
      }
      audioQueue := audioQueue + [chunk.octets];
      if !isPlayingAudio {
        PlayNextAudioChunk();
      }
    }

    /** Applies the clamped volume to the playback track, if one exists. */
    method SetPlaybackVolume(volume: real)
      modifies this`trackVolume
      ensures trackVolume == if hasTrack then ClampVolume(volume) else old(trackVolume)
    {
      if hasTrack {
        trackVolume := ClampVolume(volume);
      }
    }
  }

  function Flatten(chunks: seq<seq<Octet>>): (r: seq<Octet>)
  {
    if chunks == [] then [] else chunks[0] + Flatten(chunks[1..])
  }
}
