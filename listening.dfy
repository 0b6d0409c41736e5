/**
 * The foreground listening service of the Android app: start/stop/toggle of
 * the microphone, the capture step that forwards what the recorder read, and
 * the conversion of a buffer of samples into little-endian octets ahead of
 * Base64 encoding.
 */
module ListeningService {
  import opened Pcm

  /** Size of the capture buffer, in samples. */
  const CaptureBufferSamples := 1024

  /** What became of the platform recorder the service holds. */
  datatype Recorder = NoRecorder | Uninitialized | Recording

  /** How constructing the platform recorder turned out. */
  datatype Creation = PermissionDenied | InitFailed | Initialized

  /**
   * The octets handed to Base64 for the first `length` samples of `audioData`:
   * octet `2i` is the low byte of sample `i` and octet `2i + 1` its high byte.
   */
  method ConvertToBytes(audioData: array<Sample>, length: int) returns (bytes: array<Octet>)
    requires 0 <= length <= audioData.Length
    ensures bytes.Length == 2 * length
    ensures bytes[..] == Pack(audioData[..length])
  {
    bytes := new Octet[length * 2];
    for i := 0 to length
      invariant forall k :: 0 <= k < i ==> bytes[2 * k] == Low(audioData[k]) && bytes[2 * k + 1] == High(audioData[k])
    {
      var value := audioData[i];
      bytes[i * 2] := value % 256;
      bytes[i * 2 + 1] := (value / 256) % 256;
    }
    var expected := Pack(audioData[..length]);
    forall j | 0 <= j < 2 * length ensures bytes[j] == expected[j] {
      var k := j / 2;
      assert audioData[..length][k] == audioData[k];
      if j % 2 == 0 {
        assert j == 2 * k;
      } else {
        assert j == 2 * k + 1;
      }
    }
  }

  class GeminiListeningService {
    var isListening: bool
    var recorder: Recorder
    var captureJobActive: bool
    /** Octet strings sent to the WebSocket, oldest first (each Base64-encoded on the wire). */
    var sent: seq<seq<Octet>>

    /** Listening, a recording recorder and a running capture job go together. */
    ghost predicate Valid()
      reads this
    {
      (isListening <==> recorder == Recording) && (captureJobActive <==> isListening)
    }

    constructor ()
      ensures Valid()
      ensures !isListening && recorder == NoRecorder && !captureJobActive && sent == []
    {
      isListening := false;
      recorder := NoRecorder;
      captureJobActive := false;
      sent := [];
    }

    /**
     * A no-op while listening. Otherwise a recorder is built; only when it
     * initialises does the service start recording, set the flag and launch
     * the capture job. A recorder that fails to initialise is kept but unused.
     */
    method StartListening(creation: Creation)
      requires Valid()
      modifies this
      ensures Valid() && sent == old(sent)
      ensures old(isListening) ==> isListening && recorder == old(recorder) && captureJobActive == old(captureJobActive)
      ensures !old(isListening) ==> match creation
        case PermissionDenied => !isListening && recorder == old(recorder)
        case InitFailed => !isListening && recorder == Uninitialized
        case Initialized => isListening && recorder == Recording && captureJobActive
    {
      if isListening {
        return;
      }
      match creation {
        case PermissionDenied =>
        case InitFailed =>
          recorder := Uninitialized;
        case Initialized =>
          recorder := Recording;
          isListening := true;
          captureJobActive := true;
      }
    }

    /** A no-op when not listening; otherwise clears the flag, cancels the job and releases the recorder. */
    method StopListening()
      requires Valid()
      modifies this
      ensures Valid() && sent == old(sent)
      ensures !old(isListening) ==> recorder == old(recorder) && !isListening
      ensures old(isListening) ==> !isListening && !captureJobActive && recorder == NoRecorder
    {
      if !isListening {
        return;
      }
      isListening := false;
      captureJobActive := false;
      recorder := NoRecorder;
    }

    /** Stops when listening and starts otherwise. */
    method ToggleListening(creation: Creation)
      requires Valid()
      modifies this
      ensures Valid() && sent == old(sent)
      ensures old(isListening) ==> !isListening && recorder == NoRecorder
      ensures !old(isListening) ==> (isListening <==> creation == Initialized)
    {
      if isListening {
        StopListening();
      } else {
        StartListening(creation);
      }
    }

    /**
     * One pass of the capture loop: `readSize` is what the recorder reported
     * (negative values are error codes). A chunk is sent only while listening
     * and only when something was read.
     */
    method CaptureStep(buffer: array<Sample>, readSize: int)
      requires Valid()
      requires buffer.Length == CaptureBufferSamples && readSize <= buffer.Length
      modifies this`sent
      ensures Valid()
      ensures if isListening && readSize > 0 then sent == old(sent) + [Pack(buffer[..readSize])] else sent == old(sent)
    {
      if isListening && readSize > 0 {
        var bytes := ConvertToBytes(buffer, readSize);
        sent := sent + [bytes[..]];
      }
    }
  }
}
