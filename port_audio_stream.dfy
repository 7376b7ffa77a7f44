/**
 * The PortAudio capture stream of `PortAudioStream.java`: connecting a native
 * input stream to a device, starting and stopping it, reading buffers from it
 * while it is marked busy, and the listener that disconnects it before the
 * native device list is refreshed and restores it afterwards.
 *
 * The native library `Pa` is an abstract backend (`NativeBackend`) whose calls
 * succeed or fail nondeterministically; a ghost log records the calls issued.
 * Threads are not modelled: a method's body runs atomically, and waiting on the
 * stream's monitor is modelled as the concurrently running `read` finishing.
 */
module PortAudio {
  import opened JavaLang
  import opened Media

  /** `Pa.DEFAULT_MILLIS_PER_BUFFER`: the duration of audio one read covers. */
  const DEFAULT_MILLIS_PER_BUFFER: int := 20

  /** `Pa.paNoDevice`: the index of a device PortAudio does not know. */
  const paNoDevice: int := -1

  /** A Java `byte`. */
  newtype byte = x: int | -128 <= x < 128

  /** The error code of a `PortAudioException`: `paTimedOut` or another code. */
  datatype PaError = TimedOut | OtherError(code: int)

  /** The result of a native call that returns a value or throws a `PortAudioException`. */
  datatype PaResult<T> = Success(value: T) | Failure(error: PaError)

  /** The result of a native call that returns nothing or throws. */
  datatype PaStatus = NoError | Failed(error: PaError)

  /** A native call, as recorded in `NativeBackend.log`. */
  datatype PaCall =
    | NewParametersCall(deviceIndex: int, channels: int, sampleSizeInBits: int)
    | FreeParametersCall(parameters: int)
    | OpenCall(parameters: int, sampleRate: int, framesPerBuffer: int)
    | CloseCall(stream: int)
    | StartCall(stream: int)
    | StopCall(stream: int)
    | ReadCall(stream: int)

  /** The exceptions the stream's methods throw. */
  datatype StreamError =
    | Disconnected               // read on a disconnected stream
    | Stopped                    // read on a stopped stream
    | OpenFailed(cause: PaError) // StreamParameters_new or OpenStream threw
    | StreamNotOpened            // OpenStream returned the null stream
    | CloseFailed(cause: PaError)
    | StartFailed(cause: PaError)
    | StopFailed(cause: PaError)
    | ReadFailed(cause: PaError)
    | NegativeArraySize          // a read had to allocate a buffer of negative size

  /** How a method ended: normally, or by throwing. */
  datatype Outcome = Done | Thrown(error: StreamError)

  /** The index of the first occurrence of `x` in `s`, or `paNoDevice`. */
  function IndexOf(s: seq<string>, x: string): (i: int)
    ensures i == paNoDevice <==> x !in s
    ensures i != paNoDevice ==> 0 <= i < |s| && s[i] == x && x !in s[..i]
  {
    if x !in s then paNoDevice
    else if s[0] == x then 0
    else
      var j := IndexOf(s[1..], x);
      assert s[..j + 1] == [s[0]] + s[1..][..j];
      j + 1
  }

  predicate NoOpenIn(calls: seq<PaCall>) {
    forall i :: 0 <= i < |calls| ==> !calls[i].OpenCall?
  }

  /** `calls` open a stream on some parameters, at this rate and buffer size, and then free those parameters. */
  predicate FreedAfterFailedOpen(calls: seq<PaCall>, sampleRate: int, framesPerBuffer: int) {
    && |calls| == 2
    && calls[0].OpenCall? && calls[0].parameters != 0
    && calls[0].sampleRate == sampleRate && calls[0].framesPerBuffer == framesPerBuffer
    && calls[1] == FreeParametersCall(calls[0].parameters)
  }

  /**
   * The static native interface `Pa`. The devices PortAudio enumerates and the
   * per-stream quality settings are state; every other result is chosen freely.
   */
  class NativeBackend {
    /** The IDs (UID or name) of the devices PortAudio enumerates, by device index. */
    var devices: seq<string>
    /** `Pa.GetSampleSize(Pa.getPaSampleFormat(bits))`: bytes per sample for a sample size in bits. */
    const sampleSize: int -> int
    /** What `Pa.setDenoise` and `Pa.setEchoFilterLengthInMillis` last set for each stream. */
    var denoise: map<int, bool>
    var echoFilterLengthInMillis: map<int, int>
    /** Every native call issued, oldest first. */
    ghost var log: seq<PaCall>

    constructor (devices: seq<string>, sampleSize: int -> int)
      ensures this.devices == devices && this.sampleSize == sampleSize
      ensures denoise == map[] && echoFilterLengthInMillis == map[] && log == []
    {
      this.devices := devices;
      this.sampleSize := sampleSize;
      denoise := map[];
      echoFilterLengthInMillis := map[];
      log := [];
    }

    /** `Pa.getDeviceIndex`: where the device with this ID is in the device list. */
    function GetDeviceIndex(deviceID: Option<string>): (index: int)
      reads this
      ensures index == paNoDevice <==> deviceID.None? || deviceID.value !in devices
      ensures index != paNoDevice ==> 0 <= index < |devices| && devices[index] == deviceID.value
    {
      if deviceID.None? then paNoDevice else IndexOf(devices, deviceID.value)
    }

    /** The enumeration pass that refreshes the device list. */
    method UpdateAvailableDeviceList(refreshed: seq<string>)
      modifies this`devices
      ensures devices == refreshed
    {
      devices := refreshed;
    }

    /**
     * `Pa.StreamParameters_new`: a native pointer, never 0. The sample format is
     * the one `Pa.getPaSampleFormat` gives for `sampleSizeInBits`.
     */
    method StreamParametersNew(deviceIndex: int, channels: int, sampleSizeInBits: int) returns (r: PaResult<int>)
      modifies this`log
      ensures log == old(log) + [NewParametersCall(deviceIndex, channels, sampleSizeInBits)]
      ensures r.Success? ==> r.value != 0
    {
      log := log + [NewParametersCall(deviceIndex, channels, sampleSizeInBits)];
      // a witness that some result is a non-zero pointer, for the choice below
      var pointer: PaResult<int> := Success(1);
      assert pointer.Success? ==> pointer.value != 0;
      r :| r.Success? ==> r.value != 0;
    }

    /** `Pa.StreamParameters_free`. */
    method StreamParametersFree(parameters: int)
      requires parameters != 0
      modifies this`log
      ensures log == old(log) + [FreeParametersCall(parameters)]
    {
      log := log + [FreeParametersCall(parameters)];
    }

    /** `Pa.OpenStream`: a native stream pointer, which may be 0. */
    method OpenStream(inputParameters: int, sampleRate: int, framesPerBuffer: int) returns (r: PaResult<int>)
      requires inputParameters != 0
      modifies this`log
      ensures log == old(log) + [OpenCall(inputParameters, sampleRate, framesPerBuffer)]
    {
      log := log + [OpenCall(inputParameters, sampleRate, framesPerBuffer)];
      r :| true;
    }

    method CloseStream(stream: int) returns (s: PaStatus)
      requires stream != 0
      modifies this`log
      ensures log == old(log) + [CloseCall(stream)]
    {
      log := log + [CloseCall(stream)];
      s :| true;
    }

    method StartStream(stream: int) returns (s: PaStatus)
      requires stream != 0
      modifies this`log
      ensures log == old(log) + [StartCall(stream)]
    {
      log := log + [StartCall(stream)];
      s :| true;
    }

    method StopStream(stream: int) returns (s: PaStatus)
      requires stream != 0
      modifies this`log
      ensures log == old(log) + [StopCall(stream)]
    {
      log := log + [StopCall(stream)];
      s :| true;
    }

    /** `Pa.ReadStream`: fills `data` with captured samples. */
    method ReadStream(stream: int, data: array<byte>, frames: int) returns (s: PaStatus)
      requires stream != 0
      modifies this`log, data
      ensures log == old(log) + [ReadCall(stream)]
    {
      log := log + [ReadCall(stream)];
      s :| true;
    }

    method SetDenoise(stream: int, enabled: bool)
      modifies this`denoise
      ensures denoise == old(denoise)[stream := enabled]
    {
      denoise := denoise[stream := enabled];
    }

    method SetEchoFilterLengthInMillis(stream: int, length: int)
      modifies this`echoFilterLengthInMillis
      ensures echoFilterLengthInMillis == old(echoFilterLengthInMillis)[stream := length]
    {
      echoFilterLengthInMillis := echoFilterLengthInMillis[stream := length];
    }
  }

  /** The JMF `Buffer` a read fills; `data` is its data when that is a `byte[]`, and null otherwise. */
  class Buffer {
    var data: array?<byte>
    var length: int
    var offset: int
    var sequenceNumber: int
    var format: Option<AudioFormat>

    constructor (data: array?<byte>)
      ensures this.data == data && length == 0 && offset == 0 && sequenceNumber == 0 && format.None?
    {
      this.data := data;
      length, offset, sequenceNumber := 0, 0, 0;
      format := None;
    }
  }

  // ---------------------------------------------------------------------------
  // What connect derives from the format

  /** The channel count, frames per buffer and bytes per buffer a stream is opened with. */
  datatype BufferGeometry = BufferGeometry(channels: int, framesPerBuffer: int, bytesPerBuffer: int)

  /**
   * The geometry `connect` derives from `f`: an unspecified channel count means
   * mono, a buffer holds the whole frames of `DEFAULT_MILLIS_PER_BUFFER`
   * milliseconds of audio split over the channels, and its size in bytes is
   * computed in `int` arithmetic.
   */
  function BufferGeometryOf(f: AudioFormat, bytesPerSample: int): (g: BufferGeometry)
    ensures g.channels == (if f.channels == NOT_SPECIFIED then 1 else f.channels)
    ensures IsInt(g.framesPerBuffer) && IsInt(g.bytesPerBuffer)
    ensures 0 <= f.sampleRate && 0 < g.channels && IsInt(g.channels * 1000)
            && (f.sampleRate * DEFAULT_MILLIS_PER_BUFFER) / (g.channels * 1000) <= INT_MAX
            ==> 0 <= g.framesPerBuffer
                && g.framesPerBuffer * (g.channels * 1000) <= f.sampleRate * DEFAULT_MILLIS_PER_BUFFER
                && f.sampleRate * DEFAULT_MILLIS_PER_BUFFER < (g.framesPerBuffer + 1) * (g.channels * 1000)
    ensures IsInt(bytesPerSample * g.channels * g.framesPerBuffer)
            ==> g.bytesPerBuffer == bytesPerSample * g.channels * g.framesPerBuffer
  {
    var channels := if f.channels == NOT_SPECIFIED then 1 else f.channels;
    var n := f.sampleRate * DEFAULT_MILLIS_PER_BUFFER;
    var frames := IntOfQuotient(n, WrapInt(channels * 1000));
    FramesOfQuotient(n, channels * 1000);
    BufferGeometry(channels, frames, WrapInt(bytesPerSample * channels * frames))
  }

  /** The `int` quotient of non-negative operands in range is the floor quotient. */
  lemma FramesOfQuotient(n: int, d: int)
    ensures 0 <= n && 0 < d && IsInt(d) && n / d <= INT_MAX ==>
              var q := IntOfQuotient(n, WrapInt(d));
              0 <= q && q * d <= n < (q + 1) * d
  {
    if 0 <= n && 0 < d && IsInt(d) && n / d <= INT_MAX {
      assert WrapInt(d) == d;
      DivisionBounds(n, d);
      assert TruncatedQuotient(n, d) == n / d;
    }
  }

  /** `AudioQualityImprovement`-related settings of the device configuration. */
  datatype AudioQuality = AudioQuality(denoise: bool, echoCancel: bool, echoCancelFilterLengthInMillis: int)

  /** The denoise flag and echo filter length `connect` applies to a new stream. */
  datatype QualitySettings = QualitySettings(denoise: bool, echoFilterLengthInMillis: int)

  /**
   * The settings applied to a newly opened stream: those of the device
   * configuration when there is one, otherwise the defaults, and in either case
   * only when audio quality improvement is enabled.
   */
  function QualitySettingsOf(audioQualityImprovement: bool, configured: Option<AudioQuality>, defaults: AudioQuality): (q: QualitySettings)
    ensures var c := if configured.Some? then configured.value else defaults;
      && (q.denoise <==> audioQualityImprovement && c.denoise)
      && (q.echoFilterLengthInMillis != 0 ==> audioQualityImprovement && c.echoCancel)
      && (audioQualityImprovement && c.echoCancel ==> q.echoFilterLengthInMillis == c.echoCancelFilterLengthInMillis)
  {
    var c := if configured.Some? then configured.value else defaults;
    QualitySettings(
      audioQualityImprovement && c.denoise,
      if audioQualityImprovement && c.echoCancel then c.echoCancelFilterLengthInMillis else 0)
  }

  /** The format a connected stream reports: little-endian signed linear PCM with the channel count it was opened with. */
  function CaptureFormat(f: AudioFormat, channels: int): AudioFormat {
    AudioFormat(LINEAR, f.sampleRate, f.sampleSizeInBits, channels, LITTLE_ENDIAN, SIGNED)
  }

  // ---------------------------------------------------------------------------
  // The stream

  class PortAudioStream {
    const pa: NativeBackend
    const audioQualityImprovement: bool
    /** The format the stream's `FormatControl` reports, used when `format` is null. */
    const controlFormat: AudioFormat
    /** The device configuration's quality settings, when a media service provides one. */
    const configuredQuality: Option<AudioQuality>
    /** The `DeviceConfiguration.DEFAULT_AUDIO_*` settings. */
    const defaultQuality: AudioQuality

    var bytesPerBuffer: int
    var deviceID: Option<string>
    var format: Option<AudioFormat>
    var framesPerBuffer: int
    var inputParameters: int
    var sequenceNumber: int
    var started: bool
    var stream: int
    var streamIsBusy: bool

    /**
     * A stream is open only for a device; its parameters and format exist exactly
     * while it is open; it is started only while open; and it is busy only while
     * a read of a started stream is in progress.
     */
    ghost predicate Valid()
      reads this
    {
      && (stream != 0 ==> deviceID.Some?)
      && (stream == 0 <==> inputParameters == 0)
      && (stream == 0 <==> format.None?)
      && (started ==> stream != 0)
      && (streamIsBusy ==> stream != 0 && started)
      && IsInt(sequenceNumber) && IsInt(framesPerBuffer) && IsInt(bytesPerBuffer)
    }

    constructor (pa: NativeBackend, audioQualityImprovement: bool, controlFormat: AudioFormat,
                 configuredQuality: Option<AudioQuality>, defaultQuality: AudioQuality)
      ensures Valid()
      ensures this.pa == pa && this.audioQualityImprovement == audioQualityImprovement
      ensures this.controlFormat == controlFormat
      ensures this.configuredQuality == configuredQuality && this.defaultQuality == defaultQuality
      ensures deviceID.None? && stream == 0 && !started && !streamIsBusy && sequenceNumber == 0
    {
      this.pa := pa;
      this.audioQualityImprovement := audioQualityImprovement;
      this.controlFormat := controlFormat;
      this.configuredQuality := configuredQuality;
      this.defaultQuality := defaultQuality;
      bytesPerBuffer, framesPerBuffer := 0, 0;
      deviceID, format := None, None;
      inputParameters, stream := 0, 0;
      sequenceNumber := 0;
      started, streamIsBusy := false, false;
    }

    /** `getFormat()`: the format of the open stream, otherwise the one its `FormatControl` reports. */
    function GetFormat(): (f: AudioFormat)
      reads this
      ensures Valid() && stream != 0 ==> format == Some(f)
      ensures Valid() && stream == 0 ==> f == controlFormat
    {
      if format.Some? then format.value else controlFormat
    }

    /** The geometry `connect` opens a stream with. */
    function Geometry(): BufferGeometry {
      BufferGeometryOf(controlFormat, pa.sampleSize(controlFormat.sampleSizeInBits))
    }

    /** The native calls `connect` makes first: the parameters for the device, then the open. */
    function NewParametersFor(deviceID: Option<string>): PaCall
      reads pa
    {
      NewParametersCall(pa.GetDeviceIndex(deviceID), Geometry().channels, controlFormat.sampleSizeInBits)
    }

    /** The state `connect` leaves when it opens the stream, given the backend's settings before. */
    ghost predicate OpenedAsConfigured(oldDenoise: map<int, bool>, oldEcho: map<int, int>)
      reads this, pa
    {
      var g := Geometry();
      var q := QualitySettingsOf(audioQualityImprovement, configuredQuality, defaultQuality);
      && stream != 0
      && format == Some(CaptureFormat(controlFormat, g.channels))
      && framesPerBuffer == g.framesPerBuffer
      && bytesPerBuffer == g.bytesPerBuffer
      && pa.denoise == oldDenoise[stream := q.denoise]
      && pa.echoFilterLengthInMillis == oldEcho[stream := q.echoFilterLengthInMillis]
    }

    /** The wait of `wait()`: the thread executing `read` clears the busy flag and notifies. */
    method AwaitReadCompletion()
      requires Valid()
      modifies this`streamIsBusy
      ensures Valid() && !streamIsBusy
    {
      streamIsBusy := false;
    }

    /** `waitWhileStreamIsBusy`: returns once the stream is closed or not busy. */
    method WaitWhileStreamIsBusy()
      requires Valid()
      modifies this`streamIsBusy
      ensures Valid()
      ensures stream == 0 || !streamIsBusy
      ensures !old(streamIsBusy) ==> !streamIsBusy
    {
      while stream != 0 && streamIsBusy
        invariant Valid()
        invariant !old(streamIsBusy) ==> !streamIsBusy
        decreases streamIsBusy
      {
        AwaitReadCompletion();
      }
    }

    /**
     * The `try`/`finally` of `connect`: makes the input parameters for the
     * device and opens the stream on them, freeing the parameters when no
     * stream opened.
     */
    method OpenNativeStream() returns (r: Outcome)
      requires deviceID.Some? && stream == 0 && inputParameters == 0
      modifies this`inputParameters, this`stream, pa`log
      ensures r.Done? ==>
                && stream != 0 && inputParameters != 0
                && pa.log == old(pa.log) + [NewParametersFor(deviceID),
                                            OpenCall(inputParameters, controlFormat.sampleRate, Geometry().framesPerBuffer)]
      ensures r.Thrown? ==>
                && stream == 0 && inputParameters == 0 && (r.error.OpenFailed? || r.error == StreamNotOpened)
                && |old(pa.log)| < |pa.log| && pa.log[..|old(pa.log)|] == old(pa.log)
                && pa.log[|old(pa.log)|] == NewParametersFor(deviceID)
                && (|| (|pa.log| == |old(pa.log)| + 1 && r.error.OpenFailed?)
                    || FreedAfterFailedOpen(pa.log[|old(pa.log)| + 1..], controlFormat.sampleRate, Geometry().framesPerBuffer))
    {
      var f := controlFormat;
      var g := Geometry();
      var deviceIndex := pa.GetDeviceIndex(deviceID);
      var parameters := pa.StreamParametersNew(deviceIndex, g.channels, f.sampleSizeInBits);
      if parameters.Failure? {
        return Thrown(OpenFailed(parameters.error));
      }
      inputParameters := parameters.value;
      ghost var afterParameters := pa.log;
      var openResult := pa.OpenStream(inputParameters, f.sampleRate, g.framesPerBuffer);
      if openResult.Success? {
        stream := openResult.value;
      }
      if stream == 0 {
        // the finally block frees the parameters of a stream that did not open
        pa.StreamParametersFree(inputParameters);
        assert pa.log[|old(pa.log)| + 1..] == [OpenCall(inputParameters, f.sampleRate, g.framesPerBuffer), FreeParametersCall(inputParameters)];
        inputParameters := 0;
        return if openResult.Failure? then Thrown(OpenFailed(openResult.error)) else Thrown(StreamNotOpened);
      }
      r := Done;
    }

    /** `connect`: opens a native stream for `deviceID` in the format the `FormatControl` reports. */
    method Connect() returns (r: Outcome)
      requires Valid() && deviceID.Some? && stream == 0
      modifies this`stream, this`inputParameters, this`format, this`framesPerBuffer, this`bytesPerBuffer
      modifies pa`log, pa`denoise, pa`echoFilterLengthInMillis
      ensures Valid()
      ensures deviceID == old(deviceID) && !started && !streamIsBusy && sequenceNumber == old(sequenceNumber)
      ensures r.Done? ==> OpenedAsConfigured(old(pa.denoise), old(pa.echoFilterLengthInMillis))
      ensures r.Thrown? ==> r.error.OpenFailed? || r.error == StreamNotOpened
      ensures r.Thrown? ==> stream == 0 && inputParameters == 0 && format.None?
      ensures r.Thrown? ==> pa.denoise == old(pa.denoise) && pa.echoFilterLengthInMillis == old(pa.echoFilterLengthInMillis)
      ensures |old(pa.log)| < |pa.log| && pa.log[..|old(pa.log)|] == old(pa.log)
      // the parameters are made for the device's index, the channels and the sample size
      ensures pa.log[|old(pa.log)|] == NewParametersFor(deviceID)
      // the stream is opened on them at the format's rate and the computed buffer size
      ensures r.Done? ==>
                pa.log == old(pa.log) + [NewParametersFor(deviceID),
                                         OpenCall(inputParameters, controlFormat.sampleRate, Geometry().framesPerBuffer)]
      // a failure either made no parameters, or freed them after the open
      ensures r.Thrown? ==>
                || (|pa.log| == |old(pa.log)| + 1 && r.error.OpenFailed?)
                || FreedAfterFailedOpen(pa.log[|old(pa.log)| + 1..], controlFormat.sampleRate, Geometry().framesPerBuffer)
    {
      // with no stream there is no format of its own, so `getFormat` reports the control's
      var f := GetFormat();
      assert f == controlFormat;
      r := OpenNativeStream();
      if r.Thrown? {
        return;
      }
      ConfigureOpenedStream(f);
    }

    /** The rest of `connect` once the stream is open: its buffer geometry, its format and its quality settings. */
    method ConfigureOpenedStream(f: AudioFormat)
      requires f == controlFormat && stream != 0
      modifies this`format, this`framesPerBuffer, this`bytesPerBuffer, pa`denoise, pa`echoFilterLengthInMillis
      ensures OpenedAsConfigured(old(pa.denoise), old(pa.echoFilterLengthInMillis))
    {
      var g := Geometry();
      framesPerBuffer := g.framesPerBuffer;
      bytesPerBuffer := g.bytesPerBuffer;
      format := Some(CaptureFormat(f, g.channels));
      var q := QualitySettingsOf(audioQualityImprovement, configuredQuality, defaultQuality);
      pa.SetDenoise(stream, q.denoise);
      pa.SetEchoFilterLengthInMillis(stream, q.echoFilterLengthInMillis);
    }

    /**
     * `setDeviceID`: disconnects from the current device and connects to `id`,
     * unless `id` already is the current device.
     */
    method SetDeviceID(id: Option<string>) returns (r: Outcome)
      requires Valid()
      modifies this, pa`log, pa`denoise, pa`echoFilterLengthInMillis
      ensures Valid()
      ensures sequenceNumber == old(sequenceNumber)
      // the idempotence guard: no native call, no change
      ensures id == old(deviceID) ==> r == Done && unchanged(this) && unchanged(pa)
      // a close that neither succeeds nor times out aborts with the old stream and device kept
      ensures r.Thrown? && r.error.CloseFailed? ==>
                id != old(deviceID) && old(stream) != 0 && r.error.cause != TimedOut
                && stream == old(stream) && deviceID == old(deviceID)
                && inputParameters == old(inputParameters) && format == old(format)
      // otherwise the device is replaced and the stream is stopped
      ensures id != old(deviceID) && !(r.Thrown? && r.error.CloseFailed?) ==> deviceID == id && !started && !streamIsBusy
      ensures r.Done? && id.None? ==> stream == 0 && inputParameters == 0 && format.None?
      ensures r.Done? && id.Some? && id != old(deviceID) ==> OpenedAsConfigured(old(pa.denoise), old(pa.echoFilterLengthInMillis))
      // a failed open leaves no half-open stream
      ensures r.Thrown? && !r.error.CloseFailed? ==>
                id.Some? && (r.error.OpenFailed? || r.error == StreamNotOpened)
                && stream == 0 && inputParameters == 0 && format.None?
      // the native calls issued
      ensures |old(pa.log)| <= |pa.log| && pa.log[..|old(pa.log)|] == old(pa.log)
      ensures id.None? ==> NoOpenIn(pa.log[|old(pa.log)|..])
      ensures id != old(deviceID) && old(stream) != 0 ==> CloseCall(old(stream)) in pa.log[|old(pa.log)|..]
      ensures id != old(deviceID) && old(stream) != 0 && !(r.Thrown? && r.error.CloseFailed?) ==>
                FreeParametersCall(old(inputParameters)) in pa.log[|old(pa.log)|..]
      // connecting to the new device makes its parameters and opens the stream on them last
      ensures r.Done? && id.Some? && id != old(deviceID) ==>
                |pa.log| >= |old(pa.log)| + 2
                && pa.log[|pa.log| - 2..] == [NewParametersFor(id), OpenCall(inputParameters, controlFormat.sampleRate, Geometry().framesPerBuffer)]
    {
      if deviceID == id {
        return Done;
      }
      ghost var oldLog := pa.log;
      if deviceID.Some? {
        r := Disconnect();
        if r.Thrown? {
          return;
        }
        if old(stream) != 0 {
          assert pa.log[|pa.log| - 1] == FreeParametersCall(old(inputParameters));
          assert FreeParametersCall(old(inputParameters)) in pa.log[|oldLog|..];
        }
      }
      ghost var beforeConnect := pa.log;
      r := ConnectTo(id);
      assert pa.log[|oldLog|..] == beforeConnect[|oldLog|..] + pa.log[|beforeConnect|..];
      if r.Done? && id.Some? {
        assert pa.log[|pa.log| - 2..] == pa.log[|beforeConnect|..];
      }
      if old(stream) != 0 {
        assert FreeParametersCall(old(inputParameters)) in beforeConnect[|oldLog|..];
      }
    }

    /** The connecting half of `setDeviceID`: records the new device and connects to it, if there is one. */
    method ConnectTo(id: Option<string>) returns (r: Outcome)
      requires stream == 0 && inputParameters == 0 && format.None? && !streamIsBusy
      requires IsInt(sequenceNumber) && IsInt(framesPerBuffer) && IsInt(bytesPerBuffer)
      modifies this, pa`log, pa`denoise, pa`echoFilterLengthInMillis
      ensures Valid()
      ensures deviceID == id && !started && !streamIsBusy && sequenceNumber == old(sequenceNumber)
      ensures id.None? ==> r == Done && stream == 0 && inputParameters == 0 && format.None? && pa.log == old(pa.log)
      ensures r.Done? && id.Some? ==>
                && OpenedAsConfigured(old(pa.denoise), old(pa.echoFilterLengthInMillis))
                && pa.log == old(pa.log) + [NewParametersFor(id), OpenCall(inputParameters, controlFormat.sampleRate, Geometry().framesPerBuffer)]
      ensures r.Thrown? ==>
                id.Some? && (r.error.OpenFailed? || r.error == StreamNotOpened)
                && stream == 0 && inputParameters == 0 && format.None?
      ensures |old(pa.log)| <= |pa.log| && pa.log[..|old(pa.log)|] == old(pa.log)
    {
      deviceID := id;
      started := false;
      if deviceID.Some? {
        r := Connect();
      } else {
        r := Done;
      }
    }

    /**
     * The disconnecting half of `setDeviceID`: waits for a read in progress,
     * stops a started stream (ignoring a failure), closes the stream and frees
     * its parameters. A close that times out counts as closed.
     */
    method Disconnect() returns (r: Outcome)
      requires Valid() && deviceID.Some?
      modifies this`stream, this`inputParameters, this`format, this`started, this`streamIsBusy, pa`log
      ensures old(stream) == 0 ==> r == Done && unchanged(this) && pa.log == old(pa.log)
      ensures r.Done? ==> stream == 0 && inputParameters == 0 && format.None? && !streamIsBusy
      ensures r.Thrown? ==>
                && Valid() && r.error.CloseFailed? && r.error.cause != TimedOut && old(stream) != 0
                && stream == old(stream) && inputParameters == old(inputParameters) && format == old(format)
      ensures |old(pa.log)| <= |pa.log| && pa.log[..|old(pa.log)|] == old(pa.log)
      ensures NoOpenIn(pa.log[|old(pa.log)|..])
      ensures old(stream) != 0 ==> CloseCall(old(stream)) in pa.log[|old(pa.log)|..]
      // a successful disconnect ends by closing the stream and freeing its parameters
      ensures r.Done? && old(stream) != 0 ==>
                |pa.log| >= |old(pa.log)| + 2
                && pa.log[|pa.log| - 2..] == [CloseCall(old(stream)), FreeParametersCall(old(inputParameters))]
    {
      WaitWhileStreamIsBusy();
      if stream == 0 {
        return Done;
      }
      ghost var stopCalls: seq<PaCall> := [];
      if started {
        // attempted out of courtesy; a failure is ignored
        var _ := Stop();
        stopCalls := [StopCall(stream)];
      }
      ghost var closeStream, closeParameters := stream, inputParameters;
      ghost var beforeClose := pa.log;
      assert beforeClose == old(pa.log) + stopCalls;
      r := CloseNativeStream();
      ghost var closeCalls := if r.Done? then [CloseCall(closeStream), FreeParametersCall(closeParameters)] else [CloseCall(closeStream)];
      assert pa.log == old(pa.log) + (stopCalls + closeCalls);
      assert pa.log[|old(pa.log)|..] == stopCalls + closeCalls;
    }

    /** The closing part of `disconnect`: closes the native stream and then frees its parameters. */
    method CloseNativeStream() returns (r: Outcome)
      requires Valid() && stream != 0
      modifies this`stream, this`inputParameters, this`format, pa`log
      ensures r.Done? ==>
                && stream == 0 && inputParameters == 0 && format.None?
                && pa.log == old(pa.log) + [CloseCall(old(stream)), FreeParametersCall(old(inputParameters))]
      ensures r.Thrown? ==>
                && r.error.CloseFailed? && r.error.cause != TimedOut
                && stream == old(stream) && inputParameters == old(inputParameters) && format == old(format)
                && pa.log == old(pa.log) + [CloseCall(old(stream))]
    {
      var status := pa.CloseStream(stream);
      // a close that times out is presumed to have closed the stream
      var closed := status.NoError? || status.error == TimedOut;
      if !closed {
        return Thrown(CloseFailed(status.error));
      }
      stream := 0;
      if inputParameters != 0 {
        pa.StreamParametersFree(inputParameters);
        inputParameters := 0;
      }
      format := None;
      r := Done;
    }

    /** `start`: starts the native stream, if there is one. */
    method Start() returns (r: Outcome)
      requires Valid()
      modifies this`started, this`streamIsBusy, pa`log
      ensures Valid()
      ensures old(stream) == 0 ==> r == Done && unchanged(this) && pa.log == old(pa.log)
      ensures old(stream) != 0 ==> !streamIsBusy && pa.log == old(pa.log) + [StartCall(stream)]
      ensures old(stream) != 0 && r.Done? ==> started
      ensures r.Thrown? ==> r.error.StartFailed? && started == old(started)
    {
      if stream != 0 {
        WaitWhileStreamIsBusy();
        var status := pa.StartStream(stream);
        if status.Failed? {
          return Thrown(StartFailed(status.error));
        }
        started := true;
      }
      r := Done;
    }

    /** `stop`: stops the native stream, if there is one. */
    method Stop() returns (r: Outcome)
      requires Valid()
      modifies this`started, this`streamIsBusy, pa`log
      ensures Valid()
      ensures old(stream) == 0 ==> r == Done && unchanged(this) && pa.log == old(pa.log)
      ensures old(stream) != 0 ==> !streamIsBusy && pa.log == old(pa.log) + [StopCall(stream)]
      ensures old(stream) != 0 && r.Done? ==> !started
      ensures r.Thrown? ==> r.error.StopFailed? && started == old(started)
    {
      if stream != 0 {
        WaitWhileStreamIsBusy();
        var status := pa.StopStream(stream);
        if status.Failed? {
          return Thrown(StopFailed(status.error));
        }
        started := false;
      }
      r := Done;
    }

    /**
     * `read`: refuses a disconnected or stopped stream; otherwise reads one
     * buffer from the native stream while marked busy, reusing the caller's
     * byte array when it is large enough.
     */
    method Read(buffer: Buffer) returns (r: Outcome)
      requires Valid()
      modifies this`streamIsBusy, this`sequenceNumber, buffer, buffer.data, pa`log
      ensures Valid()
      ensures old(stream) == 0 ==> r == Thrown(Disconnected)
      ensures old(stream) != 0 && !old(started) ==> r == Thrown(Stopped)
      ensures r == Thrown(Disconnected) || r == Thrown(Stopped) ==>
                && streamIsBusy == old(streamIsBusy) && sequenceNumber == old(sequenceNumber)
                && unchanged(buffer) && pa.log == old(pa.log)
                && (buffer.data != null ==> buffer.data[..] == old(buffer.data[..]))
      // a read of a started stream always ends with the stream no longer busy
      ensures old(stream) != 0 && old(started) ==> !streamIsBusy
      ensures r == Thrown(NegativeArraySize) ==> bytesPerBuffer < 0 && sequenceNumber == old(sequenceNumber)
      // the caller's array is kept only when it holds a whole buffer
      ensures old(stream) != 0 && old(started) && r != Thrown(NegativeArraySize) ==>
                && buffer.data != null && bytesPerBuffer <= buffer.data.Length
                && pa.log == old(pa.log) + [ReadCall(stream)]
                && (old(buffer.data) != null && bytesPerBuffer <= old(buffer.data).Length ==> buffer.data == old(buffer.data))
                && (old(buffer.data) == null || old(buffer.data).Length < bytesPerBuffer ==>
                      fresh(buffer.data) && buffer.data.Length == bytesPerBuffer)
      ensures r.Done? ==>
                && buffer.length == bytesPerBuffer && buffer.offset == 0
                && buffer.format == format
                && buffer.sequenceNumber == old(sequenceNumber)
                && sequenceNumber == WrapInt(old(sequenceNumber) + 1)
      ensures r.Thrown? && r.error.ReadFailed? ==>
                && sequenceNumber == old(sequenceNumber)
                && buffer.length == old(buffer.length) && buffer.offset == old(buffer.offset)
                && buffer.sequenceNumber == old(buffer.sequenceNumber) && buffer.format == old(buffer.format)
      ensures r.Thrown? ==> r.error in {Disconnected, Stopped, NegativeArraySize} || r.error.ReadFailed?
    {
      if stream == 0 {
        return Thrown(Disconnected);
      } else if !started {
        return Thrown(Stopped);
      }
      streamIsBusy := true;
      var bufferData := buffer.data;
      if bufferData != null && bufferData.Length < bytesPerBuffer {
        bufferData := null;
      }
      if bufferData == null {
        if bytesPerBuffer < 0 {
          streamIsBusy := false;
          return Thrown(NegativeArraySize);
        }
        bufferData := new byte[bytesPerBuffer];
        buffer.data := bufferData;
      }
      var status := pa.ReadStream(stream, bufferData, framesPerBuffer);
      if status.Failed? {
        r := Thrown(ReadFailed(status.error));
      } else {
        if format.Some? {
          buffer.format := format;
        }
        buffer.length := bytesPerBuffer;
        buffer.offset := 0;
        buffer.sequenceNumber := sequenceNumber;
        sequenceNumber := WrapInt(sequenceNumber + 1);
        r := Done;
      }
      // the finally block
      streamIsBusy := false;
    }
  }

  // ---------------------------------------------------------------------------
  // The device-list listener

  /**
   * The `PaUpdateAvailableDeviceListListener` of a stream: before the native
   * device list is refreshed it records the device and started state and
   * disconnects the stream; afterwards it reconnects and restarts the stream if
   * the device is still there.
   */
  class DeviceListListener {
    const owner: PortAudioStream
    /** The device the stream used before the refresh, or null when there is nothing to restore. */
    var deviceID: Option<string>
    /** Whether the stream was started before the refresh. */
    var start: bool

    ghost predicate Valid()
      reads this, owner
    {
      owner.Valid() && (deviceID.None? ==> !start)
    }

    constructor (owner: PortAudioStream)
      requires owner.Valid()
      ensures Valid() && this.owner == owner && deviceID.None? && !start
    {
      this.owner := owner;
      deviceID := None;
      start := false;
    }

    /** `willPaUpdateAvailableDeviceList`. */
    method WillPaUpdateAvailableDeviceList() returns (r: Outcome)
      requires Valid()
      modifies this, owner, owner.pa`log, owner.pa`denoise, owner.pa`echoFilterLengthInMillis
      ensures Valid()
      ensures old(owner.stream) == 0 ==>
                r == Done && deviceID.None? && !start && unchanged(owner) && unchanged(owner.pa)
      ensures old(owner.stream) != 0 && r.Done? ==>
                && deviceID == old(owner.deviceID) && start == old(owner.started)
                && owner.stream == 0 && owner.deviceID.None? && !owner.started
      // a failed disconnect leaves nothing to restore
      ensures r.Thrown? ==>
                && r.error.CloseFailed? && deviceID.None? && !start
                && owner.stream == old(owner.stream) && owner.deviceID == old(owner.deviceID)
    {
      owner.WaitWhileStreamIsBusy();
      if owner.stream == 0 {
        deviceID := None;
        start := false;
        r := Done;
      } else {
        deviceID := owner.deviceID;
        start := owner.started;
        r := owner.SetDeviceID(None);
        if r.Thrown? {
          deviceID := None;
          start := false;
        }
      }
    }

    /** `didPaUpdateAvailableDeviceList`. */
    method DidPaUpdateAvailableDeviceList() returns (r: Outcome)
      requires Valid()
      modifies this, owner, owner.pa`log, owner.pa`denoise, owner.pa`echoFilterLengthInMillis
      ensures Valid()
      // the record is consumed whatever happens
      ensures deviceID.None? && !start
      // nothing is restored into a stream that was reconnected meanwhile or to a device that is gone
      ensures old(owner.stream) != 0 ==>
                && r == Done && owner.stream == old(owner.stream) && owner.deviceID == old(owner.deviceID)
                && owner.started == old(owner.started) && !owner.streamIsBusy && owner.pa.log == old(owner.pa.log)
      ensures old(owner.stream) == 0 && owner.pa.GetDeviceIndex(old(deviceID)) == paNoDevice ==>
                r == Done && unchanged(owner) && unchanged(owner.pa)
      // otherwise the recorded device is reconnected and, if it was started, restarted
      ensures old(owner.stream) == 0 && owner.pa.GetDeviceIndex(old(deviceID)) != paNoDevice
              && old(owner.deviceID) != old(deviceID) ==>
                && owner.deviceID == old(deviceID)
                && (r.Done? ==> owner.stream != 0 && owner.started == old(start))
      // a recorded device that is still the current one: `setDeviceID` and `start` do nothing
      ensures old(owner.stream) == 0 && owner.pa.GetDeviceIndex(old(deviceID)) != paNoDevice
              && old(owner.deviceID) == old(deviceID) ==>
                r == Done && unchanged(owner) && unchanged(owner.pa)
    {
      owner.WaitWhileStreamIsBusy();
      if owner.stream == 0 {
        var deviceIndex := owner.pa.GetDeviceIndex(deviceID);
        if deviceIndex != paNoDevice {
          r := owner.SetDeviceID(deviceID);
          if r.Done? && start {
            r := owner.Start();
          }
        } else {
          r := Done;
        }
      } else {
        r := Done;
      }
      // the finally block
      deviceID := None;
      start := false;
    }
  }

  /**
   * A refresh of the device list that keeps the stream's device: a started
   * stream is back on the same device and started, a stopped one is back on the
   * same device and stopped.
   */
  method RefreshKeepingDevice(s: PortAudioStream, l: DeviceListListener, refreshed: seq<string>)
    returns (before: Outcome, after: Outcome)
    requires l.Valid() && l.owner == s
    requires s.stream != 0 && s.deviceID.Some? && s.deviceID.value in refreshed
    modifies l, s, s.pa
    ensures l.Valid() && l.deviceID.None? && !l.start
    ensures before.Done? && after.Done? ==>
              s.stream != 0 && s.deviceID == old(s.deviceID) && s.started == old(s.started)
  {
    before := l.WillPaUpdateAvailableDeviceList();
    s.pa.UpdateAvailableDeviceList(refreshed);
    after := l.DidPaUpdateAvailableDeviceList();
  }

  /**
   * A refresh that removes the stream's device leaves the stream disconnected,
   * and a second `didPaUpdateAvailableDeviceList` changes nothing.
   */
  method RefreshRemovingDevice(s: PortAudioStream, l: DeviceListListener, refreshed: seq<string>)
    returns (before: Outcome, after: Outcome, again: Outcome)
    requires l.Valid() && l.owner == s
    requires s.stream != 0 && s.deviceID.Some? && s.deviceID.value !in refreshed
    modifies l, s, s.pa
    ensures l.Valid() && l.deviceID.None? && !l.start
    ensures before.Done? ==> after.Done? && again.Done? && s.stream == 0 && s.deviceID.None? && !s.started
  {
    before := l.WillPaUpdateAvailableDeviceList();
    s.pa.UpdateAvailableDeviceList(refreshed);
    after := l.DidPaUpdateAvailableDeviceList();
    again := l.DidPaUpdateAvailableDeviceList();
  }
}
