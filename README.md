# libjitsi audio core, modelled in Dafny

This project models four pieces of libjitsi's audio stack and proves properties of them:

- **The PortAudio capture stream** (`PortAudioStream`), in `port_audio_stream.dfy`, module `PortAudio`. It is a state machine over `deviceID`, the native `stream` handle, `started`, `streamIsBusy`, `sequenceNumber`, `format` and `inputParameters`:
  - `setDeviceID` disconnects and reconnects, guarded by an idempotence test;
  - `connect` sizes the buffers and applies the quality flags;
  - `start` and `stop` do nothing without a stream;
  - `read` guards against a closed or stopped stream, marks the stream busy and reuses the caller's buffer;
  - the hot-plug listener records `(deviceID, started)` before a native device-list refresh and restores it afterwards.

  The static native library `Pa` is a `NativeBackend` class:
  - each call succeeds or fails nondeterministically (`paTimedOut` or another code);
  - the device list and the per-stream quality settings are state;
  - a ghost log records the calls issued.
- **The notifier's clip pool** (`AudioNotifierServiceImpl`), in `audio_notifier.dfy`, module `Notify`:
  - `createAudio` loans a pooled clip by removing it from the map;
  - the returned wrapper (`LoanedClip`) puts the clip back, on finalisation, into the map that was live when it was created;
  - a notify or playback device change drops the map;
  - `AudioKey` has value equality and a Java `hashCode`.
- **Device-category bookkeeping** (`AudioSystem`), in `audio_system.dfy`, module `AudioDevices`:
  - the three category slots are created once;
  - playback and notify devices share one list;
  - post-initialisation is gated on a feature bit;
  - systems are looked up by locator protocol, case-insensitively.
- **The clip's play machine** (`AudioSystemClipImpl`), in `audio_notifier.dfy`, module `Notify`:
  - the `started` and `isLooping` flags;
  - the play loop over passes;
  - the nested format-negotiation search.

Two support modules:
- `java_lang.dfy` (module `JavaLang`) writes out the Java semantics the model needs: `null` as `Option`, 32-bit `int` wrap-around, the `(int)` cast of a `double` quotient, `String.equalsIgnoreCase` and `String.hashCode`.
- `media.dfy` (module `Media`) holds the JMF `AudioFormat`.

How the environment is modelled:
- Threads are not modelled. Each method body runs atomically.
- Waiting on the stream's monitor is modelled as the concurrent `read` finishing: `AwaitReadCompletion` clears the busy flag.
- Values that come from outside become inputs:
  - the URL resolution and configured audio system of `createAudio` come in as a `ClipEnvironment`;
  - what the stream, renderer and resampler do during one play pass comes in as a `PassEnvironment`.

## Model

Methods split out of a larger one carry no row of their own; each belongs to its parent's row:
- `OpenNativeStream` and `ConfigureOpenedStream` to `PortAudio.PortAudioStream.Connect`;
- `ConnectTo` to `PortAudio.PortAudioStream.SetDeviceID`;
- `CloseNativeStream` to `PortAudio.PortAudioStream.Disconnect`;
- `PostInitializeAfterCapture` to `AudioDevices.AudioSystem.PostInitialize`.

| member | source | states |
|---|---|---|
| `JavaLang.TruncatedQuotient` | src/org/jitsi/impl/neomedia/jmfext/media/protocol/portaudio/PortAudioStream.java:247-250 | the quotient rounded toward zero: its magnitude is the largest whole number of divisors in the dividend, and its sign is the product of the signs |
| `JavaLang.IntOfQuotient` | src/org/jitsi/impl/neomedia/jmfext/media/protocol/portaudio/PortAudioStream.java:247-250 | Java's `(int)` of a double quotient: the result is always an `int`; it is the truncated quotient when that fits and saturates to `INT_MAX` or `INT_MIN` when it does not; division by zero gives `INT_MAX`, `INT_MIN` or 0 (NaN) by the dividend's sign |
| `JavaLang.StringHashCode` | src/org/jitsi/impl/neomedia/notify/AudioNotifierServiceImpl.java:351 | `String.hashCode` computed as `h = 31*h + c` in `int` arithmetic is an `int` congruent modulo 2^32 to the documented polynomial sum of `s[i]*31^(n-1-i)` |
| `JavaLang.EqualsIgnoreCaseIffUpperCasedEqual` | src/org/jitsi/impl/neomedia/device/AudioSystem.java:100-101 | two strings are equal ignoring case exactly when their upper-cased forms are equal |
| `JavaLang.EqualsIgnoreCaseIsEquivalence` | src/org/jitsi/impl/neomedia/device/AudioSystem.java:100-101 | comparison ignoring case is reflexive, symmetric and transitive |
| `Media.LinearFormat` | src/org/jitsi/impl/neomedia/notify/AudioSystemClipImpl.java:219-225 | the four-argument `AudioFormat` constructor gives a LINEAR encoding with the given sample rate, sample size and channels, and leaves byte order and signedness unspecified |
| `PortAudio.BufferGeometryOf` | src/org/jitsi/impl/neomedia/jmfext/media/protocol/portaudio/PortAudioStream.java:237-250 | an unspecified channel count becomes 1; for a non-negative rate and an in-range quotient, the frames per buffer are the whole number of frames in 20 ms split over the channels (`frames*(channels*1000) <= rate*20 < (frames+1)*(channels*1000)`); bytes per buffer equal sampleSize*channels*frames whenever that fits in an `int` |
| `PortAudio.QualitySettingsOf` | src/org/jitsi/impl/neomedia/jmfext/media/protocol/portaudio/PortAudioStream.java:311-338 | the configured settings are used, or the defaults when there are none; denoise is on exactly when audio quality improvement is on and denoise is wanted; the echo filter length is 0 unless both audio quality improvement and echo cancellation are on, and then it is the configured length |
| `PortAudio.PortAudioStream.constructor` | src/org/jitsi/impl/neomedia/jmfext/media/protocol/portaudio/PortAudioStream.java:207-231 | a new stream has no device and no native stream, is stopped and not busy, and has sequence number 0 |
| `PortAudio.PortAudioStream.GetFormat` | src/org/jitsi/impl/neomedia/jmfext/media/protocol/portaudio/PortAudioStream.java:353-356 | an open stream reports the format it was opened with; a closed one reports the format of its `FormatControl` |
| `PortAudio.PortAudioStream.WaitWhileStreamIsBusy` | src/org/jitsi/impl/neomedia/jmfext/media/protocol/portaudio/PortAudioStream.java:666-683 | on return the stream is closed or not busy, and a stream that was not busy stays not busy |
| `PortAudio.PortAudioStream.Connect` | src/org/jitsi/impl/neomedia/jmfext/media/protocol/portaudio/PortAudioStream.java:234-339 | the native parameters are made for the device's index, the channel count (mono when unspecified) and the sample size, and the stream is opened on them at the format's rate with the `BufferGeometryOf` frames per buffer; on success the stream is open with that geometry, the little-endian signed LINEAR format and the `QualitySettingsOf` denoise and echo length set for the new stream; on failure (the parameters or the open throw, or a null stream), no stream is open, parameters that were made are freed after the open, and the format is null; `deviceID` is kept and the stream is stopped either way |
| `PortAudio.PortAudioStream.SetDeviceID` | src/org/jitsi/impl/neomedia/jmfext/media/protocol/portaudio/PortAudioStream.java:483-593 | with the same ID (two nulls are equal), nothing changes and no native call is made; a close failure other than a time-out throws and keeps stream, parameters, format and device; otherwise `deviceID == id`, the stream is stopped, and the old stream's close and the free of its parameters are issued; a null ID leaves it closed and issues no open; a non-null ID ends with the new device's parameters made and opened, and leaves it open as `connect` configures it, or, if the open fails, closed and without parameters |
| `PortAudio.PortAudioStream.Disconnect` | src/org/jitsi/impl/neomedia/jmfext/media/protocol/portaudio/PortAudioStream.java:490-576 | without a stream, nothing changes; a close that succeeds or times out leaves no stream, no parameters and no format, and the calls end with the close and then the free of the stream's parameters; any other close failure throws with everything kept; the close is always issued and no open ever is |
| `PortAudio.PortAudioStream.Start` | src/org/jitsi/impl/neomedia/jmfext/media/protocol/portaudio/PortAudioStream.java:602-626 | without a stream, nothing changes and no native call is made; otherwise the native start is issued, and `started` becomes true only if it succeeds; a failure throws and leaves `started` unchanged |
| `PortAudio.PortAudioStream.Stop` | src/org/jitsi/impl/neomedia/jmfext/media/protocol/portaudio/PortAudioStream.java:635-659 | without a stream, nothing changes; otherwise the native stop is issued, and `started` becomes false only if it succeeds; a failure throws and leaves `started` unchanged |
| `PortAudio.PortAudioStream.Read` | src/org/jitsi/impl/neomedia/jmfext/media/protocol/portaudio/PortAudioStream.java:367-470 | a disconnected or stopped stream throws and changes nothing, the busy flag included; a started stream ends not busy whatever happens; the caller's array is kept exactly when it holds `bytesPerBuffer` bytes, otherwise a fresh array of that size is used; a success sets length `bytesPerBuffer`, offset 0, the stream format and the old sequence number, and increments the sequence number by one (an `int`); a failed native read leaves the sequence numbers and buffer fields alone |
| `PortAudio.DeviceListListener.WillPaUpdateAvailableDeviceList` | src/org/jitsi/impl/neomedia/jmfext/media/protocol/portaudio/PortAudioStream.java:136-174 | with no stream, the record is cleared and the stream is left alone; otherwise `(deviceID, started)` is recorded and the stream is disconnected, and a failed disconnect clears the record |
| `PortAudio.DeviceListListener.DidPaUpdateAvailableDeviceList` | src/org/jitsi/impl/neomedia/jmfext/media/protocol/portaudio/PortAudioStream.java:95-134 | the record is always cleared; a stream that is open again, or a recorded device that is no longer listed, is left alone; a recorded device that is still the current one changes nothing; otherwise the recorded device is set again and, once it is open, is started exactly when it was started before |
| `PortAudio.RefreshKeepingDevice` | src/org/jitsi/impl/neomedia/jmfext/media/protocol/portaudio/PortAudioStream.java:95-174 | a refresh that keeps the device restores the device and the started state when both hooks succeed |
| `PortAudio.RefreshRemovingDevice` | src/org/jitsi/impl/neomedia/jmfext/media/protocol/portaudio/PortAudioStream.java:95-174 | a refresh that removes the device leaves the stream disconnected, and a second `did` changes nothing |
| `AudioDevices.FeatureFlagsAreSingleBits` | src/org/jitsi/impl/neomedia/device/AudioSystem.java:44-64 | the feature flags 2, 4 and 8 are nonzero single bits, pairwise disjoint |
| `AudioDevices.PostInitializeOrder` | src/org/jitsi/impl/neomedia/device/AudioSystem.java:252-279 | post-initialisation starts with CAPTURE and ends with the superclass step; NOTIFY and then PLAYBACK appear exactly when bit 8 is set |
| `AudioDevices.LastThrown` | src/org/jitsi/impl/neomedia/device/AudioSystem.java:252-279 | steps run each in the `finally` of the one before complete exactly when every step completed; otherwise the exception is one of theirs |
| `AudioDevices.FinallyIsLastThrown` | src/org/jitsi/impl/neomedia/device/AudioSystem.java:252-279 | running one more step in a `finally` block makes its exception, if it threw, replace the earlier one |
| `AudioDevices.LastThrownPrepend` | src/org/jitsi/impl/neomedia/device/AudioSystem.java:254-278 | a step whose `finally` block runs all later steps propagates its own exception only when none of the later steps threw |
| `AudioDevices.PostInitializePropagatesLastThrown` | src/org/jitsi/impl/neomedia/device/AudioSystem.java:254-278 | the nested `try`/`finally` of `postInitialize`, with and without the notify and playback steps, propagates the exception of the last step that threw |
| `AudioDevices.AudioSystem.constructor` | src/org/jitsi/impl/neomedia/device/AudioSystem.java:139-143 | the one-argument constructor gives features 0 and no category slots (assuming the superclass constructor leaves them null) |
| `AudioDevices.AudioSystem.WithFeatures` | src/org/jitsi/impl/neomedia/device/AudioSystem.java:145-149 | the two-argument constructor keeps the protocol and features and has no category slots yet (assuming the superclass constructor leaves them null) |
| `AudioDevices.AudioSystem.PreInitialize` | src/org/jitsi/impl/neomedia/device/AudioSystem.java:318-329 | the three slots are created, each holding its own category with an empty list and the selection rule given for it, only when there are none; an existing array is kept |
| `AudioDevices.AudioSystem.GetDevices` | src/org/jitsi/impl/neomedia/device/AudioSystem.java:212-215 | the list a category holds, which `SetCaptureDevices` and `SetPlaybackDevices` replace |
| `AudioDevices.AudioSystem.GetDevice` | src/org/jitsi/impl/neomedia/device/AudioSystem.java:198-202 | the device a category selects, when there is one, is one of the category's active devices |
| `AudioDevices.AudioSystem.SetDevice` | src/org/jitsi/impl/neomedia/device/AudioSystem.java:376-385 | the category's selection becomes the device, and its list is unchanged |
| `AudioDevices.AudioSystem.SetCaptureDevices` | src/org/jitsi/impl/neomedia/device/AudioSystem.java:361-365 | only the CAPTURE list changes, to the given list; NOTIFY and PLAYBACK are unchanged |
| `AudioDevices.AudioSystem.SetPlaybackDevices` | src/org/jitsi/impl/neomedia/device/AudioSystem.java:392-398 | both PLAYBACK and NOTIFY become the given list; CAPTURE and all selections are unchanged |
| `AudioDevices.AudioSystem.PostInitializeSpecificDevices` | src/org/jitsi/impl/neomedia/device/AudioSystem.java:288-307 | the step is recorded with its outcome; if the category's code completes, its selection becomes the device it picks among its active devices; if it throws, the exception names this step and the selection is kept; the list is unchanged either way |
| `AudioDevices.AudioSystem.PostInitializeNotifyAndPlayback` | src/org/jitsi/impl/neomedia/device/AudioSystem.java:262-271 | NOTIFY and then PLAYBACK are each taken, the second even when the first throws; the outcome is that of the inner `try`/`finally`; each category is re-selected exactly when its own step completed |
| `AudioDevices.AudioSystem.SuperPostInitialize` | src/org/jitsi/impl/neomedia/device/AudioSystem.java:277 | the superclass step is recorded with its outcome, which may be a throw |
| `AudioDevices.AudioSystem.PostInitialize` | src/org/jitsi/impl/neomedia/device/AudioSystem.java:252-279 | every step of `PostInitializeSteps` is taken whichever of them throw, and the outcome is `LastThrown` of their outcomes, so the exception of the last step that threw propagates; CAPTURE and, with bit 8, NOTIFY and PLAYBACK are re-selected exactly when their own step completed; without bit 8, NOTIFY and PLAYBACK are untouched; no list changes |
| `AudioDevices.AudioSystemsInAppend` | src/org/jitsi/impl/neomedia/device/AudioSystem.java:123-126 | the filter distributes over concatenation, so it keeps the input order |
| `AudioDevices.AudioSystemsInMembers` | src/org/jitsi/impl/neomedia/device/AudioSystem.java:123-126 | exactly the audio systems of the input are kept, and the output is no longer than the input |
| `AudioDevices.GetAudioSystems` | src/org/jitsi/impl/neomedia/device/AudioSystem.java:111-130 | the result is null exactly when the device systems are null; otherwise it is the order-preserving filter of the audio systems |
| `AudioDevices.FirstWithLocatorProtocol` | src/org/jitsi/impl/neomedia/device/AudioSystem.java:91-109 | a system it finds is in the list and has the protocol, ignoring case |
| `AudioDevices.FirstWithLocatorProtocolIsFirst` | src/org/jitsi/impl/neomedia/device/AudioSystem.java:91-109 | the lookup gives null exactly when no system has the protocol; otherwise it gives a system with the protocol, none earlier having it |
| `AudioDevices.LookupIgnoresCase` | src/org/jitsi/impl/neomedia/device/AudioSystem.java:100-101 | protocols that differ only in case find the same system |
| `AudioDevices.GetAudioSystem` | src/org/jitsi/impl/neomedia/device/AudioSystem.java:91-109 | the search loop with `break` returns the first match of `FirstWithLocatorProtocol` over `getAudioSystems`, and null when there are no device systems |
| `Notify.AudioKeyEquals` | src/org/jitsi/impl/neomedia/notify/AudioNotifierServiceImpl.java:331-346 | `equals` holds exactly when the other key is non-null with the same flag and a null-safely equal URI, that is, value equality |
| `Notify.AudioKeyHashCode` | src/org/jitsi/impl/neomedia/notify/AudioNotifierServiceImpl.java:348-352 | the hash code is an `int` |
| `Notify.AudioKeyHashCodeIsPolynomial` | src/org/jitsi/impl/neomedia/notify/AudioNotifierServiceImpl.java:348-352 | equal keys hash equally, and the hash is congruent modulo 2^32 to the URI's polynomial hash (0 for null) plus 1 for playback |
| `Notify.PlaybackFlagChangesHashCode` | src/org/jitsi/impl/neomedia/notify/AudioNotifierServiceImpl.java:348-352 | the notify and playback keys of one URI never have the same hash code, wrap-around included |
| `Notify.SameDeviceAsWrittenThrows` | src/org/jitsi/impl/neomedia/notify/AudioNotifierServiceImpl.java:83-86 | as written, a notify device with a null playback device throws a `NullPointerException` |
| `Notify.SameDevice` | src/org/jitsi/impl/neomedia/notify/AudioNotifierServiceImpl.java:83-86 | two null devices are shared; if exactly one is null they are not; two non-null ones are shared exactly when their locators are equal |
| `Notify.SameDeviceAgreesWithWritten` | src/org/jitsi/impl/neomedia/notify/AudioNotifierServiceImpl.java:83-86 | the corrected comparison answers as the written one wherever that one answers, says "not shared" where it throws, and is symmetric |
| `Notify.AudioOutAndNotificationsShareSameDevice` | src/org/jitsi/impl/neomedia/notify/AudioNotifierServiceImpl.java:75-87 | as written: with no configured audio system, or one whose categories do not exist yet, the call throws a `NullPointerException`; with no notify device, the answer is whether there is no playback device; with both devices, whether their locators are equal; a notify device with no playback device throws; wherever it answers, it answers as the corrected `SameDevice` |
| `Notify.LoanedClip.Play` | src/org/jitsi/impl/neomedia/notify/AudioNotifierServiceImpl.java:223-226 | delegates to the pooled clip's `play` |
| `Notify.LoanedClip.Stop` | src/org/jitsi/impl/neomedia/notify/AudioNotifierServiceImpl.java:235-238 | delegates to the pooled clip's `stop` |
| `Notify.LoanedClip.Finalize` | src/org/jitsi/impl/neomedia/notify/AudioNotifierServiceImpl.java:206-221 | ends the loan; when the service's live map is non-null it puts `(key, clip)` into the map captured at creation; when the live map is null, the lock on it throws and nothing is put back; a live map that is a different map is unchanged |
| `Notify.AudioNotifierService.constructor` | src/org/jitsi/impl/neomedia/notify/AudioNotifierServiceImpl.java:60-67 | a new notifier has no pool, is not muted and has no loans |
| `Notify.AudioNotifierService.IsMute` | src/org/jitsi/impl/neomedia/notify/AudioNotifierServiceImpl.java:260-263 | the stored mute flag, which `SetMute` sets |
| `Notify.AudioNotifierService.SetMute` | src/org/jitsi/impl/neomedia/notify/AudioNotifierServiceImpl.java:294-299 | `isMute` then returns the flag, and only the flag changes |
| `Notify.AudioNotifierService.CreateAudio` | src/org/jitsi/impl/neomedia/notify/AudioNotifierServiceImpl.java:109-244 | a pooled clip is loaned by removal from the map; with nothing pooled: an unresolvable URL gives null; no audio system gives a new JavaSound clip; the "none" system (ignoring case) gives null; any other system gives a new system clip for the URL; a construction failure gives null. The pool is created only for a produced clip. A loan is a new wrapper holding a clip no open loan holds, and reclaims into the live map |
| `Notify.AudioNotifierService.CreateNotifyAudio` | src/org/jitsi/impl/neomedia/notify/AudioNotifierServiceImpl.java:96-99 | behaves as `createAudio(uri, false)`: a clip pooled under the notify key `(uri, false)` is loaned by removal, otherwise the clip is made as `createAudio` makes it, and the pool and loans change as `createAudio` states |
| `Notify.AudioNotifierService.PropertyChange` | src/org/jitsi/impl/neomedia/notify/AudioNotifierServiceImpl.java:269-286 | a notify or playback device change drops the pool; any other property leaves it as it is |
| `Notify.LoanReclaimLoan` | src/org/jitsi/impl/neomedia/notify/AudioNotifierServiceImpl.java:200-214 | loan, reclaim and loan again with no device change in between give the same underlying clip |
| `Notify.LoanTwice` | src/org/jitsi/impl/neomedia/notify/AudioNotifierServiceImpl.java:117-123 | two loans for one key before a reclaim hold different clips |
| `Notify.DeviceChangeIsolatesEarlierLoan` | src/org/jitsi/impl/neomedia/notify/AudioNotifierServiceImpl.java:273-285 | a clip loaned before a device change and reclaimed after it never enters the new live pool |
| `Notify.LastMatchingIsLast` | src/org/jitsi/impl/neomedia/notify/AudioSystemClipImpl.java:242-257 | the negotiated format is the stream's own when no renderer format matches a resampler format; otherwise it is a matching renderer format with no matching one after it |
| `Notify.NegotiateRendererFormat` | src/org/jitsi/impl/neomedia/notify/AudioSystemClipImpl.java:242-257 | the nested loops, whose `break` leaves only the inner loop, compute `LastMatching` |
| `Notify.AudioSystemClip.constructor` | src/org/jitsi/impl/neomedia/notify/AudioSystemClipImpl.java:53-63 | a new clip keeps its URL, notifier and audio system, and is neither started nor looping |
| `Notify.AudioSystemClip.Play` | src/org/jitsi/impl/neomedia/notify/AudioSystemClipImpl.java:68-82 | with a URL and an unmuted notifier, the clip is started and one play thread begins; otherwise nothing changes |
| `Notify.AudioSystemClip.PlayInLoop` | src/org/jitsi/impl/neomedia/notify/AudioSystemClipImpl.java:89-95 | the loop interval is set and looping is on, then it plays as `play` does |
| `Notify.AudioSystemClip.Stop` | src/org/jitsi/impl/neomedia/notify/AudioSystemClipImpl.java:100-104 | the clip is neither started nor looping |
| `Notify.AudioSystemClip.InternalStop` | src/org/jitsi/impl/neomedia/notify/AudioSystemClipImpl.java:112-122 | the clip is not started and `isLooping` is untouched; without a URL or when not started, nothing changes |
| `Notify.AudioSystemClip.RunOnceInPlayThread` | src/org/jitsi/impl/neomedia/notify/AudioSystemClipImpl.java:194-342 | a pass succeeds exactly when it got a stream, opened a resampler if one was needed, and played to the end; without a stream it returns false; the renderer gets the stream's own LINEAR format if it accepts it, otherwise the negotiated one |
| `Notify.AudioSystemClip.RunInPlayThread` | src/org/jitsi/impl/neomedia/notify/AudioSystemClipImpl.java:128-174 | no pass runs unless started, at most one runs unless looping, every pass but the last succeeded and saw no concurrent `stop` or `internalStop`; a last pass during which one of them was called, whether or not it succeeded, leaves the clip not started, and after `stop` not looping; the loop ends early only after a failed pass, a stop or the end of looping |

## Left out

- The native PortAudio library. `NativeBackend` models it:
  - it returns any result or error;
  - it keeps only the device list and the per-stream denoise and echo settings;
  - `Pa.getSampleFormat`, the suggested latency and the stream flags are not modelled; the parameters call records the sample size in bits in place of the PortAudio sample format.
- `Pa.StreamParameters_new` is assumed never to return a 0 pointer when it does not throw, so `connect` never passes a 0 pointer to `Pa.OpenStream`; `Pa.java` is not part of this model.
- `Pa.getDeviceIndex` is assumed to give `paNoDevice` for a null ID and otherwise the index of the first device whose single ID equals it.
- The value of `Pa.DEFAULT_MILLIS_PER_BUFFER` is taken as 20; `Pa.java` is not part of this model.
- Threads, `synchronized`, `wait`/`notifyAll` and `yield()`:
  - each method body runs atomically;
  - `AwaitReadCompletion` stands for a concurrent `read` finishing;
  - `yield()` is nothing;
  - a play thread is a ghost counter.
- Listener registration, `PortAudioSystem.willPaOpenStream`/`didPaOpenStream` and the weak references: the hooks are called explicitly.
- The gain transform, timestamps, buffer flags and headers in `read`.
- `doGetFormat`'s fallback to the data source's format: it is the fixed format of the `FormatControl` (`controlFormat`), and `setFormat` is not part of this model.
- Floating point:
  - sample rates are whole hertz;
  - the `double` quotient in `connect` is an exact integer quotient, truncated and clamped like Java's `(int)` cast.
- `PortAudio.BufferGeometryOf`: the frame bound is stated for non-negative sample rates whose quotient fits in an `int`. Otherwise only the `int` range is stated.
- The device configuration's lookup in `connect` (the media service and `DeviceConfiguration`): its settings come in as `configuredQuality` and `defaultQuality`.
- `CaptureDevices`, `NotifyDevices` and `PlaybackDevices`, and the superclass `DeviceSystem`, are not part of this model:
  - `Devices` stands for a category; how a category picks its device is a parameter (`DeviceChoice`), about which the model assumes only that it picks an active device or none;
  - a category's code may throw; the model then leaves the selection as it was;
  - `DeviceSystem.preInitialize` is not modelled, and `DeviceSystem.postInitialize` is a step that may throw;
  - the superclass constructor is assumed to leave `devices` null;
  - saving a selection to the configuration is not modelled;
  - device lists are never null;
  - `getDevice`, `getDevices` and `setDevice` need the category slots: before `preInitialize` the Java methods throw a `NullPointerException`, and the model requires the slots instead (only `Notify.AudioOutAndNotificationsShareSameDevice` models that throw).
- `getAudioInputStream`, `getFormat(InputStream)` and `propertyChange` in `AudioSystem` are library wrappers around JavaSound and `firePropertyChange`.
- Finalisation: the finalizer is the explicit `LoanedClip.Finalize`. It locks on the service's current `audios`. When that is null the lock throws, the clip is not put back, and the model ends the loan only. The lock itself is not modelled.
- `createAudio` calls a four-argument `AudioSystemClipImpl` constructor, but the class as given has three arguments. The model uses the three-argument constructor, so the `playback` flag reaches only the key.
- `JavaSoundClipImpl`: only the calls it receives are modelled, and `play(loopInterval, loopCondition)` of the wrapper is not modelled.
- The resource service, URL parsing and the configured audio system are inputs (`ClipEnvironment`). `ThreadDeath` is not modelled.
- `setMute` only stores the flag, as the code does. Stopping looping clips on mute is not modelled, because the code does not do it.
- `Notify.AudioSystemClip.RunInPlayThread`: the loop is bounded by the passes the environment describes. A looping clip that is never stopped would run forever in the source.
- Within `runOnceInPlayThread`, these are left out:
  - the data loop (reading, resampling, `renderer.process`);
  - the renderer's creation, opening, stopping and closing;
  - stream closing;
  - waiting for the loop interval.

  A pass's playback outcome, and a `stop` or `internalStop` another thread calls during it, are inputs, and `Format.matches` is an uninterpreted function.
- A clip's loop interval, and `isLooping`/`setLoopInterval`, are fields of the unseen superclass `SCAudioClipImpl`; they are modelled as plain fields.
- `NoneAudioSystem` is not part of this model; its `LOCATOR_PROTOCOL` is taken to be "none".
- `MediaLocator.equals` (JMF) is taken to be equality of the locator strings.
- `String.equalsIgnoreCase` folds case for ASCII letters only. `String.hashCode` works over `char` values rather than UTF-16 code units.
- Logging.

## Findings

| source | as written | input that shows it | evidently intended | confidence | as-written member | corrected member |
|---|---|---|---|---|---|---|
| src/org/jitsi/impl/neomedia/notify/AudioNotifierServiceImpl.java:83-86 | a non-null notify device is compared through `playback.getLocator()` without checking `playback` for null | a notify device is selected while no playback device is | answer "not shared" (false) | medium, not executed | `Notify.SameDeviceAsWrittenThrows` | `Notify.SameDevice` |
