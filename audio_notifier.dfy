/**
 * The audio notifier of `AudioNotifierServiceImpl.java` and the clips it hands
 * out (`AudioSystemClipImpl.java`): a pool of clips keyed by URI and device
 * kind, from which a clip is loaned by removal and into which it is reclaimed
 * when the loan is finalised; the pool is dropped when the notify or playback
 * device changes. A clip plays in a loop of passes, each of which negotiates a
 * renderer format and plays the stream once.
 *
 * Finalisation is the explicit `LoanedClip.Finalize`; URL resolution, the
 * audio system the device configuration reports and whether a clip's
 * construction fails come in as a `ClipEnvironment`. Each pass of the play
 * thread sees a `PassEnvironment` describing what the stream, the renderer and
 * the resampler do.
 */
module Notify {
  import opened JavaLang
  import opened Media
  import opened AudioDevices

  /** `NoneAudioSystem.LOCATOR_PROTOCOL`: the audio system that plays nothing. */
  const NONE_LOCATOR_PROTOCOL: string := "none"

  /** A resolved `java.net.URL`. */
  datatype Url = Url(spec: string)

  // ---------------------------------------------------------------------------
  // AudioKey

  /** The key of the clip pool: a clip's URI and whether it uses the playback (rather than the notify) device. */
  datatype AudioKey = AudioKey(uri: Option<string>, playback: bool)

  /** `AudioKey.equals(o)` for `null` or another key: equal flags and null-safely equal URIs. */
  function AudioKeyEquals(k: AudioKey, o: Option<AudioKey>): (r: bool)
    ensures r <==> o == Some(k)
  {
    && o.Some?
    && k.playback == o.value.playback
    && (if k.uri.None? then o.value.uri.None? else o.value.uri.Some? && k.uri.value == o.value.uri.value)
  }

  /** `AudioKey.hashCode()`: the URI's hash code (0 for null) plus 1 for a playback key, in `int` arithmetic. */
  function AudioKeyHashCode(k: AudioKey): (h: int)
    ensures IsInt(h)
  {
    WrapInt((if k.uri.None? then 0 else StringHashCode(k.uri.value)) + (if k.playback then 1 else 0))
  }

  /** Congruence modulo 2^32 is transitive. */
  lemma CongruentTransitive(a: int, b: int, c: int)
    requires (a - b) % TWO_TO_32 == 0 && (b - c) % TWO_TO_32 == 0
    ensures (a - c) % TWO_TO_32 == 0
  {
    var x, y := (a - b) / TWO_TO_32, (b - c) / TWO_TO_32;
    assert a - b == TWO_TO_32 * x;
    assert b - c == TWO_TO_32 * y;
    assert a - c == TWO_TO_32 * (x + y);
  }

  /**
   * The hash code is consistent with equality, and it is the documented sum
   * `uri.hashCode() + (playback ? 1 : 0)` modulo 2^32 with the URI's hash unwrapped.
   */
  lemma AudioKeyHashCodeIsPolynomial(k: AudioKey)
    ensures forall o :: AudioKeyEquals(k, Some(o)) ==> AudioKeyHashCode(o) == AudioKeyHashCode(k)
    ensures (AudioKeyHashCode(k)
             - ((if k.uri.None? then 0 else HashPolynomial(k.uri.value)) + (if k.playback then 1 else 0))) % TWO_TO_32 == 0
  {
    var u := if k.uri.None? then 0 else StringHashCode(k.uri.value);
    var p := if k.uri.None? then 0 else HashPolynomial(k.uri.value);
    var b := if k.playback then 1 else 0;
    assert (AudioKeyHashCode(k) - (u + b)) % TWO_TO_32 == 0;
    assert ((u + b) - (p + b)) % TWO_TO_32 == 0 by {
      assert (u + b) - (p + b) == u - p;
    }
    CongruentTransitive(AudioKeyHashCode(k), u + b, p + b);
  }

  /** The notify and playback keys of one URI never collide in the hash table. */
  lemma PlaybackFlagChangesHashCode(uri: Option<string>)
    ensures AudioKeyHashCode(AudioKey(uri, true)) != AudioKeyHashCode(AudioKey(uri, false))
  {
    var u := if uri.None? then 0 else StringHashCode(uri.value);
    var t, f := WrapInt(u + 1), WrapInt(u);
    assert f == u;
    if u == INT_MAX {
      assert t == INT_MIN;
    } else {
      assert t == u + 1;
    }
  }

  // ---------------------------------------------------------------------------
  // Sharing of the notify and playback devices

  /** The result of a Java expression that may throw a `NullPointerException`. */
  datatype Evaluation = Value(b: bool) | NullPointer

  /**
   * `audioOutAndNotificationsShareSameDevice` as written: a null notify device
   * shares with a null playback device only; otherwise the locators are
   * compared through the playback device, which throws when that is null.
   */
  function SameDeviceAsWritten(notify: Option<DeviceInfo>, playback: Option<DeviceInfo>): Evaluation {
    if notify.None? then Value(playback.None?)
    else if playback.None? then NullPointer
    else Value(notify.value.locator == playback.value.locator)
  }

  /** A notify device without a playback device makes the method throw instead of answering. */
  lemma SameDeviceAsWrittenThrows(d: DeviceInfo)
    ensures SameDeviceAsWritten(Some(d), None) == NullPointer
  {
  }

  /** Whether two selections are the same device: both absent, or both present with equal locators. */
  function SameDevice(notify: Option<DeviceInfo>, playback: Option<DeviceInfo>): (r: bool)
    ensures r ==> (notify.None? <==> playback.None?)
    ensures notify.None? ==> (r <==> playback.None?)
    ensures notify.Some? && playback.Some? ==> (r <==> notify.value.locator == playback.value.locator)
  {
    if notify.None? then playback.None?
    else playback.Some? && notify.value.locator == playback.value.locator
  }

  /** The corrected comparison answers as the written one wherever that one answers, and is symmetric. */
  lemma SameDeviceAgreesWithWritten(notify: Option<DeviceInfo>, playback: Option<DeviceInfo>)
    ensures SameDeviceAsWritten(notify, playback).Value? ==> SameDeviceAsWritten(notify, playback).b == SameDevice(notify, playback)
    ensures SameDeviceAsWritten(notify, playback).NullPointer? ==> !SameDevice(notify, playback)
    ensures SameDevice(notify, playback) == SameDevice(playback, notify)
  {
  }

  /**
   * `audioOutAndNotificationsShareSameDevice`, as written, for the audio system
   * of the device configuration: with no audio system, or one whose categories
   * do not exist yet, reading its devices throws; otherwise the two selections
   * are compared as `SameDeviceAsWritten` does, which throws for a notify device
   * without a playback device.
   */
  function AudioOutAndNotificationsShareSameDevice(audioSystem: Option<AudioSystem>): (r: Evaluation)
    requires audioSystem.Some? ==> audioSystem.value.Valid()
    reads if audioSystem.Some? then {audioSystem.value} else {}
    reads if audioSystem.Some? && audioSystem.value.devices != null
          then {audioSystem.value.devices, audioSystem.value.devices[NOTIFY_INDEX], audioSystem.value.devices[PLAYBACK_INDEX]}
          else {}
    ensures audioSystem.None? || audioSystem.value.devices == null ==> r.NullPointer?
    ensures audioSystem.Some? && audioSystem.value.devices != null ==>
      var notify, playback := audioSystem.value.GetDevice(NOTIFY_INDEX), audioSystem.value.GetDevice(PLAYBACK_INDEX);
      && (notify.None? ==> r == Value(playback.None?))
      && (notify.Some? && playback.Some? ==> r == Value(notify.value.locator == playback.value.locator))
      && (notify.Some? && playback.None? ==> r.NullPointer?)
      && (r.Value? ==> r.b == SameDevice(notify, playback))
  {
    if audioSystem.None? || audioSystem.value.devices == null then NullPointer
    else
      var a := audioSystem.value;
      SameDeviceAsWritten(a.GetDevice(NOTIFY_INDEX), a.GetDevice(PLAYBACK_INDEX))
  }

  // ---------------------------------------------------------------------------
  // Clips

  /** A `JavaSoundClipImpl`; its playback is not part of this model, only the calls it receives. */
  class JavaSoundClip {
    const url: Url
    const audioNotifier: AudioNotifierService
    ghost var plays: nat
    ghost var stops: nat

    constructor (url: Url, audioNotifier: AudioNotifierService)
      ensures this.url == url && this.audioNotifier == audioNotifier && plays == 0 && stops == 0
    {
      this.url := url;
      this.audioNotifier := audioNotifier;
      plays, stops := 0, 0;
    }

    method Play()
      modifies this`plays
      ensures plays == old(plays) + 1
    {
      plays := plays + 1;
    }

    method Stop()
      modifies this`stops
      ensures stops == old(stops) + 1
    {
      stops := stops + 1;
    }
  }

  /** A clip the notifier pools: one of the two backends. */
  datatype Clip = JavaSound(javaSound: JavaSoundClip) | SystemClip(system: AudioSystemClip)

  /** A `HashMap<AudioKey, SCAudioClip>`; each map is a separate object, so a dropped map stays separate. */
  class ClipMap {
    var entries: map<AudioKey, Clip>

    constructor ()
      ensures entries == map[]
    {
      entries := map[];
    }
  }

  /**
   * The `SCAudioClip` that `createAudio` returns: it delegates to the pooled
   * clip and, when finalised, puts that clip back into the map that was live
   * when it was created.
   */
  class LoanedClip {
    const key: AudioKey
    const finalAudios: ClipMap
    const finalAudio: Clip
    /** Whether the finalizer has run. */
    var finalized: bool

    constructor (key: AudioKey, finalAudios: ClipMap, finalAudio: Clip)
      ensures this.key == key && this.finalAudios == finalAudios && this.finalAudio == finalAudio && !finalized
    {
      this.key := key;
      this.finalAudios := finalAudios;
      this.finalAudio := finalAudio;
      finalized := false;
    }

    method Play()
      requires finalAudio.SystemClip? ==> finalAudio.system.Valid()
      modifies if finalAudio.SystemClip? then {finalAudio.system} else {finalAudio.javaSound}
      ensures finalAudio.SystemClip? ==> finalAudio.system.Valid()
      ensures finalAudio.SystemClip? ==>
                var c := finalAudio.system;
                && (c.url.Some? && !c.audioNotifier.IsMute() ==> c.started)
                && (c.url.None? || c.audioNotifier.IsMute() ==> c.started == old(c.started))
                && c.isLooping == old(c.isLooping)
      ensures finalAudio.JavaSound? ==> finalAudio.javaSound.plays == old(finalAudio.javaSound.plays) + 1
    {
      match finalAudio
      case SystemClip(c) => c.Play();
      case JavaSound(j) => j.Play();
    }

    method Stop()
      requires finalAudio.SystemClip? ==> finalAudio.system.Valid()
      modifies if finalAudio.SystemClip? then {finalAudio.system} else {finalAudio.javaSound}
      ensures finalAudio.SystemClip? ==> finalAudio.system.Valid() && !finalAudio.system.started && !finalAudio.system.isLooping
      ensures finalAudio.JavaSound? ==> finalAudio.javaSound.stops == old(finalAudio.javaSound.stops) + 1
    {
      match finalAudio
      case SystemClip(c) => c.Stop();
      case JavaSound(j) => j.Stop();
    }

    /**
     * `finalize`: reclaims the clip into the map captured at creation, whichever
     * map is live now. It first locks the live map, so when there is none the
     * lock throws and nothing is reclaimed.
     */
    method Finalize(service: AudioNotifierService)
      requires service.Valid() && this in service.loans
      modifies this`finalized, finalAudios, service`loans
      ensures service.Valid()
      ensures finalized && service.loans == old(service.loans) - {this}
      ensures old(service.audios) != null ==> finalAudios.entries == old(finalAudios.entries)[key := finalAudio]
      ensures old(service.audios) == null ==> finalAudios.entries == old(finalAudios.entries)
      ensures finalAudios != service.audios && service.audios != null ==> service.audios.entries == old(service.audios.entries)
    {
      if service.audios != null {
        finalAudios.entries := finalAudios.entries[key := finalAudio];
      }
      finalized := true;
      service.loans := service.loans - {this};
    }
  }

  // ---------------------------------------------------------------------------
  // The notifier service

  /** What `createAudio` learns from outside the pool. */
  datatype ClipEnvironment = ClipEnvironment(
    resourceURL: Option<Url>,          // the resource service's URL for the path, null without a service
    parsedURL: Option<Url>,            // `new URL(uri)`, null when the URI is malformed
    audioSystem: Option<AudioSystem>,  // the audio system of the device configuration
    constructionFails: bool)           // the clip's constructor throws

  /** The URL a clip is created for: the resource's, else the URI parsed as a URL. */
  function ResolvedUrl(env: ClipEnvironment): Option<Url> {
    if env.resourceURL.Some? then env.resourceURL else env.parsedURL
  }

  /** Whether `a` is the audio system that plays nothing, by a case-insensitive comparison of its locator protocol. */
  predicate PlaysNothing(a: AudioSystem) {
    EqualsIgnoreCase(NONE_LOCATOR_PROTOCOL, a.locatorProtocol)
  }

  /** The name of a property of the device configuration. */
  datatype DeviceProperty = AudioNotifyDevice | AudioPlaybackDevice | OtherProperty(name: string)

  class AudioNotifierService {
    /** The pool of clips not on loan; null until the first clip is created and after a device change. */
    var audios: ClipMap?
    var mute: bool
    /** The loans not yet finalised. */
    ghost var loans: set<LoanedClip>

    /**
     * Every open loan holds its own clip, and no clip on loan is also in the
     * live pool, where each clip is pooled under one key only.
     */
    ghost predicate Valid()
      reads this, audios, loans
    {
      && (forall l :: l in loans ==> !l.finalized)
      && (forall l1, l2 :: l1 in loans && l2 in loans && l1 != l2 ==> l1.finalAudio != l2.finalAudio)
      && (audios != null ==>
            && (forall l, k :: l in loans && k in audios.entries ==> audios.entries[k] != l.finalAudio)
            && (forall k1, k2 :: k1 in audios.entries && k2 in audios.entries && k1 != k2 ==>
                  audios.entries[k1] != audios.entries[k2]))
    }

    constructor ()
      ensures Valid() && audios == null && !mute && loans == {}
    {
      audios := null;
      mute := false;
      loans := {};
    }

    /** `isMute`. */
    function IsMute(): (r: bool)
      reads this
      ensures r <==> mute
    {
      mute
    }

    /** `setMute`: only stores the flag. */
    method SetMute(mute: bool)
      modifies this`mute
      ensures IsMute() == mute
    {
      this.mute := mute;
    }

    /** Whether the live pool holds a clip for `key`. */
    ghost predicate Pooled(key: AudioKey)
      reads this, audios
    {
      audios != null && key in audios.entries
    }

    /**
     * `createAudio(uri, playback)`: loans the pooled clip for the key, removing
     * it from the pool; with nothing pooled, creates a clip for the resolved URL
     * on the configured audio system, creating the pool on the first clip.
     */
    method CreateAudio(uri: Option<string>, playback: bool, env: ClipEnvironment) returns (audio: LoanedClip?)
      requires Valid()
      modifies this, audios
      ensures Valid()
      ensures var key := AudioKey(uri, playback);
        // the pooled clip is loaned by removal
        && (old(Pooled(key)) ==>
              && audio != null && audio.finalAudio == old(audios.entries[key])
              && audios == old(audios) && audios.entries == old(audios.entries) - {key})
        // with nothing pooled the backend is chosen by the environment
        && (!old(Pooled(key)) ==>
              && (ResolvedUrl(env).None? ==> audio == null)
              && ((ResolvedUrl(env).Some? && env.audioSystem.None?) ==>
                    && (audio == null <==> env.constructionFails)
                    && (audio != null ==> audio.finalAudio.JavaSound? && fresh(audio.finalAudio.javaSound)
                                          && audio.finalAudio.javaSound.url == ResolvedUrl(env).value))
              && ((ResolvedUrl(env).Some? && env.audioSystem.Some? && PlaysNothing(env.audioSystem.value)) ==>
                    audio == null)
              && ((ResolvedUrl(env).Some? && env.audioSystem.Some? && !PlaysNothing(env.audioSystem.value)) ==>
                    && (audio == null <==> env.constructionFails)
                    && (audio != null ==>
                          && audio.finalAudio.SystemClip? && fresh(audio.finalAudio.system)
                          && audio.finalAudio.system.url == ResolvedUrl(env)
                          && audio.finalAudio.system.audioSystem == env.audioSystem.value
                          && !audio.finalAudio.system.started && audio.finalAudio.system.Valid()))
              // the pool is created lazily, for the first clip produced
              && (audio == null ==> audios == old(audios) && (audios != null ==> audios.entries == old(audios.entries)))
              && (audio != null && old(audios) == null ==> fresh(audios) && audios.entries == map[])
              && (audio != null && old(audios) != null ==> audios == old(audios) && audios.entries == old(audios.entries)))
        // a loan is a new wrapper holding a clip no other open loan holds, reclaimed into the live pool
        && (audio != null ==>
              && fresh(audio) && audio.key == key && audio.finalAudios == audios && !audio.finalized
              && loans == old(loans) + {audio}
              && (forall l :: l in old(loans) ==> l.finalAudio != audio.finalAudio))
        && (audio == null ==> loans == old(loans))
      ensures mute == old(mute)
    {
      var key := AudioKey(uri, playback);
      var clip: Option<Clip> := None;
      if audios != null && key in audios.entries {
        clip := Some(audios.entries[key]);
        audios.entries := audios.entries - {key};
      }
      if clip.None? {
        var url := ResolvedUrl(env);
        if url.None? {
          // the URI is malformed
          return null;
        }
        if env.audioSystem.None? {
          if env.constructionFails {
            return null;
          }
          var c := new JavaSoundClip(url.value, this);
          clip := Some(JavaSound(c));
        } else if PlaysNothing(env.audioSystem.value) {
          clip := None;
        } else {
          if env.constructionFails {
            return null;
          }
          var c := new AudioSystemClip(url, this, env.audioSystem.value);
          clip := Some(SystemClip(c));
        }
      }
      if clip.None? {
        return null;
      }
      if audios == null {
        audios := new ClipMap();
      }
      audio := new LoanedClip(key, audios, clip.value);
      loans := loans + {audio};
    }

    /** `createAudio(uri)`: `createAudio(uri, false)`, a clip for the notify device. */
    method CreateNotifyAudio(uri: Option<string>, env: ClipEnvironment) returns (audio: LoanedClip?)
      requires Valid()
      modifies this, audios
      ensures Valid()
      ensures var key := AudioKey(uri, false);
        // the pooled clip is loaned by removal
        && (old(Pooled(key)) ==>
              && audio != null && audio.finalAudio == old(audios.entries[key])
              && audios == old(audios) && audios.entries == old(audios.entries) - {key})
        // with nothing pooled the backend is chosen by the environment
        && (!old(Pooled(key)) ==>
              && (ResolvedUrl(env).None? ==> audio == null)
              && ((ResolvedUrl(env).Some? && env.audioSystem.None?) ==>
                    && (audio == null <==> env.constructionFails)
                    && (audio != null ==> audio.finalAudio.JavaSound? && fresh(audio.finalAudio.javaSound)
                                          && audio.finalAudio.javaSound.url == ResolvedUrl(env).value))
              && ((ResolvedUrl(env).Some? && env.audioSystem.Some? && PlaysNothing(env.audioSystem.value)) ==>
                    audio == null)
              && ((ResolvedUrl(env).Some? && env.audioSystem.Some? && !PlaysNothing(env.audioSystem.value)) ==>
                    && (audio == null <==> env.constructionFails)
                    && (audio != null ==>
                          && audio.finalAudio.SystemClip? && fresh(audio.finalAudio.system)
                          && audio.finalAudio.system.url == ResolvedUrl(env)
                          && audio.finalAudio.system.audioSystem == env.audioSystem.value
                          && !audio.finalAudio.system.started && audio.finalAudio.system.Valid()))
              // the pool is created lazily, for the first clip produced
              && (audio == null ==> audios == old(audios) && (audios != null ==> audios.entries == old(audios.entries)))
              && (audio != null && old(audios) == null ==> fresh(audios) && audios.entries == map[])
              && (audio != null && old(audios) != null ==> audios == old(audios) && audios.entries == old(audios.entries)))
        // a loan is a new wrapper holding a clip no other open loan holds, reclaimed into the live pool
        && (audio != null ==>
              && fresh(audio) && audio.key == key && audio.finalAudios == audios && !audio.finalized
              && loans == old(loans) + {audio}
              && (forall l :: l in old(loans) ==> l.finalAudio != audio.finalAudio))
        && (audio == null ==> loans == old(loans))
      ensures mute == old(mute)
    {
      audio := CreateAudio(uri, false, env);
    }

    /** `propertyChange`: a change of the notify or playback device drops the pool, so no earlier clip returns to it. */
    method PropertyChange(property: DeviceProperty)
      requires Valid()
      modifies this`audios
      ensures Valid()
      ensures property.OtherProperty? ==> audios == old(audios)
      ensures !property.OtherProperty? ==> audios == null
    {
      if property == AudioNotifyDevice || property == AudioPlaybackDevice {
        audios := null;
      }
    }
  }

  /** A clip loaned, reclaimed and loaned again with no device change in between is the same underlying clip. */
  method LoanReclaimLoan(s: AudioNotifierService, uri: Option<string>, playback: bool, env1: ClipEnvironment, env2: ClipEnvironment)
    returns (first: LoanedClip?, second: LoanedClip?)
    requires s.Valid()
    modifies s, s.audios
    ensures s.Valid()
    ensures first != null ==> second != null && second.finalAudio == first.finalAudio && first.finalized
  {
    first := s.CreateAudio(uri, playback, env1);
    second := null;
    if first != null {
      first.Finalize(s);
      second := s.CreateAudio(uri, playback, env2);
    }
  }

  /** Two loans for the same key before either is reclaimed hold different clips. */
  method LoanTwice(s: AudioNotifierService, uri: Option<string>, playback: bool, env1: ClipEnvironment, env2: ClipEnvironment)
    returns (first: LoanedClip?, second: LoanedClip?)
    requires s.Valid()
    modifies s, s.audios
    ensures s.Valid()
    ensures first != null && second != null ==> first.finalAudio != second.finalAudio
  {
    first := s.CreateAudio(uri, playback, env1);
    second := s.CreateAudio(uri, playback, env2);
  }

  /** A loan made before a device change and finalised after it never enters the new live pool. */
  method DeviceChangeIsolatesEarlierLoan(s: AudioNotifierService, earlier: LoanedClip, property: DeviceProperty,
                                        uri: Option<string>, playback: bool, env: ClipEnvironment)
    returns (later: LoanedClip?)
    requires s.Valid() && earlier in s.loans && !property.OtherProperty?
    modifies s, s.audios, earlier, earlier.finalAudios
    ensures s.Valid()
    ensures s.audios != null ==> forall k :: k in s.audios.entries ==> s.audios.entries[k] != earlier.finalAudio
  {
    s.PropertyChange(property);
    later := s.CreateAudio(uri, playback, env);
    if s.audios != null {
      assert s.audios.entries == map[];
    }
    earlier.Finalize(s);
  }

  // ---------------------------------------------------------------------------
  // AudioSystemClipImpl

  /** Whether the renderer is to take format `a` for resampler output `b` (`Format.matches`). */
  type FormatMatcher = (AudioFormat, AudioFormat) -> bool

  predicate MatchesSome(f: AudioFormat, candidates: seq<AudioFormat>, matches: FormatMatcher) {
    exists k :: 0 <= k < |candidates| && matches(f, candidates[k])
  }

  /** The renderer format the negotiation settles on: the last renderer format matching some resampler format, else `initial`. */
  function LastMatching(rendererFormats: seq<AudioFormat>, resamplerFormats: seq<AudioFormat>,
                        matches: FormatMatcher, initial: AudioFormat): AudioFormat
  {
    if rendererFormats == [] then initial
    else if MatchesSome(rendererFormats[|rendererFormats| - 1], resamplerFormats, matches)
    then rendererFormats[|rendererFormats| - 1]
    else LastMatching(rendererFormats[..|rendererFormats| - 1], resamplerFormats, matches, initial)
  }

  /**
   * The negotiated format is the stream's own when no renderer format matches;
   * otherwise it is a matching renderer format after which none matches.
   */
  lemma {:induction false} LastMatchingIsLast(rendererFormats: seq<AudioFormat>, resamplerFormats: seq<AudioFormat>,
                                              matches: FormatMatcher, initial: AudioFormat)
    ensures var r := LastMatching(rendererFormats, resamplerFormats, matches, initial);
      && ((forall i :: 0 <= i < |rendererFormats| ==> !MatchesSome(rendererFormats[i], resamplerFormats, matches)) ==> r == initial)
      && ((exists i :: 0 <= i < |rendererFormats| && MatchesSome(rendererFormats[i], resamplerFormats, matches)) ==>
            exists i :: && 0 <= i < |rendererFormats| && r == rendererFormats[i]
                        && MatchesSome(rendererFormats[i], resamplerFormats, matches)
                        && forall j :: i < j < |rendererFormats| ==> !MatchesSome(rendererFormats[j], resamplerFormats, matches))
  {
    if rendererFormats != [] {
      var n := |rendererFormats| - 1;
      var prefix := rendererFormats[..n];
      LastMatchingIsLast(prefix, resamplerFormats, matches, initial);
      if !MatchesSome(rendererFormats[n], resamplerFormats, matches) {
        if exists i :: 0 <= i < |rendererFormats| && MatchesSome(rendererFormats[i], resamplerFormats, matches) {
          var i :| 0 <= i < |rendererFormats| && MatchesSome(rendererFormats[i], resamplerFormats, matches);
          assert prefix[i] == rendererFormats[i];
          var m :| && 0 <= m < |prefix| && LastMatching(prefix, resamplerFormats, matches, initial) == prefix[m]
                   && MatchesSome(prefix[m], resamplerFormats, matches)
                   && forall j :: m < j < |prefix| ==> !MatchesSome(prefix[j], resamplerFormats, matches);
          assert forall j :: m < j < |rendererFormats| ==> !MatchesSome(rendererFormats[j], resamplerFormats, matches) by {
            forall j | m < j < |rendererFormats|
              ensures !MatchesSome(rendererFormats[j], resamplerFormats, matches)
            {
              if j < n {
                assert prefix[j] == rendererFormats[j];
              }
            }
          }
          assert rendererFormats[m] == prefix[m];
        } else {
          forall i | 0 <= i < |prefix| ensures !MatchesSome(prefix[i], resamplerFormats, matches) {
            assert prefix[i] == rendererFormats[i];
          }
        }
      }
    }
  }

  /**
   * The nested search of `runOnceInPlayThread`: for each renderer format in
   * turn, the first matching resampler format makes it the renderer format; the
   * `break` leaves only the inner loop, so a later match overrides an earlier one.
   */
  method NegotiateRendererFormat(rendererFormat: AudioFormat, rendererFormats: seq<AudioFormat>,
                                 resamplerFormats: seq<AudioFormat>, matches: FormatMatcher)
    returns (r: AudioFormat)
    ensures r == LastMatching(rendererFormats, resamplerFormats, matches, rendererFormat)
  {
    r := rendererFormat;
    var i := 0;
    while i < |rendererFormats|
      invariant 0 <= i <= |rendererFormats|
      invariant r == LastMatching(rendererFormats[..i], resamplerFormats, matches, rendererFormat)
    {
      ghost var before := r;
      var j := 0;
      while j < |resamplerFormats|
        invariant 0 <= j <= |resamplerFormats|
        invariant r == before
        invariant forall m :: 0 <= m < j ==> !matches(rendererFormats[i], resamplerFormats[m])
      {
        if matches(rendererFormats[i], resamplerFormats[j]) {
          r := rendererFormats[i];
          break;
        }
        j := j + 1;
      }
      assert rendererFormats[..i + 1][..i] == rendererFormats[..i];
      assert rendererFormats[..i + 1][i] == rendererFormats[i];
      i := i + 1;
    }
    assert rendererFormats[..i] == rendererFormats;
  }

  /** How the renderer and the stream behave once a pass starts playing. */
  datatype PlaybackOutcome = PlayedToEnd | RendererUnavailable | ReadFailed

  /** A call another thread makes on the clip while a pass plays or the loop waits. */
  datatype ConcurrentCall = NoCall | InternalStopCall | StopCall

  /** What one pass of the play thread meets. */
  datatype PassEnvironment = PassEnvironment(
    streamFormat: Option<AudioFormat>,    // the format of the `AudioInputStream` for the URL, null when none is obtained
    rendererAccepts: bool,                // the renderer accepts the stream's own linear format
    rendererFormats: seq<AudioFormat>,    // the renderer's supported input formats
    resamplerFormats: seq<AudioFormat>,   // the resampler's supported output formats
    resamplerOpens: bool,                 // `resampler.open()` does not throw
    playback: PlaybackOutcome,
    interleaved: ConcurrentCall)

  /** Whether a pass reports success: it got a stream, could open the resampler if it needed one, and played to the end. */
  predicate PassSucceeds(env: PassEnvironment) {
    env.streamFormat.Some? && (env.rendererAccepts || env.resamplerOpens) && env.playback == PlayedToEnd
  }

  /** The outcome of `runOnceInPlayThread` and the format it gave the renderer buffer. */
  datatype PassResult = PassResult(ok: bool, rendererFormat: Option<AudioFormat>)

  class AudioSystemClip {
    const url: Option<Url>
    const audioNotifier: AudioNotifierService
    const audioSystem: AudioSystem
    var started: bool
    var isLooping: bool
    var loopInterval: int
    /** The play threads started so far. */
    ghost var playThreads: nat

    /** A clip without a URL never starts. */
    ghost predicate Valid()
      reads this
    {
      url.None? ==> !started
    }

    constructor (url: Option<Url>, audioNotifier: AudioNotifierService, audioSystem: AudioSystem)
      ensures Valid()
      ensures this.url == url && this.audioNotifier == audioNotifier && this.audioSystem == audioSystem
      ensures !started && !isLooping && playThreads == 0
    {
      this.url := url;
      this.audioNotifier := audioNotifier;
      this.audioSystem := audioSystem;
      started, isLooping := false, false;
      loopInterval := 0;
      playThreads := 0;
    }

    /** `play`: starts a play thread unless there is no URL or the notifier is muted. */
    method Play()
      requires Valid()
      modifies this`started, this`playThreads
      ensures Valid()
      ensures url.Some? && !audioNotifier.IsMute() ==> started && playThreads == old(playThreads) + 1
      ensures url.None? || audioNotifier.IsMute() ==> started == old(started) && playThreads == old(playThreads)
    {
      if url.Some? && !audioNotifier.IsMute() {
        started := true;
        playThreads := playThreads + 1;
      }
    }

    /** `playInLoop`: sets the loop interval and looping, then plays. */
    method PlayInLoop(interval: int)
      requires Valid()
      modifies this`started, this`playThreads, this`isLooping, this`loopInterval
      ensures Valid()
      ensures loopInterval == interval && isLooping
      ensures url.Some? && !audioNotifier.IsMute() ==> started && playThreads == old(playThreads) + 1
      ensures url.None? || audioNotifier.IsMute() ==> started == old(started) && playThreads == old(playThreads)
    {
      loopInterval := interval;
      isLooping := true;
      Play();
    }

    /** `stop`: stops playing and looping. */
    method Stop()
      requires Valid()
      modifies this`started, this`isLooping
      ensures Valid() && !started && !isLooping
    {
      InternalStop();
      isLooping := false;
    }

    /** `internalStop`: stops a started clip with a URL, keeping it looping so that it can be resumed. */
    method InternalStop()
      requires Valid()
      modifies this`started
      ensures Valid() && !started
      ensures url.None? || !old(started) ==> started == old(started)
    {
      if url.Some? && started {
        started := false;
      }
    }

    /** `runOnceInPlayThread`: one playback of the stream, negotiating the renderer format on the way. */
    method RunOnceInPlayThread(env: PassEnvironment, matches: FormatMatcher) returns (result: PassResult)
      ensures result.ok == PassSucceeds(env)
      ensures env.streamFormat.None? ==> result.rendererFormat.None?
      ensures env.streamFormat.Some? ==>
                var f := env.streamFormat.value;
                var own := LinearFormat(f.sampleRate, f.sampleSizeInBits, f.channels);
                result.rendererFormat == Some(
                  if env.rendererAccepts then own
                  else LastMatching(env.rendererFormats, env.resamplerFormats, matches, own))
    {
      if env.streamFormat.None? {
        return PassResult(false, None);
      }
      var audioStreamFormat := env.streamFormat.value;
      var rendererFormat := LinearFormat(audioStreamFormat.sampleRate, audioStreamFormat.sampleSizeInBits, audioStreamFormat.channels);
      var resampling := false;
      if !env.rendererAccepts {
        resampling := true;
        rendererFormat := NegotiateRendererFormat(rendererFormat, env.rendererFormats, env.resamplerFormats, matches);
      }
      if resampling && !env.resamplerOpens {
        return PassResult(false, Some(rendererFormat));
      }
      result := PassResult(env.playback == PlayedToEnd, Some(rendererFormat));
    }

    /**
     * `runInPlayThread`: plays passes while started, one pass only unless
     * looping, ending at the first pass that fails. The loop's run is bounded
     * by the passes the environment describes.
     */
    method RunInPlayThread(passes: seq<PassEnvironment>, matches: FormatMatcher) returns (count: nat)
      requires Valid()
      modifies this`started, this`isLooping
      ensures Valid()
      ensures count <= |passes|
      ensures !old(started) ==> count == 0 && started == old(started) && isLooping == old(isLooping)
      ensures old(started) && |passes| > 0 ==> count >= 1
      // without looping there is at most one pass
      ensures !old(isLooping) ==> count <= 1
      ensures isLooping ==> old(isLooping)
      // a pass is followed by another only if it succeeded ...
      ensures forall k :: 0 <= k < count - 1 ==> PassSucceeds(passes[k])
      // ... and the loop ends early only after a failed pass, a stop or the end of looping
      ensures 0 < count < |passes| ==> !PassSucceeds(passes[count - 1]) || !isLooping || !started
      // a stop during a pass ends the loop: only the last pass can see one
      ensures forall k :: 0 <= k < count - 1 ==> passes[k].interleaved == NoCall
      ensures 0 < count && passes[count - 1].interleaved != NoCall ==> !started
      ensures 0 < count && passes[count - 1].interleaved == StopCall ==> !isLooping
    {
      var i := 0;
      while started && i < |passes|
        invariant 0 <= i <= |passes|
        invariant Valid()
        invariant forall k :: 0 <= k < i ==> PassSucceeds(passes[k])
        invariant isLooping ==> old(isLooping)
        invariant !old(isLooping) ==> i == 0
        invariant i == 0 ==> started == old(started) && isLooping == old(isLooping)
        invariant i > 0 ==> old(started)
        invariant forall k :: 0 <= k < i - 1 ==> passes[k].interleaved == NoCall
        invariant i > 0 && passes[i - 1].interleaved != NoCall ==> !started
        invariant i > 0 && passes[i - 1].interleaved == StopCall ==> !isLooping
      {
        var result := RunOnceInPlayThread(passes[i], matches);
        i := i + 1;
        // the other thread's call takes effect whatever the pass returned
        match passes[i - 1].interleaved {
          case NoCall =>
          case InternalStopCall => InternalStop();
          case StopCall => Stop();
        }
        if !result.ok {
          break;
        }
        if !isLooping {
          break;
        }
        // waiting for the loop interval is not modelled
      }
      count := i;
    }
  }
}
