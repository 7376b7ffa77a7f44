/**
 * Device-category bookkeeping of `AudioSystem.java`: the three category slots
 * (capture, notify, playback) an audio system keeps, the feature flags that
 * decide which of them post-initialisation refreshes, and the lookups of the
 * registered audio systems by locator protocol.
 *
 * The category classes `CaptureDevices`, `NotifyDevices` and `PlaybackDevices`
 * are not part of this model; `Devices` stands for them as a list of active
 * devices plus the device last selected.
 */
module AudioDevices {
  import opened JavaLang

  /** The indices of the device categories in an audio system's `devices` array. */
  const CAPTURE_INDEX: int := 0
  const NOTIFY_INDEX: int := 1
  const PLAYBACK_INDEX: int := 2

  /** The feature flags an audio system reports in `getFeatures()`. */
  const FEATURE_DENOISE: int := 2
  const FEATURE_ECHO_CANCELLATION: int := 4
  const FEATURE_NOTIFY_AND_PLAYBACK_DEVICES: int := 8

  const LOCATOR_PROTOCOL_AUDIORECORD: string := "audiorecord"
  const LOCATOR_PROTOCOL_JAVASOUND: string := "javasound"
  const LOCATOR_PROTOCOL_OPENSLES: string := "opensles"
  const LOCATOR_PROTOCOL_PORTAUDIO: string := "portaudio"
  const LOCATOR_PROTOCOL_PULSEAUDIO: string := "pulseaudio"

  /** The Java `int` `x` as a 32-bit pattern. */
  function Bits(x: int): bv32 {
    (x % TWO_TO_32) as bv32
  }

  /** `(flag & features) != 0`. */
  predicate HasFeature(features: int, flag: int) {
    Bits(flag) & Bits(features) != 0
  }

  /** The three feature flags are distinct single bits, so each can be tested on its own. */
  lemma FeatureFlagsAreSingleBits()
    ensures forall f | f in [FEATURE_DENOISE, FEATURE_ECHO_CANCELLATION, FEATURE_NOTIFY_AND_PLAYBACK_DEVICES] ::
              Bits(f) != 0 && Bits(f) & (Bits(f) - 1) == 0
    ensures Bits(FEATURE_DENOISE) & Bits(FEATURE_ECHO_CANCELLATION) == 0
    ensures Bits(FEATURE_DENOISE) & Bits(FEATURE_NOTIFY_AND_PLAYBACK_DEVICES) == 0
    ensures Bits(FEATURE_ECHO_CANCELLATION) & Bits(FEATURE_NOTIFY_AND_PLAYBACK_DEVICES) == 0
  {
    assert Bits(2) == 2 && Bits(4) == 4 && Bits(8) == 8;
  }

  /** An `ExtendedCaptureDeviceInfo`: a device's name and its locator. */
  datatype DeviceInfo = DeviceInfo(name: string, locator: string)

  /**
   * How a category picks the device to use, given the device last selected and
   * the active devices. The real rule (configured preferences of the category
   * classes) is not part of this model.
   */
  type DeviceChoice = (Option<DeviceInfo>, seq<DeviceInfo>) -> Option<DeviceInfo>

  /** A choice that only ever picks one of the active devices. */
  ghost predicate ChoosesActive(choose: DeviceChoice) {
    forall selected, active :: choose(selected, active).Some? ==> choose(selected, active).value in active
  }

  /** One device category of an audio system. */
  class Devices {
    const category: int
    /** The category's selection rule, which is only known to pick an active device. */
    const choose: DeviceChoice
    /** The devices of this category currently present. */
    var activeDevices: seq<DeviceInfo>
    /** The device last passed to `setDevice`. */
    var selected: Option<DeviceInfo>

    constructor (category: int, choose: DeviceChoice)
      requires ChoosesActive(choose)
      ensures this.category == category && this.choose == choose && activeDevices == [] && selected.None?
    {
      this.category := category;
      this.choose := choose;
      activeDevices := [];
      selected := None;
    }

    /** `getDevice(locatorProtocol, activeDevices)`: the device the category picks among `activeDevices`. */
    function GetDevice(locatorProtocol: string, activeDevices: seq<DeviceInfo>): (d: Option<DeviceInfo>)
      requires ChoosesActive(choose)
      reads this
      ensures d.Some? ==> d.value in activeDevices
    {
      choose(selected, activeDevices)
    }

    method SetActiveDevices(activeDevices: seq<DeviceInfo>)
      modifies this`activeDevices
      ensures this.activeDevices == activeDevices
    {
      this.activeDevices := activeDevices;
    }

    /** `setDevice(locatorProtocol, device, save)`: saving the choice to the configuration is not part of this model. */
    method SetDevice(locatorProtocol: string, device: Option<DeviceInfo>, save: bool)
      modifies this`selected
      ensures selected == device
    {
      selected := device;
    }
  }

  /** A step of post-initialisation, in the order `postInitialize` takes them. */
  datatype InitStep = SpecificDevices(index: int) | SuperPostInitialize

  /** How a step of post-initialisation ended: normally, or by throwing. */
  datatype InitOutcome = Completed | Threw(step: InitStep)

  /** The outcome of `try { body } finally { cleanup }`: an exception of the finally block replaces that of the try block. */
  function Finally(body: InitOutcome, cleanup: InitOutcome): InitOutcome {
    if cleanup.Threw? then cleanup else body
  }

  /** The outcome of steps run one in the `finally` of the other: the exception of the last step that threw, if any. */
  function LastThrown(outcomes: seq<InitOutcome>): (r: InitOutcome)
    ensures r.Completed? <==> forall k :: 0 <= k < |outcomes| ==> outcomes[k].Completed?
    ensures r.Threw? ==> r in outcomes
  {
    if outcomes == [] then Completed
    else if outcomes[|outcomes| - 1].Threw? then outcomes[|outcomes| - 1]
    else LastThrown(outcomes[..|outcomes| - 1])
  }

  /** Running one more step in a `finally` block is taking the last exception of one more outcome. */
  lemma FinallyIsLastThrown(outcomes: seq<InitOutcome>, cleanup: InitOutcome)
    ensures LastThrown(outcomes + [cleanup]) == Finally(LastThrown(outcomes), cleanup)
  {
    assert (outcomes + [cleanup])[..|outcomes|] == outcomes;
  }

  /** A step whose `finally` block runs all the later steps is overridden by the last of them that threw. */
  lemma {:induction false} LastThrownPrepend(body: InitOutcome, later: seq<InitOutcome>)
    ensures LastThrown([body] + later) == Finally(body, LastThrown(later))
    decreases |later|
  {
    if later == [] {
      assert [body] + later == [] + [body];
      FinallyIsLastThrown([], body);
    } else {
      var front, last := later[..|later| - 1], later[|later| - 1];
      assert later == front + [last];
      assert [body] + later == ([body] + front) + [last];
      FinallyIsLastThrown([body] + front, last);
      FinallyIsLastThrown(front, last);
      LastThrownPrepend(body, front);
    }
  }

  /** The nested `finally` blocks of `postInitialize` propagate the exception of the last step that threw. */
  lemma PostInitializePropagatesLastThrown(capture: InitOutcome, notify: InitOutcome, playback: InitOutcome, superclass: InitOutcome)
    ensures LastThrown([capture, notify, playback, superclass]) == Finally(Finally(capture, Finally(notify, playback)), superclass)
    ensures LastThrown([capture, superclass]) == Finally(capture, superclass)
  {
    assert [capture] == [] + [capture];
    FinallyIsLastThrown([], capture);
    assert [capture, notify] == [capture] + [notify];
    FinallyIsLastThrown([capture], notify);
    assert [capture, notify, playback] == [capture, notify] + [playback];
    FinallyIsLastThrown([capture, notify], playback);
    assert [capture, notify, playback, superclass] == [capture, notify, playback] + [superclass];
    FinallyIsLastThrown([capture, notify, playback], superclass);
    assert [capture, superclass] == [capture] + [superclass];
    FinallyIsLastThrown([capture], superclass);
  }

  /** The steps `postInitialize` takes for an audio system with these features, whichever of them throw. */
  function PostInitializeSteps(features: int): seq<InitStep> {
    [SpecificDevices(CAPTURE_INDEX)]
    + (if HasFeature(features, FEATURE_NOTIFY_AND_PLAYBACK_DEVICES)
       then [SpecificDevices(NOTIFY_INDEX), SpecificDevices(PLAYBACK_INDEX)]
       else [])
    + [SuperPostInitialize]
  }

  /**
   * Post-initialisation always starts with the capture devices and ends with
   * the superclass step; it visits the notify and then the playback devices
   * exactly when the system differentiates them.
   */
  lemma PostInitializeOrder(features: int)
    ensures var s := PostInitializeSteps(features);
      && s[0] == SpecificDevices(CAPTURE_INDEX) && s[|s| - 1] == SuperPostInitialize
      && (SpecificDevices(NOTIFY_INDEX) in s <==> HasFeature(features, FEATURE_NOTIFY_AND_PLAYBACK_DEVICES))
      && (SpecificDevices(PLAYBACK_INDEX) in s <==> HasFeature(features, FEATURE_NOTIFY_AND_PLAYBACK_DEVICES))
      && (HasFeature(features, FEATURE_NOTIFY_AND_PLAYBACK_DEVICES) ==>
            s == [SpecificDevices(CAPTURE_INDEX), SpecificDevices(NOTIFY_INDEX), SpecificDevices(PLAYBACK_INDEX), SuperPostInitialize])
      && (!HasFeature(features, FEATURE_NOTIFY_AND_PLAYBACK_DEVICES) ==>
            s == [SpecificDevices(CAPTURE_INDEX), SuperPostInitialize])
  {
  }

  class AudioSystem {
    const locatorProtocol: string
    /** `getFeatures()`. */
    const features: int
    /** The device categories, indexed by `CAPTURE_INDEX`, `NOTIFY_INDEX` and `PLAYBACK_INDEX`; null until `preInitialize`. */
    var devices: array?<Devices>
    /** The post-initialisation steps taken so far, and how each ended. */
    ghost var steps: seq<InitStep>
    ghost var outcomes: seq<InitOutcome>

    /** Once created, the array holds one category per slot, the slot's own, each picking only active devices. */
    ghost predicate Valid()
      reads this, devices
    {
      devices != null ==>
        && devices.Length == 3
        && devices[CAPTURE_INDEX].category == CAPTURE_INDEX
        && devices[NOTIFY_INDEX].category == NOTIFY_INDEX
        && devices[PLAYBACK_INDEX].category == PLAYBACK_INDEX
        && ChoosesActive(devices[CAPTURE_INDEX].choose)
        && ChoosesActive(devices[NOTIFY_INDEX].choose)
        && ChoosesActive(devices[PLAYBACK_INDEX].choose)
    }

    /** `AudioSystem(locatorProtocol)`: a system with no features. */
    constructor (locatorProtocol: string)
      ensures Valid() && devices == null && steps == [] && outcomes == []
      ensures this.locatorProtocol == locatorProtocol && features == 0
    {
      this.locatorProtocol := locatorProtocol;
      features := 0;
      devices := null;
      steps, outcomes := [], [];
    }

    /** `AudioSystem(locatorProtocol, features)`. */
    constructor WithFeatures(locatorProtocol: string, features: int)
      ensures Valid() && devices == null && steps == [] && outcomes == []
      ensures this.locatorProtocol == locatorProtocol && this.features == features
    {
      this.locatorProtocol := locatorProtocol;
      this.features := features;
      devices := null;
      steps, outcomes := [], [];
    }

    /**
     * `preInitialize`: creates the three categories the first time only. The
     * selection rules of `CaptureDevices`, `NotifyDevices` and `PlaybackDevices`
     * are parameters.
     */
    method PreInitialize(captureChoice: DeviceChoice, notifyChoice: DeviceChoice, playbackChoice: DeviceChoice)
      requires Valid()
      requires ChoosesActive(captureChoice) && ChoosesActive(notifyChoice) && ChoosesActive(playbackChoice)
      modifies this`devices
      ensures Valid() && devices != null
      ensures old(devices) != null ==> devices == old(devices)
      ensures old(devices) == null ==>
                && fresh(devices) && fresh(devices[CAPTURE_INDEX]) && fresh(devices[NOTIFY_INDEX]) && fresh(devices[PLAYBACK_INDEX])
                && devices[CAPTURE_INDEX].activeDevices == [] && devices[NOTIFY_INDEX].activeDevices == []
                && devices[PLAYBACK_INDEX].activeDevices == []
                && devices[CAPTURE_INDEX].choose == captureChoice && devices[NOTIFY_INDEX].choose == notifyChoice
                && devices[PLAYBACK_INDEX].choose == playbackChoice
    {
      if devices == null {
        var capture := new Devices(CAPTURE_INDEX, captureChoice);
        var notify := new Devices(NOTIFY_INDEX, notifyChoice);
        var playback := new Devices(PLAYBACK_INDEX, playbackChoice);
        devices := new Devices[] [capture, notify, playback];
      }
    }

    /** `getDevices(index)`: the active devices of a category. */
    function GetDevices(index: int): (activeDevices: seq<DeviceInfo>)
      requires Valid() && devices != null && 0 <= index < 3
      reads this, devices, devices[index]
      ensures activeDevices == devices[index].activeDevices
    {
      devices[index].activeDevices
    }

    /** `getDevice(index)`: the device a category selects among its active devices. */
    function GetDevice(index: int): (d: Option<DeviceInfo>)
      requires Valid() && devices != null && 0 <= index < 3
      reads this, devices, devices[index]
      ensures d.Some? ==> d.value in GetDevices(index)
    {
      devices[index].GetDevice(locatorProtocol, GetDevices(index))
    }

    /** `setDevice(index, device, save)`: selects a device of one category. */
    method SetDevice(index: int, device: Option<DeviceInfo>, save: bool)
      requires Valid() && devices != null && 0 <= index < 3
      modifies devices[index]
      ensures Valid()
      ensures devices[index].selected == device
      ensures GetDevices(index) == old(GetDevices(index))
    {
      devices[index].SetDevice(locatorProtocol, device, save);
    }

    /** `setCaptureDevices`: replaces the capture list only. */
    method SetCaptureDevices(activeCaptureDevices: seq<DeviceInfo>)
      requires Valid() && devices != null
      modifies devices[CAPTURE_INDEX]
      ensures Valid()
      ensures GetDevices(CAPTURE_INDEX) == activeCaptureDevices
      ensures devices[CAPTURE_INDEX].selected == old(devices[CAPTURE_INDEX].selected)
      ensures GetDevices(NOTIFY_INDEX) == old(GetDevices(NOTIFY_INDEX))
      ensures GetDevices(PLAYBACK_INDEX) == old(GetDevices(PLAYBACK_INDEX))
    {
      devices[CAPTURE_INDEX].SetActiveDevices(activeCaptureDevices);
    }

    /** `setPlaybackDevices`: the notify devices are the playback devices. */
    method SetPlaybackDevices(activePlaybackDevices: seq<DeviceInfo>)
      requires Valid() && devices != null
      modifies devices[PLAYBACK_INDEX], devices[NOTIFY_INDEX]
      ensures Valid()
      ensures GetDevices(PLAYBACK_INDEX) == activePlaybackDevices
      ensures GetDevices(NOTIFY_INDEX) == activePlaybackDevices
      ensures devices[PLAYBACK_INDEX].selected == old(devices[PLAYBACK_INDEX].selected)
      ensures devices[NOTIFY_INDEX].selected == old(devices[NOTIFY_INDEX].selected)
      ensures GetDevices(CAPTURE_INDEX) == old(GetDevices(CAPTURE_INDEX))
    {
      devices[PLAYBACK_INDEX].SetActiveDevices(activePlaybackDevices);
      devices[NOTIFY_INDEX].SetActiveDevices(activePlaybackDevices);
    }

    /**
     * `postInitializeSpecificDevices(index)`: re-selects the device a category
     * picks among its active devices. The category's own code, which is not part
     * of this model, may throw; the model then leaves the selection as it was.
     */
    method PostInitializeSpecificDevices(index: int) returns (r: InitOutcome)
      requires Valid() && devices != null && 0 <= index < 3
      modifies devices[index], this`steps, this`outcomes
      ensures Valid()
      ensures steps == old(steps) + [SpecificDevices(index)] && outcomes == old(outcomes) + [r]
      ensures GetDevices(index) == old(GetDevices(index))
      ensures r.Completed? ==> devices[index].selected == old(GetDevice(index))
      ensures r.Threw? ==> r.step == SpecificDevices(index) && devices[index].selected == old(devices[index].selected)
    {
      var throws: bool :| true;
      if throws {
        r := Threw(SpecificDevices(index));
      } else {
        var activeDevices := GetDevices(index);
        var categoryDevices := devices[index];
        var selectedActiveDevice := categoryDevices.GetDevice(locatorProtocol, activeDevices);
        categoryDevices.SetDevice(locatorProtocol, selectedActiveDevice, false);
        r := Completed;
      }
      steps, outcomes := steps + [SpecificDevices(index)], outcomes + [r];
    }

    /** The notify and then the playback devices, the second in the `finally` of the first. */
    method PostInitializeNotifyAndPlayback() returns (r: InitOutcome)
      requires Valid() && devices != null
      modifies devices[NOTIFY_INDEX], devices[PLAYBACK_INDEX], this`steps, this`outcomes
      ensures Valid()
      ensures steps == old(steps) + [SpecificDevices(NOTIFY_INDEX), SpecificDevices(PLAYBACK_INDEX)]
      ensures |outcomes| == |old(outcomes)| + 2 && outcomes[..|old(outcomes)|] == old(outcomes)
      ensures r == Finally(outcomes[|old(outcomes)|], outcomes[|old(outcomes)| + 1])
      ensures GetDevices(NOTIFY_INDEX) == old(GetDevices(NOTIFY_INDEX)) && GetDevices(PLAYBACK_INDEX) == old(GetDevices(PLAYBACK_INDEX))
      ensures devices[NOTIFY_INDEX].selected ==
                if outcomes[|old(outcomes)|].Completed? then old(GetDevice(NOTIFY_INDEX)) else old(devices[NOTIFY_INDEX].selected)
      ensures devices[PLAYBACK_INDEX].selected ==
                if outcomes[|old(outcomes)| + 1].Completed? then old(GetDevice(PLAYBACK_INDEX)) else old(devices[PLAYBACK_INDEX].selected)
    {
      var notify := PostInitializeSpecificDevices(NOTIFY_INDEX);
      var playback := PostInitializeSpecificDevices(PLAYBACK_INDEX);
      r := Finally(notify, playback);
    }

    /** `DeviceSystem.postInitialize`, which is not part of this model beyond being a step that may throw. */
    method SuperPostInitialize() returns (r: InitOutcome)
      modifies this`steps, this`outcomes
      ensures steps == old(steps) + [InitStep.SuperPostInitialize] && outcomes == old(outcomes) + [r]
      ensures r.Threw? ==> r.step == InitStep.SuperPostInitialize
    {
      var throws: bool :| true;
      r := if throws then Threw(InitStep.SuperPostInitialize) else Completed;
      steps, outcomes := steps + [InitStep.SuperPostInitialize], outcomes + [r];
    }

    /**
     * The `finally` block of the capture devices in `postInitialize`: the
     * notify and then the playback devices if differentiated, then the superclass.
     */
    method PostInitializeAfterCapture() returns (r: InitOutcome)
      requires Valid() && devices != null
      modifies devices[NOTIFY_INDEX], devices[PLAYBACK_INDEX], this`steps, this`outcomes
      ensures Valid()
      ensures steps == old(steps) + PostInitializeSteps(features)[1..]
      ensures |outcomes| == |old(outcomes)| + |PostInitializeSteps(features)| - 1 && outcomes[..|old(outcomes)|] == old(outcomes)
      ensures r == LastThrown(outcomes[|old(outcomes)|..])
      ensures GetDevices(NOTIFY_INDEX) == old(GetDevices(NOTIFY_INDEX)) && GetDevices(PLAYBACK_INDEX) == old(GetDevices(PLAYBACK_INDEX))
      ensures HasFeature(features, FEATURE_NOTIFY_AND_PLAYBACK_DEVICES) ==>
                && devices[NOTIFY_INDEX].selected ==
                     (if outcomes[|old(outcomes)|].Completed? then old(GetDevice(NOTIFY_INDEX)) else old(devices[NOTIFY_INDEX].selected))
                && devices[PLAYBACK_INDEX].selected ==
                     (if outcomes[|old(outcomes)| + 1].Completed? then old(GetDevice(PLAYBACK_INDEX)) else old(devices[PLAYBACK_INDEX].selected))
      ensures !HasFeature(features, FEATURE_NOTIFY_AND_PLAYBACK_DEVICES) ==>
                && devices[NOTIFY_INDEX].selected == old(devices[NOTIFY_INDEX].selected)
                && devices[PLAYBACK_INDEX].selected == old(devices[PLAYBACK_INDEX].selected)
    {
      if HasFeature(features, FEATURE_NOTIFY_AND_PLAYBACK_DEVICES) {
        var pair := PostInitializeNotifyAndPlayback();
        ghost var notify, playback := outcomes[|old(outcomes)|], outcomes[|old(outcomes)| + 1];
        var superclass := SuperPostInitialize();
        r := Finally(pair, superclass);
        assert outcomes[|old(outcomes)|..] == [notify, playback] + [superclass];
        assert [notify, playback] == [notify] + [playback];
        FinallyIsLastThrown([], notify);
        FinallyIsLastThrown([notify], playback);
        FinallyIsLastThrown([notify, playback], superclass);
      } else {
        var superclass := SuperPostInitialize();
        r := superclass;
        assert outcomes[|old(outcomes)|..] == [] + [superclass];
        FinallyIsLastThrown([], superclass);
      }
    }

    /**
     * `postInitialize`: the capture devices, then the notify and playback
     * devices if differentiated, then the superclass, each in a `finally` of the
     * one before, so every step runs whichever throw, and the exception of the
     * last step that threw propagates.
     */
    method PostInitialize() returns (r: InitOutcome)
      requires Valid() && devices != null
      modifies devices[CAPTURE_INDEX], devices[NOTIFY_INDEX], devices[PLAYBACK_INDEX], this`steps, this`outcomes
      ensures Valid()
      ensures steps == old(steps) + PostInitializeSteps(features)
      ensures |outcomes| == |old(outcomes)| + |PostInitializeSteps(features)| && outcomes[..|old(outcomes)|] == old(outcomes)
      ensures r == LastThrown(outcomes[|old(outcomes)|..])
      // no list changes; a category is re-selected exactly when its step did not throw
      ensures GetDevices(CAPTURE_INDEX) == old(GetDevices(CAPTURE_INDEX))
      ensures GetDevices(NOTIFY_INDEX) == old(GetDevices(NOTIFY_INDEX)) && GetDevices(PLAYBACK_INDEX) == old(GetDevices(PLAYBACK_INDEX))
      ensures devices[CAPTURE_INDEX].selected ==
                if outcomes[|old(outcomes)|].Completed? then old(GetDevice(CAPTURE_INDEX)) else old(devices[CAPTURE_INDEX].selected)
      ensures HasFeature(features, FEATURE_NOTIFY_AND_PLAYBACK_DEVICES) ==>
                && devices[NOTIFY_INDEX].selected ==
                     (if outcomes[|old(outcomes)| + 1].Completed? then old(GetDevice(NOTIFY_INDEX)) else old(devices[NOTIFY_INDEX].selected))
                && devices[PLAYBACK_INDEX].selected ==
                     (if outcomes[|old(outcomes)| + 2].Completed? then old(GetDevice(PLAYBACK_INDEX)) else old(devices[PLAYBACK_INDEX].selected))
      ensures !HasFeature(features, FEATURE_NOTIFY_AND_PLAYBACK_DEVICES) ==>
                && devices[NOTIFY_INDEX].selected == old(devices[NOTIFY_INDEX].selected)
                && devices[PLAYBACK_INDEX].selected == old(devices[PLAYBACK_INDEX].selected)
    {
      var capture := PostInitializeSpecificDevices(CAPTURE_INDEX);
      ghost var afterCapture := outcomes;
      var rest := PostInitializeAfterCapture();
      r := Finally(capture, rest);
      assert outcomes[|old(outcomes)|..] == [capture] + outcomes[|afterCapture|..];
      LastThrownPrepend(capture, outcomes[|afterCapture|..]);
      assert PostInitializeSteps(features) == [SpecificDevices(CAPTURE_INDEX)] + PostInitializeSteps(features)[1..];
    }
  }

  // ---------------------------------------------------------------------------
  // The registered audio systems

  /** An element of `DeviceSystem.getDeviceSystems(MediaType.AUDIO)`: an audio system or some other device system. */
  datatype DeviceSystemEntry = Audio(system: AudioSystem) | OtherDeviceSystem(locatorProtocol: string)

  /** The audio systems among `s`, in their order. */
  function AudioSystemsIn(s: seq<DeviceSystemEntry>): seq<AudioSystem> {
    if s == [] then []
    else (if s[0].Audio? then [s[0].system] else []) + AudioSystemsIn(s[1..])
  }

  /** Filtering distributes over concatenation, so it keeps the order of the input. */
  lemma {:induction false} AudioSystemsInAppend(s: seq<DeviceSystemEntry>, t: seq<DeviceSystemEntry>)
    ensures AudioSystemsIn(s + t) == AudioSystemsIn(s) + AudioSystemsIn(t)
  {
    if s == [] {
      assert s + t == t;
    } else {
      var head := if s[0].Audio? then [s[0].system] else [];
      assert (s + t)[0] == s[0];
      assert (s + t)[1..] == s[1..] + t;
      assert AudioSystemsIn(s + t) == head + AudioSystemsIn(s[1..] + t);
      AudioSystemsInAppend(s[1..], t);
      assert head + (AudioSystemsIn(s[1..]) + AudioSystemsIn(t)) == (head + AudioSystemsIn(s[1..])) + AudioSystemsIn(t);
    }
  }

  /** Exactly the audio systems of `s` are kept, and nothing else. */
  lemma {:induction false} AudioSystemsInMembers(s: seq<DeviceSystemEntry>)
    ensures forall a :: a in AudioSystemsIn(s) <==> Audio(a) in s
    ensures |AudioSystemsIn(s)| <= |s|
  {
    if s != [] {
      AudioSystemsInMembers(s[1..]);
      assert s == [s[0]] + s[1..];
    }
  }

  /** `getAudioSystems`: null when there are no device systems, otherwise the audio systems among them, in order. */
  method GetAudioSystems(deviceSystems: Option<seq<DeviceSystemEntry>>) returns (r: Option<seq<AudioSystem>>)
    ensures r.None? <==> deviceSystems.None?
    ensures r.Some? ==> r.value == AudioSystemsIn(deviceSystems.value)
  {
    if deviceSystems.None? {
      return None;
    }
    var s := deviceSystems.value;
    var audioSystems: seq<AudioSystem> := [];
    var i := 0;
    while i < |s|
      invariant 0 <= i <= |s|
      invariant audioSystems == AudioSystemsIn(s[..i])
    {
      AudioSystemsInAppend(s[..i], [s[i]]);
      assert s[..i + 1] == s[..i] + [s[i]];
      if s[i].Audio? {
        audioSystems := audioSystems + [s[i].system];
      }
      i := i + 1;
    }
    assert s[..i] == s;
    r := Some(audioSystems);
  }

  /** `a.getLocatorProtocol().equalsIgnoreCase(p)`; no string equals null. */
  predicate HasLocatorProtocol(a: AudioSystem, p: Option<string>) {
    p.Some? && EqualsIgnoreCase(a.locatorProtocol, p.value)
  }

  /** The first of `systems` whose locator protocol is `p` ignoring case. */
  function FirstWithLocatorProtocol(systems: seq<AudioSystem>, p: Option<string>): (r: Option<AudioSystem>)
    ensures r.Some? ==> r.value in systems && HasLocatorProtocol(r.value, p)
  {
    if systems == [] then None
    else if HasLocatorProtocol(systems[0], p) then Some(systems[0])
    else FirstWithLocatorProtocol(systems[1..], p)
  }

  /** The lookup finds a system exactly when one matches, and then the earliest one. */
  lemma {:induction false} FirstWithLocatorProtocolIsFirst(systems: seq<AudioSystem>, p: Option<string>)
    ensures FirstWithLocatorProtocol(systems, p).None? <==> forall i :: 0 <= i < |systems| ==> !HasLocatorProtocol(systems[i], p)
    ensures FirstWithLocatorProtocol(systems, p).Some? ==>
              exists i :: 0 <= i < |systems| && systems[i] == FirstWithLocatorProtocol(systems, p).value
                          && forall j :: 0 <= j < i ==> !HasLocatorProtocol(systems[j], p)
  {
    if systems != [] && !HasLocatorProtocol(systems[0], p) {
      FirstWithLocatorProtocolIsFirst(systems[1..], p);
      if FirstWithLocatorProtocol(systems, p).Some? {
        var i :| 0 <= i < |systems[1..]| && systems[1..][i] == FirstWithLocatorProtocol(systems, p).value
                 && forall j :: 0 <= j < i ==> !HasLocatorProtocol(systems[1..][j], p);
        assert systems[i + 1] == FirstWithLocatorProtocol(systems, p).value;
        assert forall j :: 0 <= j < i + 1 ==> !HasLocatorProtocol(systems[j], p) by {
          forall j | 0 <= j < i + 1 ensures !HasLocatorProtocol(systems[j], p) {
            if j > 0 {
              assert systems[j] == systems[1..][j - 1];
            }
          }
        }
      } else {
        forall i | 0 <= i < |systems| ensures !HasLocatorProtocol(systems[i], p) {
          if i > 0 {
            assert systems[i] == systems[1..][i - 1];
          }
        }
      }
    } else if systems != [] {
      assert systems[0] == FirstWithLocatorProtocol(systems, p).value;
    }
  }

  /** Protocols that differ only in case find the same system. */
  lemma {:induction false} LookupIgnoresCase(systems: seq<AudioSystem>, p: string, q: string)
    requires EqualsIgnoreCase(p, q)
    ensures FirstWithLocatorProtocol(systems, Some(p)) == FirstWithLocatorProtocol(systems, Some(q))
  {
    if systems != [] {
      EqualsIgnoreCaseIsEquivalence(systems[0].locatorProtocol, p, q);
      EqualsIgnoreCaseIsEquivalence(systems[0].locatorProtocol, q, p);
      EqualsIgnoreCaseIsEquivalence(p, q, p);
      LookupIgnoresCase(systems[1..], p, q);
    }
  }

  /** `getAudioSystem(locatorProtocol)`: the first registered audio system with that protocol, ignoring case, or null. */
  method GetAudioSystem(deviceSystems: Option<seq<DeviceSystemEntry>>, locatorProtocol: Option<string>)
    returns (r: Option<AudioSystem>)
    ensures deviceSystems.None? ==> r.None?
    ensures deviceSystems.Some? ==> r == FirstWithLocatorProtocol(AudioSystemsIn(deviceSystems.value), locatorProtocol)
  {
    var audioSystems := GetAudioSystems(deviceSystems);
    r := None;
    if audioSystems.Some? {
      var systems := audioSystems.value;
      var i := 0;
      while i < |systems|
        invariant 0 <= i <= |systems|
        invariant FirstWithLocatorProtocol(systems, locatorProtocol) == FirstWithLocatorProtocol(systems[i..], locatorProtocol)
        invariant r.None?
      {
        assert systems[i..][1..] == systems[i + 1..];
        if HasLocatorProtocol(systems[i], locatorProtocol) {
          r := Some(systems[i]);
          break;
        }
        i := i + 1;
      }
    }
  }
}
