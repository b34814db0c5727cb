/** The page's camera and microphone lists (`updateDeviceSelection`,
    `switchCamera`, `switchMicrophone`, basicVideoCall.js). */
module Devices {
  import opened Wrappers
  import opened Seqs

  /** A device as the calling SDK enumerates it (`labelText` is its `label`). */
  datatype Device = Device(deviceId: string, groupId: string, kind: string, labelText: string)

  const AudioInput: string := "audioinput"
  const VideoInput: string := "videoinput"

  function IsKind(kind: string): Device -> bool
  {
    (d: Device) => d.kind == kind
  }

  function HasLabel(labelText: string): Device -> bool
  {
    (d: Device) => d.labelText == labelText
  }

  /** The module-level `mics`, `cams`, `currentMic` and `currentCam` of the page. */
  class DeviceSelection {
    var mics: seq<Device>
    var cams: seq<Device>
    var currentMic: Option<Device>
    var currentCam: Option<Device>

    constructor ()
      ensures mics == [] && cams == []
      ensures currentMic == None && currentCam == None
    {
      mics, cams := [], [];
      currentMic, currentCam := None, None;
    }

    /** Resets both lists, then files each enumerated device by its kind;
        devices of any other kind are skipped. */
    method UpdateDeviceSelection(devices: seq<Device>)
      modifies this`mics, this`cams
      ensures mics == Filter(devices, IsKind(AudioInput))
      ensures cams == Filter(devices, IsKind(VideoInput))
    {
      mics := [];
      cams := [];
      var i := 0;
      while i < |devices|
        invariant 0 <= i <= |devices|
        invariant mics == Filter(devices[..i], IsKind(AudioInput))
        invariant cams == Filter(devices[..i], IsKind(VideoInput))
      {
        var device := devices[i];
        var kind := device.kind;
        assert devices[..i + 1] == devices[..i] + [device];
        FilterAppend(devices[..i], [device], IsKind(AudioInput));
        FilterAppend(devices[..i], [device], IsKind(VideoInput));
        if kind == AudioInput {
          mics := mics + [device];
        } else if kind == VideoInput {
          cams := cams + [device];
        }
        i := i + 1;
      }
      assert devices[..i] == devices;
    }

    /** `switchCamera(label)`: the first camera with that label becomes current;
        `false` when there is none (reading `currentCam.label` then throws),
        in which case the SDK is not asked to switch. */
    method SwitchCamera(labelText: string) returns (ok: bool)
      modifies this`currentCam
      ensures currentCam == FindFirst(cams, HasLabel(labelText))
      ensures ok <==> exists i :: 0 <= i < |cams| && cams[i].labelText == labelText
    {
      currentCam := FindFirst(cams, HasLabel(labelText));
      ok := currentCam.Some?;
    }

    /** `switchMicrophone(label)`, as `SwitchCamera` over the microphones. */
    method SwitchMicrophone(labelText: string) returns (ok: bool)
      modifies this`currentMic
      ensures currentMic == FindFirst(mics, HasLabel(labelText))
      ensures ok <==> exists i :: 0 <= i < |mics| && mics[i].labelText == labelText
    {
      currentMic := FindFirst(mics, HasLabel(labelText));
      ok := currentMic.Some?;
    }
  }

  /** Each device of the listed kind is kept exactly as often as it was
      enumerated; every other device is dropped. */
  lemma {:induction false} SelectionIsExact(devices: seq<Device>, kind: string, d: Device)
    ensures multiset(Filter(devices, IsKind(kind)))[d] == if d.kind == kind then multiset(devices)[d] else 0
  {
    FilterCount(devices, IsKind(kind), d);
  }

  /** The lists keep the enumeration order. */
  lemma {:induction false} SelectionKeepsOrder(devices: seq<Device>, kind: string)
    ensures IsSubsequence(Filter(devices, IsKind(kind)), devices)
  {
    FilterIsSubsequence(devices, IsKind(kind));
  }

  /** No device is both a microphone and a camera, and together the lists
      hold no more devices than were enumerated. */
  lemma {:induction false} SelectionIsDisjoint(devices: seq<Device>)
    ensures multiset(Filter(devices, IsKind(AudioInput))) !! multiset(Filter(devices, IsKind(VideoInput)))
    ensures |Filter(devices, IsKind(AudioInput))| + |Filter(devices, IsKind(VideoInput))| <= |devices|
  {
    var mics, cams := Filter(devices, IsKind(AudioInput)), Filter(devices, IsKind(VideoInput));
    forall d ensures multiset(mics)[d] == 0 || multiset(cams)[d] == 0 {
      FilterCount(devices, IsKind(AudioInput), d);
      FilterCount(devices, IsKind(VideoInput), d);
    }
    var rest := Filter(devices, (d: Device) => d.kind != AudioInput);
    FilterSplitPermutation(devices, IsKind(AudioInput), (d: Device) => d.kind != AudioInput);
    assert |mics| + |rest| == |devices| by {
      assert |multiset(mics + rest)| == |multiset(devices)|;
    }
    FilterDisjoint(devices, IsKind(VideoInput), IsKind(AudioInput));
    FilterNarrows(devices, IsKind(VideoInput), (d: Device) => d.kind != AudioInput);
  }

  /** A stricter test keeps no more elements than a looser one. */
  lemma {:induction false} FilterNarrows(s: seq<Device>, f: Device -> bool, g: Device -> bool)
    requires forall x :: f(x) ==> g(x)
    ensures |Filter(s, f)| <= |Filter(s, g)|
  {
    if s != [] {
      FilterNarrows(s[1..], f, g);
    }
  }
}
