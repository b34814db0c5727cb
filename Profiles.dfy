/** The video profile menu: choosing the current profile by its label
    (`initVideoProfiles`, `changeVideoProfile`, basicVideoCall.js). */
module Profiles {
  import opened Wrappers
  import opened Seqs

  /** The bandwidth setting handed to the calling SDK. */
  datatype ProfileValue = ProfileValue(kbs: nat, width: nat, height: nat, frameRate: nat)

  /** One entry of the profile table (`labelText` is its `label`). */
  datatype VideoProfile = VideoProfile(labelText: string, detail: string, value: ProfileValue)

  /** The label `initVideoProfiles` selects at start-up. */
  const DefaultLabel: string := "480p_1"

  function HasLabel(labelText: string): VideoProfile -> bool
  {
    (p: VideoProfile) => p.labelText == labelText
  }

  /** `profiles.find(p => p.label === labelText)`. */
  function ProfileByLabel(profiles: seq<VideoProfile>, labelText: string): (r: Option<VideoProfile>)
    ensures r.Some? ==> r.value.labelText == labelText && r.value in profiles
    ensures r.None? <==> forall i :: 0 <= i < |profiles| ==> profiles[i].labelText != labelText
    ensures r.Some? ==> exists k :: 0 <= k < |profiles| && profiles[k] == r.value
                          && forall i :: 0 <= i < k ==> profiles[i].labelText != labelText
  {
    FindFirst(profiles, HasLabel(labelText))
  }

  predicate LabelsUnique(profiles: seq<VideoProfile>)
  {
    forall i, j :: 0 <= i < j < |profiles| ==> profiles[i].labelText != profiles[j].labelText
  }

  /** With distinct labels, looking up an entry's label finds that entry. */
  lemma LookupFindsEntry(profiles: seq<VideoProfile>, i: nat)
    requires LabelsUnique(profiles)
    requires i < |profiles|
    ensures ProfileByLabel(profiles, profiles[i].labelText) == Some(profiles[i])
  {
  }

  /** With a label listed twice, the lookup gives the earlier entry. */
  lemma DuplicateLabelGivesFirst(a: VideoProfile, b: VideoProfile)
    requires a.labelText == b.labelText && a != b
    ensures ProfileByLabel([a, b], a.labelText) == Some(a)
  {
  }

  /** The page's `videoProfiles` table and its `curVideoProfile`. */
  class ProfileSelection {
    const profiles: seq<VideoProfile>
    var current: Option<VideoProfile>

    constructor (profiles: seq<VideoProfile>)
      ensures this.profiles == profiles && current == None
    {
      this.profiles := profiles;
      current := None;
    }

    /** `initVideoProfiles`: the default profile becomes current; `false`
        when the table has none (reading its `detail` then throws). */
    method InitVideoProfiles() returns (ok: bool)
      modifies this`current
      ensures current == ProfileByLabel(profiles, DefaultLabel)
      ensures ok <==> exists i :: 0 <= i < |profiles| && profiles[i].labelText == DefaultLabel
    {
      current := ProfileByLabel(profiles, DefaultLabel);
      ok := current.Some?;
    }

    /** `changeVideoProfile(label)`: the profile with that label becomes
        current and its value is what the SDK is given; when there is none,
        `current` is left empty and nothing reaches the SDK. */
    method ChangeVideoProfile(labelText: string) returns (bandwidth: Option<ProfileValue>)
      modifies this`current
      ensures current == ProfileByLabel(profiles, labelText)
      ensures bandwidth.Some? <==> exists i :: 0 <= i < |profiles| && profiles[i].labelText == labelText
      ensures bandwidth.Some? ==> current.Some? && bandwidth.value == current.value.value
    {
      current := ProfileByLabel(profiles, labelText);
      if current.None? {
        return None;
      }
      bandwidth := Some(current.value.value);
    }
  }
}
