# basicVideoCall: codec preference, track reconciliation and device lists

A Dafny model of the self-contained logic in the basic video call demo page
(`Demo/basicVideoCall/basicVideoCall.js`). The page drives a third-party
calling SDK. Nearly everything it does is glue to that SDK, to jQuery and to
the DOM. Three fragments carry behaviour of their own, and they are what is
modelled here.

- **Codec preference** (`CodecPreference`). `getModifySdpHook(wantedCodec)`
  checks the requested codec name against the allow-list VP8, VP9 and H264.
  The check is case-insensitive: the name is upper-cased first. The function
  returns no hook for the empty name and throws for any other name outside
  the list. For an allowed name it returns a hook. The hook parses the local
  session description and rebuilds the first media section's format list so
  that the requested codec's payload types come first. The list is rebuilt
  from the parsed `rtp` entries (the `a=rtpmap` lines) alone: they are
  stably partitioned, and their payload numbers are joined with single spaces
  and written back. A format on the `m=` line without an `a=rtpmap` line is
  dropped, and the order of the `a=rtpmap` lines replaces that of the `m=`
  line. Section 5.1 of RFC 3264 makes the order of the
  formats on the `m=` line (section 5.14 of RFC 4566) the offerer's order of
  preference, so reordering is enough to prefer a codec. The SDP library's
  `parse` and `write` are passed in as functions; `None` from either stands
  for a thrown exception. Any failure makes the hook return its argument
  unchanged.
- **Track reconciliation** (`Tracks`). `updateTracksIfNeeded(mediaEle, newTrack)`
  handles four cases:
  - an element without a stream gets a new stream holding just the track;
  - an empty stream has the track added;
  - a stream whose first track has the same id is left alone;
  - otherwise the first track is removed and the new one added.

  `updateMedia` first applies a guard: only video tracks, and audio tracks of
  remote participants, reach an element. Streams are `MediaStream` objects
  that the element references and that are changed in place. Tracks are
  identified by their ids.
- **Device lists and profile lookup** (`Devices`, `Profiles`).
  `updateDeviceSelection` empties the page's `mics` and `cams` lists. It then
  files each enumerated device by kind: `audioinput` or `videoinput`; other
  kinds are skipped. `switchCamera`, `switchMicrophone`, `initVideoProfiles` and
  `changeVideoProfile` each select the first entry with a given label.

`Wrappers` (Option, Result), `Seqs` (`filter`, `find`, `map` and their facts)
and `Text` (ASCII upper-casing, decimal numbers, joining and splitting on
spaces) are shared helpers.

Points where the code behaves otherwise than one might expect:

- Reconciliation does not swap the existing track in place. The code removes
  the first track and then adds the new one. Taking tracks in insertion
  order, which the model does, the new track lands at the end, and the update
  is idempotent only while the stream holds at most one track.
  `Tracks.ReconciledTwiceWithTwoTracks` exhibits a two-track stream where two
  identical updates differ from one. The page itself never reaches such a
  stream: `updateTracksIfNeeded` always leaves exactly one track (the first
  ensures of `Tracks.ReconciledIdempotent`), and `removeVideoTrack` only
  removes tracks.
- An unsupported codec name does not make the rewrite a no-op:
  `getModifySdpHook` throws for such a name before any hook exists. Only the
  empty name gives `null`.
- The hook returns different kinds of value. On success it returns the
  written description text. On failure it returns its argument, which is the
  description object. `HookOutput` keeps the two cases apart.
- Only the first media section is rewritten, whatever its kind. When that
  section has no entry of the requested codec (an audio section, say), its
  rtp entries keep their order (`CodecPreference.AbsentCodecKeepsOrder`). The
  description comes back unchanged only if its format list already was its
  rtp payloads in rtp order (`CodecPreference.AbsentCodecKeepsDescription`);
  otherwise formats without an `a=rtpmap` line are lost
  (`CodecPreference.FormatWithoutRtpmapIsDropped`).

## Model

| member | source | states |
|---|---|---|
| CodecPreference.GetModifySdpHook | Demo/basicVideoCall/basicVideoCall.js:519-531 | the empty name gives no hook and no error; an undefined name is an error; a non-empty name gives a hook exactly when its upper-case form is VP8, VP9 or H264, and the hook holds that upper-case form; any other name fails with an error naming what was supplied |
| CodecPreference.ErrorMessage | Demo/basicVideoCall/basicVideoCall.js:526-530 | the thrown text names the supplied name and lists VP8 VP9 H264 separated by single spaces |
| CodecPreference.HookNameIsCanonical | Demo/basicVideoCall/basicVideoCall.js:523-531 | the name a hook holds is already canonical: asking for a hook with it gives the same hook back |
| CodecPreference.PreferredOrder | Demo/basicVideoCall/basicVideoCall.js:537-543 | the reordered rtp list holds exactly the entries of the original, no more and no fewer |
| CodecPreference.PreferredPayloads | Demo/basicVideoCall/basicVideoCall.js:543-545 | the new format list is empty exactly when the rtp list is empty (`[].join(' ')` is the empty string) |
| CodecPreference.Rewrite | Demo/basicVideoCall/basicVideoCall.js:546 | the rewritten description differs from the parsed one only in `media[0].payloads`: the session fields, every other media section and every other field of the first section are unchanged |
| CodecPreference.ApplyHook | Demo/basicVideoCall/basicVideoCall.js:532-553 | the hook returns written text exactly when parsing succeeds, a first media section exists and writing the rewritten description succeeds, and that text is what was written; in every other case it returns its own argument unchanged |
| CodecPreference.RewriteIdempotent | Demo/basicVideoCall/basicVideoCall.js:534-546 | rewriting an already rewritten description gives the same description, since the rtp entries the list is rebuilt from are untouched |
| CodecPreference.PreferredComeFirst | Demo/basicVideoCall/basicVideoCall.js:537-545 | in the new order every entry whose codec equals the upper-cased name precedes every entry whose codec does not |
| CodecPreference.PreferredOrderIsStable | Demo/basicVideoCall/basicVideoCall.js:537-543 | within the matching entries and within the other entries, the new order keeps the original relative order |
| CodecPreference.PreferredOrderIsPermutation | Demo/basicVideoCall/basicVideoCall.js:537-543 | the new order holds the same rtp entries as the original, each as often, with the same length |
| CodecPreference.PreferredOrderIdempotent | Demo/basicVideoCall/basicVideoCall.js:537-543 | reordering an already reordered list changes nothing |
| CodecPreference.AbsentCodecKeepsOrder | Demo/basicVideoCall/basicVideoCall.js:534-543 | when no rtp entry of the first media section has the requested codec, the rtp entries keep their order |
| CodecPreference.AbsentCodecKeepsDescription | Demo/basicVideoCall/basicVideoCall.js:534-546 | when the first section's format list is exactly its rtp payloads in rtp order and none has the requested codec, the rewrite returns the description unchanged |
| CodecPreference.FormatWithoutRtpmapIsDropped | Demo/basicVideoCall/basicVideoCall.js:543-546 | because the format list is rebuilt from the rtp entries alone, a listed format with no rtp entry (static payload 0 in "111 0") is dropped and the description changes |
| CodecPreference.JoinedPayloadsReadBack | Demo/basicVideoCall/basicVideoCall.js:543-545 | payload numbers written in decimal and joined by single spaces split and read back as the same list |
| CodecPreference.PreferredPayloadsReadBack | Demo/basicVideoCall/basicVideoCall.js:537-546 | the new format list reads back as exactly the payload numbers of the first section's rtp entries in preferred order, the same numbers as often as before |
| Devices.DeviceSelection.constructor | Demo/basicVideoCall/basicVideoCall.js:126-127 | both device lists start empty |
| Devices.DeviceSelection.UpdateDeviceSelection | Demo/basicVideoCall/basicVideoCall.js:150-164 | afterwards `mics` is the enumerated `audioinput` devices and `cams` the `videoinput` devices, each in enumeration order, whatever the lists held before |
| Devices.SelectionIsExact | Demo/basicVideoCall/basicVideoCall.js:156-164 | each device of a kind is in that kind's list exactly as often as it was enumerated; devices of other kinds are absent |
| Devices.SelectionKeepsOrder | Demo/basicVideoCall/basicVideoCall.js:156-164 | each list is a subsequence of the enumeration |
| Devices.SelectionIsDisjoint | Demo/basicVideoCall/basicVideoCall.js:159-163 | no device is in both lists, and the two lists together are no longer than the enumeration |
| Devices.DeviceSelection.SwitchCamera | Demo/basicVideoCall/basicVideoCall.js:176-182 | the current camera becomes the first camera with the label, and the switch goes ahead exactly when one exists |
| Devices.DeviceSelection.SwitchMicrophone | Demo/basicVideoCall/basicVideoCall.js:184-190 | the current microphone becomes the first microphone with the label, and the switch goes ahead exactly when one exists |
| Profiles.ProfileByLabel | Demo/basicVideoCall/basicVideoCall.js:200 | the lookup finds nothing exactly when no profile has the label; what it finds is the first profile of the table with that label |
| Profiles.DuplicateLabelGivesFirst | Demo/basicVideoCall/basicVideoCall.js:200 | when two profiles share a label, the lookup gives the earlier one |
| Profiles.LookupFindsEntry | Demo/basicVideoCall/basicVideoCall.js:196-200 | with distinct labels, looking up an entry's label finds that very entry |
| Profiles.ProfileSelection.constructor | Demo/basicVideoCall/basicVideoCall.js:124 | the page starts with the profile table and no current profile |
| Profiles.ProfileSelection.InitVideoProfiles | Demo/basicVideoCall/basicVideoCall.js:192-198 | the current profile becomes the one labelled 480p_1, and start-up succeeds exactly when the table has one |
| Profiles.ProfileSelection.ChangeVideoProfile | Demo/basicVideoCall/basicVideoCall.js:199-204 | the current profile becomes the one with the label, the SDK receives its value, and nothing reaches the SDK when no profile has the label |
| Tracks.MediaElement.UpdateTracksIfNeeded | Demo/basicVideoCall/basicVideoCall.js:463-484 | the element's tracks become the reconciled list; a missing stream is replaced by a fresh one and an existing stream is updated in place |
| Tracks.Reconciled | Demo/basicVideoCall/basicVideoCall.js:463-484 | the tracks an element shows after the update always include the new track, and every other track there was shown before |
| Tracks.ReconciledCases | Demo/basicVideoCall/basicVideoCall.js:463-484 | no stream or an empty stream ends with just the new track; a first track with the same id means no change; otherwise the first track is dropped, the new one appended unless already present, and the other tracks stay as they were |
| Tracks.ReconciledKeepsDistinct | Demo/basicVideoCall/basicVideoCall.js:463-484 | after reconciliation the stream holds the new track and still has no duplicate track |
| Tracks.ReconciledIdempotent | Demo/basicVideoCall/basicVideoCall.js:463-484 | with at most one track present the element ends with exactly the new track, so applying the update twice equals applying it once |
| Tracks.ReconciledTwiceWithTwoTracks | Demo/basicVideoCall/basicVideoCall.js:476-483 | with two tracks present, a second identical update changes the result of the first |
| Tracks.Renders | Demo/basicVideoCall/basicVideoCall.js:433-439 | a track is rendered exactly when it is video, or audio of a remote participant |
| Tracks.Player.UpdateMedia | Demo/basicVideoCall/basicVideoCall.js:433-448 | a track the guard lets through reconciles the element of its own kind and leaves the other element's stream object and tracks alone; any other track leaves both elements' stream objects and tracks as they were |

## Left out

- DOM work is not modelled: jQuery lookups, HTML templating and the dropdown rendering after the lists are filled. This is presentation only.
- `getPlayerContainer`, `createPlayerWrapper` and `getMediaEle` are not modelled. `Player` stands for the container once it is found or created, with its one video and one audio element.
- `removeVideoTrack` and the `track-stopped` handler are not modelled. They are outside the modelled logic and call `removeTrack` on the browser stream.
- Calls into the calling SDK are not modelled: `createCallObject`, `join`, `leave`, `setBandwidth`, `setInputDevicesAsync`, `updateParticipant`, `enumerateDevices` and the event subscriptions. They are foreign code. The SDK's `{devices: [...]}` wrapper is unwrapped, so `UpdateDeviceSelection` takes the device list itself.
- The SDP library's `parse` and `write` are parameters of `ApplyHook`. Their grammar is not modelled.
- Browser plumbing is not modelled: `navigator.mediaDevices` listeners, promises and `async` flow. The internals of `MediaStream` are reduced to the add/remove rules of its track set.
- The URL query string, the join form and `getCodec` (reading the codec radio buttons) are not modelled. These are page inputs; `GetModifySdpHook` takes the chosen name directly, with `None` for `undefined`.
- The `videoProfiles` table is not modelled. It is static configuration, so `ProfileSelection` takes any table.
- Console logging is not modelled: the warning for more than one track and the error logged when the hook fails.
- CodecPreference.GetModifySdpHook: upper-cases ASCII letters only, while JavaScript's `toUpperCase` maps all of Unicode. No non-ASCII character upper-cases to a letter of VP8, VP9 or H264, so which names are accepted is the same.
- CodecPreference.Rewrite: the source assigns `parsed.media[0].payloads` in place. `parsed` is a fresh local object that the hook passes only to `write`, so the model uses a value update instead, and no aliasing is lost.
- Tracks.Reconciled: the browser's `getTracks()` order is left to the user agent, and need not be the same from one call to the next. The model takes insertion order: `removeTrack` keeps the others in place and `addTrack` appends. Which track counts as "first" when a stream holds two or more tracks, and so the "appended" case of `Tracks.ReconciledCases` and `Tracks.ReconciledTwiceWithTwoTracks`, rests on that choice. With at most one track, `Tracks.ReconciledIdempotent` does not depend on it.
- CodecPreference.ErrorMessage: gives the text only for a name outside the allow-list. For an undefined name, the text of the `TypeError` comes from the JavaScript engine and is not modelled.
- Tracks.MediaStream: a track's identity is its id, where the browser compares track objects.
