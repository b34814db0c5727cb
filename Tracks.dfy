/** Rendering a participant's track into the page's media elements
    (`updateMedia` and `updateTracksIfNeeded`, basicVideoCall.js).

    A track is known by its id. A media stream's track set follows the
    W3C Media Capture and Streams `addTrack`/`removeTrack` rules: adding a
    track that is present, or removing one that is absent, does nothing.
    That specification leaves the order of `getTracks()` to the browser;
    this model takes insertion order, so "the first track" is the oldest. */
module Tracks {
  import opened Wrappers
  import opened Seqs

  type TrackId = string

  /** A track as the calling SDK announces it: its id and its kind. */
  datatype Track = Track(id: TrackId, kind: string)

  predicate NoDuplicates(ts: seq<TrackId>)
  {
    forall i, j :: 0 <= i < j < |ts| ==> ts[i] != ts[j]
  }

  /** The track list after `addTrack(t)`. */
  function Added(ts: seq<TrackId>, t: TrackId): (r: seq<TrackId>)
    ensures t in r
    ensures NoDuplicates(ts) ==> NoDuplicates(r)
  {
    if t in ts then ts else ts + [t]
  }

  /** The track list after `removeTrack(t)`. */
  function Removed(ts: seq<TrackId>, t: TrackId): (r: seq<TrackId>)
    ensures t !in r
    ensures forall x :: x in r ==> x in ts
  {
    Filter(ts, (x: TrackId) => x != t)
  }

  /** Removing the first of distinct tracks leaves the others, in order. */
  lemma RemoveFirst(ts: seq<TrackId>)
    requires ts != [] && NoDuplicates(ts)
    ensures Removed(ts, ts[0]) == ts[1..]
  {
    assert ts == [ts[0]] + ts[1..];
    FilterAppend([ts[0]], ts[1..], (x: TrackId) => x != ts[0]);
    FilterAll(ts[1..], (x: TrackId) => x != ts[0]);
  }

  /** The tracks an element shows after `updateTracksIfNeeded(newTrack)`,
      given what it showed before (`None`: no `srcObject`). */
  function Reconciled(current: Option<seq<TrackId>>, newTrack: TrackId): (r: seq<TrackId>)
    ensures newTrack in r
    ensures forall x :: x in r ==> x == newTrack || (current.Some? && x in current.value)
  {
    match current
    case None => [newTrack]
    case Some(ts) =>
      if ts == [] then Added(ts, newTrack)
      else if ts[0] == newTrack then ts
      else Added(Removed(ts, ts[0]), newTrack)
  }

  /** Reconciling installs the new track and keeps the stream free of duplicates. */
  lemma ReconciledKeepsDistinct(current: Option<seq<TrackId>>, newTrack: TrackId)
    requires current.Some? ==> NoDuplicates(current.value)
    ensures NoDuplicates(Reconciled(current, newTrack))
    ensures newTrack in Reconciled(current, newTrack)
  {
    if current.Some? && current.value != [] && current.value[0] != newTrack {
      RemoveFirst(current.value);
    }
  }

  /** The four cases: no stream gives a stream of just the new track; an
      empty stream gets it added; a first track with the same id is kept
      as is; any other first track is replaced, the rest left as they were. */
  lemma ReconciledCases(current: Option<seq<TrackId>>, newTrack: TrackId)
    requires current.Some? ==> NoDuplicates(current.value)
    ensures current.None? ==> Reconciled(current, newTrack) == [newTrack]
    ensures current == Some([]) ==> Reconciled(current, newTrack) == [newTrack]
    ensures current.Some? && current.value != [] && current.value[0] == newTrack ==>
              Reconciled(current, newTrack) == current.value
    ensures current.Some? && current.value != [] && current.value[0] != newTrack ==>
              Reconciled(current, newTrack) ==
                if newTrack in current.value then current.value[1..] else current.value[1..] + [newTrack]
  {
    if current.Some? && current.value != [] && current.value[0] != newTrack {
      RemoveFirst(current.value);
    }
  }

  /** With at most one track shown, the element ends up showing exactly the
      new track, so a second identical update changes nothing. */
  lemma ReconciledIdempotent(current: Option<seq<TrackId>>, newTrack: TrackId)
    requires current.Some? ==> |current.value| <= 1
    ensures Reconciled(current, newTrack) == [newTrack]
    ensures Reconciled(Some(Reconciled(current, newTrack)), newTrack) == Reconciled(current, newTrack)
  {
  }

  /** With two tracks shown the update is not idempotent: the first call
      drops the first track and appends the new one, the second call drops
      what is now first. */
  lemma ReconciledTwiceWithTwoTracks()
    ensures Reconciled(Some(["a", "b"]), "c") == ["b", "c"]
    ensures Reconciled(Some(Reconciled(Some(["a", "b"]), "c")), "c") == ["c"]
  {
  }

  /** A browser `MediaStream`: an ordered set of tracks. */
  class MediaStream {
    var tracks: seq<TrackId>

    ghost predicate Valid()
      reads this
    {
      NoDuplicates(tracks)
    }

    /** `new MediaStream([track])`. */
    constructor (track: TrackId)
      ensures Valid() && tracks == [track]
    {
      tracks := [track];
    }

    method AddTrack(t: TrackId)
      requires Valid()
      modifies this
      ensures Valid() && tracks == Added(old(tracks), t)
    {
      if t !in tracks {
        tracks := tracks + [t];
      }
    }

    method RemoveTrack(t: TrackId)
      modifies this
      ensures tracks == Removed(old(tracks), t)
      ensures old(Valid()) ==> Valid()
    {
      ghost var before := tracks;
      tracks := Removed(tracks, t);
      if NoDuplicates(before) {
        RemovedKeepsDistinct(before, t);
      }
    }
  }

  lemma {:induction false} RemovedKeepsDistinct(ts: seq<TrackId>, t: TrackId)
    requires NoDuplicates(ts)
    ensures NoDuplicates(Removed(ts, t))
    ensures forall x :: x in Removed(ts, t) <==> x in ts && x != t
  {
    if ts != [] {
      RemovedKeepsDistinct(ts[1..], t);
      assert ts == [ts[0]] + ts[1..];
      FilterAppend([ts[0]], ts[1..], (x: TrackId) => x != t);
    }
  }

  /** A `<video>` or `<audio>` element and the stream it plays, if any. */
  class MediaElement {
    var srcObject: MediaStream?

    /** The tracks the element plays; `None` when it has no stream. */
    ghost function Shown(): Option<seq<TrackId>>
      reads this, srcObject
    {
      if srcObject == null then None else Some(srcObject.tracks)
    }

    ghost predicate Valid()
      reads this, srcObject
    {
      srcObject != null ==> srcObject.Valid()
    }

    constructor ()
      ensures srcObject == null
    {
      srcObject := null;
    }

    /** `updateTracksIfNeeded(this, newTrack)`: an element without a stream
        gets a new one; otherwise its existing stream is updated in place. */
    method UpdateTracksIfNeeded(newTrack: TrackId)
      requires Valid()
      modifies this, srcObject
      ensures Valid() && srcObject != null
      ensures Shown() == Some(Reconciled(old(Shown()), newTrack))
      ensures old(srcObject) == null ==> fresh(srcObject)
      ensures old(srcObject) != null ==> srcObject == old(srcObject)
    {
      var src := srcObject;
      if src == null {
        srcObject := new MediaStream(newTrack);
        return;
      }
      var allTracks := src.tracks;
      var l := |allTracks|;
      if l == 0 {
        src.AddTrack(newTrack);
        return;
      }
      var existingTrack := allTracks[0];
      if existingTrack != newTrack {
        src.RemoveTrack(existingTrack);
        src.AddTrack(newTrack);
      }
    }
  }

  /** `updateMedia`'s guard: video tracks are always rendered, audio tracks
      only for remote participants, and nothing else. */
  function Renders(kind: string, isLocal: bool): (r: bool)
    ensures r <==> kind == "video" || (kind == "audio" && !isLocal)
  {
    if kind != "video" then
      if isLocal || kind != "audio" then false else true
    else true
  }

  /** A participant's player container, holding its one `<video>` and one
      `<audio>` element. */
  class Player {
    const video: MediaElement
    const audio: MediaElement

    ghost predicate Valid()
      reads this, video, audio, video.srcObject, audio.srcObject
    {
      && video != audio
      && video.Valid() && audio.Valid()
      && (video.srcObject == null || video.srcObject != audio.srcObject)
    }

    constructor (video: MediaElement, audio: MediaElement)
      requires video != audio
      requires video.srcObject == null && audio.srcObject == null
      ensures this.video == video && this.audio == audio
      ensures Valid()
    {
      this.video := video;
      this.audio := audio;
    }

    /** `updateMedia(uid, track, isLocal)`, once the player container is
        found: the element of the track's kind is reconciled with it when
        the guard lets the track through, and the other is left alone. */
    method UpdateMedia(track: Track, isLocal: bool)
      requires Valid()
      modifies video, audio, video.srcObject, audio.srcObject
      ensures Valid()
      ensures !Renders(track.kind, isLocal) ==>
                video.Shown() == old(video.Shown()) && audio.Shown() == old(audio.Shown())
                && video.srcObject == old(video.srcObject) && audio.srcObject == old(audio.srcObject)
      ensures track.kind == "video" ==>
                video.Shown() == Some(Reconciled(old(video.Shown()), track.id))
                && audio.Shown() == old(audio.Shown()) && audio.srcObject == old(audio.srcObject)
      ensures track.kind == "audio" && !isLocal ==>
                audio.Shown() == Some(Reconciled(old(audio.Shown()), track.id))
                && video.Shown() == old(video.Shown()) && video.srcObject == old(video.srcObject)
    {
      var tagName := track.kind;
      if !Renders(tagName, isLocal) {
        return;
      }
      if tagName == "video" {
        video.UpdateTracksIfNeeded(track.id);
      } else {
        audio.UpdateTracksIfNeeded(track.id);
      }
    }
  }
}
