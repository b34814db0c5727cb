/** Preferring a video codec by rewriting the local session description
    (`getModifySdpHook` and the hook it returns, basicVideoCall.js).

    Under section 5.1 of RFC 3264 the formats listed on a media section's
    `m=` line (section 5.14 of RFC 4566) are in the offerer's order of
    preference, so moving the requested codec's payload types to the front
    of the first media section is enough to prefer it.

    The SDP library's `parse` and `write` are not modelled: the hook takes
    them as functions whose `None` stands for a thrown exception. */
module CodecPreference {
  import opened Wrappers
  import opened Seqs
  import opened Text

  /** One `a=rtpmap` entry of a media section as the SDP library parses it. */
  datatype RtpEntry = RtpEntry(payload: nat, codec: string, rate: Option<nat>, encoding: Option<string>)

  /** A parsed media section: the `m=` line fields (its format list kept as the
      text `payloads`), the parsed rtp map, and every other attribute. */
  datatype Media = Media(
    mediaType: string,
    port: nat,
    protocol: string,
    payloads: string,
    rtp: seq<RtpEntry>,
    attributes: map<string, string>)

  /** A parsed session description: its session-level fields and its media sections. */
  datatype SessionDescription = SessionDescription(
    version: nat,
    origin: string,
    name: string,
    attributes: map<string, string>,
    media: seq<Media>)

  /** The description object the calling SDK hands to the hook: its type and text. */
  datatype RtcSdp = RtcSdp(sdpType: string, sdp: string)

  /** What the hook returns: the written text, or its own argument untouched. */
  datatype HookOutput = WrittenSdp(sdp: string) | Unmodified(description: RtcSdp)

  /** The errors `getModifySdpHook` throws. */
  datatype CodecError =
    | InvalidCodecName(supplied: string)  // not one of the allowed codecs
    | MissingCodecName                    // `undefined.toUpperCase()` (no codec chosen)

  /** The hook closure; it captures only the upper-cased codec name. */
  datatype SdpHook = PreferCodec(codecName: string)

  /** The allow-list, in the order the error message lists it. */
  const ValidCodecs: seq<string> := ["VP8", "VP9", "H264"]

  /** The text of the error thrown for a name outside the allow-list; it
      lists the allowed names joined by single spaces. */
  function ErrorMessage(e: CodecError): (text: string)
    requires e.InvalidCodecName?
    ensures text == "invalid codec name supplied: " + e.supplied + "; valid options are: VP8 VP9 H264"
  {
    "invalid codec name supplied: " + e.supplied + "; valid options are: " + JoinSpaced(ValidCodecs)
  }

  /** `getModifySdpHook(wantedCodec)`; `None` is an `undefined` argument.
      The empty name gives no hook; a name whose upper-case form is in the
      allow-list gives a hook for that form; anything else is an error. */
  function GetModifySdpHook(wantedCodec: Option<string>): (r: Result<Option<SdpHook>, CodecError>)
    ensures r == Success(None) <==> wantedCodec == Some("")
    ensures r == Failure(MissingCodecName) <==> wantedCodec == None
    ensures r.Failure? && r.error.InvalidCodecName? <==>
              wantedCodec.Some? && wantedCodec.value != "" && ToUpper(wantedCodec.value) !in ValidCodecs
    ensures r.Failure? && r.error.InvalidCodecName? ==> r.error.supplied == wantedCodec.value
    ensures r.Failure? && r.error.InvalidCodecName? ==>
              ErrorMessage(r.error) == "invalid codec name supplied: " + wantedCodec.value
                                       + "; valid options are: VP8 VP9 H264"
    ensures r.Success? && r.value.Some? ==>
              wantedCodec.Some? && r.value.value.codecName == ToUpper(wantedCodec.value)
              && r.value.value.codecName in ValidCodecs
  {
    match wantedCodec
    case None => Failure(MissingCodecName)
    case Some(name) =>
      if name == "" then Success(None)
      else
        var codecName := ToUpper(name);
        if codecName !in ValidCodecs then Failure(InvalidCodecName(name))
        else Success(Some(PreferCodec(codecName)))
  }

  /** Building a hook from the name a hook holds gives the same hook back. */
  lemma HookNameIsCanonical(wantedCodec: string, h: SdpHook)
    requires GetModifySdpHook(Some(wantedCodec)) == Success(Some(h))
    ensures GetModifySdpHook(Some(h.codecName)) == Success(Some(h))
  {
    ToUpperIdempotent(wantedCodec);
  }

  function IsCodec(codecName: string): RtpEntry -> bool
  {
    (r: RtpEntry) => r.codec == codecName
  }

  function IsNotCodec(codecName: string): RtpEntry -> bool
  {
    (r: RtpEntry) => r.codec != codecName
  }

  /** The rtp entries of the requested codec, then all the others. */
  function PreferredOrder(rtp: seq<RtpEntry>, codecName: string): (order: seq<RtpEntry>)
    ensures forall x :: x in order <==> x in rtp
  {
    FilterSplitPermutation(rtp, IsCodec(codecName), IsNotCodec(codecName));
    var order := Filter(rtp, IsCodec(codecName)) + Filter(rtp, IsNotCodec(codecName));
    assert forall x :: x in order <==> x in multiset(order);
    assert forall x :: x in rtp <==> x in multiset(rtp);
    order
  }

  function Payloads(rtp: seq<RtpEntry>): seq<nat>
  {
    Map(rtp, (r: RtpEntry) => r.payload)
  }

  /** The new format list: the reordered payload numbers joined by single spaces. */
  function PreferredPayloads(rtp: seq<RtpEntry>, codecName: string): (text: string)
    ensures text == "" <==> rtp == []
  {
    PreferredOrderIsPermutation(rtp, codecName);
    JoinSpaced(Map(PreferredOrder(rtp, codecName), (r: RtpEntry) => Decimal(r.payload)))
  }

  /** Reads a format list back: space-separated decimal numbers, or none if malformed. */
  function ReadPayloads(text: string): Option<seq<nat>>
  {
    var parts := SplitSpaced(text);
    if forall i :: 0 <= i < |parts| ==> parts[i] != "" && IsDigits(parts[i]) then
      Some(seq(|parts|, i requires 0 <= i < |parts| && IsDigits(parts[i]) => DecimalValue(parts[i])))
    else None
  }

  /** The assignment `parsed.media[0].payloads = ...`: only that one field of
      the description changes. */
  function Rewrite(parsed: SessionDescription, codecName: string): (r: SessionDescription)
    requires |parsed.media| > 0
    ensures |r.media| == |parsed.media|
    ensures r.media[0].payloads == PreferredPayloads(parsed.media[0].rtp, codecName)
    ensures r.media[0].(payloads := parsed.media[0].payloads) == parsed.media[0]
    ensures forall i :: 1 <= i < |r.media| ==> r.media[i] == parsed.media[i]
    ensures r.(media := parsed.media) == parsed
  {
    var camMedia := parsed.media[0];
    parsed.(media := parsed.media[0 := camMedia.(payloads := PreferredPayloads(camMedia.rtp, codecName))])
  }

  /** The hook: parse, rewrite the first media section's format list, write.
      Whatever throws on the way (parsing, a missing first media section,
      writing) leaves the hook returning its argument unchanged. */
  function ApplyHook(hook: SdpHook, rtcSdp: RtcSdp,
                     parse: string -> Option<SessionDescription>,
                     write: SessionDescription -> Option<string>): (out: HookOutput)
    ensures out.Unmodified? ==> out.description == rtcSdp
    ensures out.WrittenSdp? <==>
              parse(rtcSdp.sdp).Some? && |parse(rtcSdp.sdp).value.media| > 0
              && write(Rewrite(parse(rtcSdp.sdp).value, hook.codecName)).Some?
    ensures out.WrittenSdp? ==>
              out.sdp == write(Rewrite(parse(rtcSdp.sdp).value, hook.codecName)).value
  {
    match parse(rtcSdp.sdp)
    case None => Unmodified(rtcSdp)
    case Some(parsed) =>
      if |parsed.media| == 0 then Unmodified(rtcSdp)
      else
        match write(Rewrite(parsed, hook.codecName))
        case None => Unmodified(rtcSdp)
        case Some(newSdp) => WrittenSdp(newSdp)
  }

  /** Rewriting a rewritten description changes nothing: the rtp entries
      are kept, so the format list is rebuilt the same. */
  lemma RewriteIdempotent(parsed: SessionDescription, codecName: string)
    requires |parsed.media| > 0
    ensures Rewrite(Rewrite(parsed, codecName), codecName) == Rewrite(parsed, codecName)
  {
  }

  /** Every entry of the requested codec comes before every other entry. */
  lemma PreferredComeFirst(rtp: seq<RtpEntry>, codecName: string)
    ensures var order := PreferredOrder(rtp, codecName);
            forall i, j :: 0 <= i < j < |order| && order[j].codec == codecName ==> order[i].codec == codecName
  {
    var order := PreferredOrder(rtp, codecName);
    var chosen, others := Filter(rtp, IsCodec(codecName)), Filter(rtp, IsNotCodec(codecName));
    var k := |chosen|;
    forall i | 0 <= i < k ensures order[i].codec == codecName {
      assert order[i] == chosen[i] && chosen[i] in chosen;
    }
    forall j | k <= j < |order| ensures order[j].codec != codecName {
      assert order[j] == others[j - k] && others[j - k] in others;
    }
  }

  /** Within each group the entries keep their original relative order. */
  lemma PreferredOrderIsStable(rtp: seq<RtpEntry>, codecName: string)
    ensures Filter(PreferredOrder(rtp, codecName), IsCodec(codecName)) == Filter(rtp, IsCodec(codecName))
    ensures Filter(PreferredOrder(rtp, codecName), IsNotCodec(codecName)) == Filter(rtp, IsNotCodec(codecName))
  {
    var yes, no := IsCodec(codecName), IsNotCodec(codecName);
    FilterAppend(Filter(rtp, yes), Filter(rtp, no), yes);
    FilterAppend(Filter(rtp, yes), Filter(rtp, no), no);
    FilterIdempotent(rtp, yes);
    FilterIdempotent(rtp, no);
    FilterDisjoint(rtp, yes, no);
    FilterDisjoint(rtp, no, yes);
  }

  /** The reordering is a permutation of the rtp entries. */
  lemma PreferredOrderIsPermutation(rtp: seq<RtpEntry>, codecName: string)
    ensures multiset(PreferredOrder(rtp, codecName)) == multiset(rtp)
    ensures |PreferredOrder(rtp, codecName)| == |rtp|
  {
    FilterSplitPermutation(rtp, IsCodec(codecName), IsNotCodec(codecName));
    assert |multiset(PreferredOrder(rtp, codecName))| == |multiset(rtp)|;
  }

  /** Applying the reordering to its own output changes nothing: the
      output already is a stable partition. */
  lemma PreferredOrderIdempotent(rtp: seq<RtpEntry>, codecName: string)
    ensures PreferredOrder(PreferredOrder(rtp, codecName), codecName) == PreferredOrder(rtp, codecName)
  {
    PreferredOrderIsStable(rtp, codecName);
  }

  /** When no entry is of the requested codec (say the first media section
      is audio), the rtp entries keep their order. */
  lemma AbsentCodecKeepsOrder(rtp: seq<RtpEntry>, codecName: string)
    requires forall i :: 0 <= i < |rtp| ==> rtp[i].codec != codecName
    ensures PreferredOrder(rtp, codecName) == rtp
  {
    FilterAll(rtp, IsNotCodec(codecName));
    FilterNone(rtp, IsCodec(codecName));
  }

  /** The format list is rebuilt from the rtp entries alone. So when the
      first section lists exactly its rtp payloads, in rtp order, and none
      is of the requested codec, the description comes back unchanged. */
  lemma AbsentCodecKeepsDescription(parsed: SessionDescription, codecName: string)
    requires |parsed.media| > 0
    requires parsed.media[0].payloads == JoinSpaced(Map(parsed.media[0].rtp, (r: RtpEntry) => Decimal(r.payload)))
    requires forall i :: 0 <= i < |parsed.media[0].rtp| ==> parsed.media[0].rtp[i].codec != codecName
    ensures Rewrite(parsed, codecName) == parsed
  {
    AbsentCodecKeepsOrder(parsed.media[0].rtp, codecName);
    assert Rewrite(parsed, codecName).media == parsed.media;
  }

  /** A format on the `m=` line without an `a=rtpmap` line has no rtp entry,
      so the rebuilt format list drops it: an audio section listing "111 0"
      with an rtp entry for 111 only comes back listing "111". */
  lemma FormatWithoutRtpmapIsDropped(rest: map<string, string>)
    ensures var opus := RtpEntry(111, "opus", Some(48000), Some("2"));
            var audio := Media("audio", 9, "UDP/TLS/RTP/SAVPF", "111 0", [opus], rest);
            var parsed := SessionDescription(0, "-", "-", map[], [audio]);
            Rewrite(parsed, "VP8").media[0].payloads == "111" && Rewrite(parsed, "VP8") != parsed
  {
    var opus := RtpEntry(111, "opus", Some(48000), Some("2"));
    AbsentCodecKeepsOrder([opus], "VP8");
    assert Decimal(111) == "111" by {
      assert Decimal(11) == "11";
    }
  }

  /** A non-empty list of payload numbers, written as decimals and joined
      by single spaces, reads back as the same list. */
  lemma JoinedPayloadsReadBack(entries: seq<RtpEntry>)
    requires entries != []
    ensures ReadPayloads(JoinSpaced(Map(entries, (r: RtpEntry) => Decimal(r.payload)))) == Some(Payloads(entries))
  {
    var parts := Map(entries, (r: RtpEntry) => Decimal(r.payload));
    forall i | 0 <= i < |parts| ensures ' ' !in parts[i] {
      assert IsDigits(parts[i]);
    }
    SplitJoinRoundTrip(parts);
    forall i | 0 <= i < |parts| ensures DecimalValue(parts[i]) == entries[i].payload {
      DecimalRoundTrip(entries[i].payload);
    }
    assert forall i :: 0 <= i < |parts| ==> parts[i] != "" && IsDigits(parts[i]);
    var values := seq(|parts|, i requires 0 <= i < |parts| && IsDigits(parts[i]) => DecimalValue(parts[i]));
    assert values == Payloads(entries);
  }

  /** The new format list reads back as exactly the payload numbers of the
      rtp map, in preferred order: the same numbers, as often, reordered. */
  lemma PreferredPayloadsReadBack(rtp: seq<RtpEntry>, codecName: string)
    requires rtp != []
    ensures ReadPayloads(PreferredPayloads(rtp, codecName)) == Some(Payloads(PreferredOrder(rtp, codecName)))
    ensures multiset(Payloads(PreferredOrder(rtp, codecName))) == multiset(Payloads(rtp))
    ensures |Payloads(PreferredOrder(rtp, codecName))| == |rtp|
  {
    var yes, no := Filter(rtp, IsCodec(codecName)), Filter(rtp, IsNotCodec(codecName));
    PreferredOrderIsPermutation(rtp, codecName);
    JoinedPayloadsReadBack(PreferredOrder(rtp, codecName));
    MapFilterSplit(rtp, IsCodec(codecName), IsNotCodec(codecName), (r: RtpEntry) => r.payload);
    MapAppend(yes, no, (r: RtpEntry) => r.payload);
  }
}
