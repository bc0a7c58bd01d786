/** Codec restriction performed before the offer is created (`__force_codec`
    in cam_client.py, `force_codec` in cam-client.py; the two are identical).
    The capability list the sender reports and the connection's transceivers
    are inputs. */
module Codec {
  import opened Wrappers

  /** The codec the clients force when `--force-h264` is given. */
  const ForcedH264 := "video/H264"

  const VideoKind := "video"

  /** One entry of the sender's video capability list. */
  datatype Capability = Capability(mimeType: string, clockRate: nat, parameters: map<string, string>)

  /** A transceiver of the peer connection and the codec preferences set on
      it; an empty list means "no preference". */
  datatype Transceiver = Transceiver(kind: string, codecPreferences: seq<Capability>)

  /** `next(...)` over an empty generator raises `StopIteration`. */
  datatype CodecError = StopIteration

  /** The list comprehension keeping capabilities whose MIME type is exactly
      `forced`. */
  function MatchingCodecs(codecs: seq<Capability>, forced: string): (r: seq<Capability>)
    ensures |r| <= |codecs|
    ensures forall c :: c in r <==> c in codecs && c.mimeType == forced
    ensures forall c :: multiset(r)[c] == if c.mimeType == forced then multiset(codecs)[c] else 0
  {
    if codecs == [] then []
    else
      var rest := MatchingCodecs(codecs[1..], forced);
      assert codecs == [codecs[0]] + codecs[1..];
      if codecs[0].mimeType == forced then [codecs[0]] + rest else rest
  }

  /** The filter commutes with concatenation; with the singleton cases this
      pins the result down as the matching entries in their original order. */
  lemma {:induction false} MatchingDistributes(a: seq<Capability>, b: seq<Capability>, forced: string)
    ensures MatchingCodecs(a + b, forced) == MatchingCodecs(a, forced) + MatchingCodecs(b, forced)
  {
    if a == [] {
      assert a + b == b;
    } else {
      assert (a + b)[0] == a[0];
      assert (a + b)[1..] == a[1..] + b;
      MatchingDistributes(a[1..], b, forced);
    }
  }

  /** Filtering an already filtered list changes nothing. */
  lemma {:induction false} MatchingIdempotent(codecs: seq<Capability>, forced: string)
    ensures MatchingCodecs(MatchingCodecs(codecs, forced), forced) == MatchingCodecs(codecs, forced)
  {
    if codecs != [] {
      var rest := MatchingCodecs(codecs[1..], forced);
      MatchingIdempotent(codecs[1..], forced);
      if codecs[0].mimeType == forced {
        MatchingDistributes([codecs[0]], rest, forced);
      }
    }
  }

  /** A list all of whose entries match is kept whole, in order. */
  lemma {:induction false} MatchingKeepsAllMatching(codecs: seq<Capability>, forced: string)
    requires forall i :: 0 <= i < |codecs| ==> codecs[i].mimeType == forced
    ensures MatchingCodecs(codecs, forced) == codecs
  {
    if codecs != [] {
      MatchingKeepsAllMatching(codecs[1..], forced);
      assert codecs == [codecs[0]] + codecs[1..];
    }
  }

  /** Index of the first transceiver of the given kind, as `next(...)` finds it. */
  function FirstOfKind(ts: seq<Transceiver>, kind: string): (r: Option<nat>)
    ensures r.Some? ==> r.value < |ts| && ts[r.value].kind == kind
    ensures r.Some? ==> forall j :: 0 <= j < r.value ==> ts[j].kind != kind
    ensures r.None? <==> forall j :: 0 <= j < |ts| ==> ts[j].kind != kind
  {
    if ts == [] then None
    else if ts[0].kind == kind then Some(0)
    else match FirstOfKind(ts[1..], kind)
      case Some(k) => Some(k + 1)
      case None => None
  }

  /** Restrict the first video transceiver to the capabilities matching
      `forced`.  When nothing matches the transceivers come back untouched and
      nothing is raised; when something matches but there is no video
      transceiver, `next` raises. */
  function ForceCodec(capabilities: seq<Capability>, ts: seq<Transceiver>, forced: string): (r: Result<seq<Transceiver>, CodecError>)
    ensures MatchingCodecs(capabilities, forced) == [] ==> r == Success(ts)
    ensures r.Failure? <==> MatchingCodecs(capabilities, forced) != [] && FirstOfKind(ts, VideoKind).None?
    ensures r.Success? ==> |r.value| == |ts| && forall j :: 0 <= j < |ts| ==> r.value[j].kind == ts[j].kind
    ensures r.Success? && MatchingCodecs(capabilities, forced) != [] ==>
              exists k :: FirstOfKind(ts, VideoKind) == Some(k)
                && r.value[k].codecPreferences == MatchingCodecs(capabilities, forced)
                && forall j :: 0 <= j < |ts| && j != k ==> r.value[j] == ts[j]
  {
    var matching := MatchingCodecs(capabilities, forced);
    if |matching| == 0 then Success(ts)
    else match FirstOfKind(ts, VideoKind)
      case None => Failure(StopIteration)
      case Some(k) => Success(ts[k := ts[k].(codecPreferences := matching)])
  }

  /** Adding the camera track gives the connection a video transceiver
      (an idle one is reused; a new one is appended otherwise). */
  function AddVideoTrack(ts: seq<Transceiver>): (r: seq<Transceiver>)
    ensures FirstOfKind(r, VideoKind).Some?
    ensures ts <= r
  {
    if FirstOfKind(ts, VideoKind).Some? then ts
    else
      var r := ts + [Transceiver(VideoKind, [])];
      assert r[|ts|].kind == VideoKind;
      r
  }

  /** Both clients add the video track before forcing the codec, so forcing
      never raises. */
  lemma ForceAfterTrackNeverRaises(capabilities: seq<Capability>, ts: seq<Transceiver>, forced: string)
    ensures ForceCodec(capabilities, AddVideoTrack(ts), forced).Success?
  {
  }

  /** Forcing the same codec a second time leaves the transceivers as the
      first call left them. */
  lemma ForceCodecIdempotent(capabilities: seq<Capability>, ts: seq<Transceiver>, forced: string)
    requires ForceCodec(capabilities, ts, forced).Success?
    ensures ForceCodec(capabilities, ForceCodec(capabilities, ts, forced).value, forced)
            == ForceCodec(capabilities, ts, forced)
  {
    var r := ForceCodec(capabilities, ts, forced).value;
    if MatchingCodecs(capabilities, forced) != [] {
      var matching := MatchingCodecs(capabilities, forced);
      var k :| FirstOfKind(ts, VideoKind) == Some(k);
      assert r[k].kind == VideoKind;
      var k' := FirstOfKind(r, VideoKind).value;
      assert ts[k'].kind == VideoKind;
      assert k' == k;
      assert r[k := r[k].(codecPreferences := matching)] == r;
    }
  }
}
