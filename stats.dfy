/**
 * The `convert*TrackStats` converters and the `onStats` payload: one entry per
 * stats report, keyed by the report's peer-connection id, each entry holding
 * four arrays of converted track stats.
 */
module Stats {
  import opened Wrappers
  import opened Payload
  import opened Sdk
  import opened Builders

  // ----- converters -----

  /** `convertBaseTrackStats`: codec, packetsLost, ssrc, timestamp, trackSid. */
  function BaseFields(b: BaseStats): Fields {
    [ Field("codec", VString(b.codec)),
      Field("packetsLost", VInt(b.packetsLost)),
      Field("ssrc", VString(b.ssrc)),
      Field("timestamp", VDouble(b.timestamp)),
      Field("trackSid", VString(b.trackSid)) ]
  }

  /** `convertLocalTrackStats`: byte counts and round-trip time are put as doubles. */
  function LocalFields(l: LocalCounters): Fields {
    [ Field("bytesSent", VDouble(l.bytesSent as real)),
      Field("packetsSent", VInt(l.packetsSent)),
      Field("roundTripTime", VDouble(l.roundTripTime as real)) ]
  }

  /** `convertRemoteTrackStats`. */
  function RemoteFields(r: RemoteCounters): Fields {
    [ Field("bytesReceived", VDouble(r.bytesReceived as real)),
      Field("packetsReceived", VInt(r.packetsReceived)) ]
  }

  function AudioFields(audioLevel: int, jitter: int): Fields {
    [Field("audioLevel", VInt(audioLevel)), Field("jitter", VInt(jitter))]
  }

  function VideoFields(d: Dimensions, frameRate: int): Fields {
    [ Field("dimensions", VMap([Field("height", VInt(d.height)), Field("width", VInt(d.width))])),
      Field("frameRate", VInt(frameRate)) ]
  }

  /** `convertAudioTrackStats` (remote audio). */
  function ConvertAudioTrackStats(s: RemoteAudioTrackStats): Fields {
    AudioFields(s.audioLevel, s.jitter) + BaseFields(s.base) + RemoteFields(s.remote)
  }

  function ConvertLocalAudioTrackStats(s: LocalAudioTrackStats): Fields {
    AudioFields(s.audioLevel, s.jitter) + BaseFields(s.base) + LocalFields(s.local)
  }

  /** `convertVideoTrackStats` (remote video). */
  function ConvertVideoTrackStats(s: RemoteVideoTrackStats): Fields {
    VideoFields(s.dimensions, s.frameRate) + BaseFields(s.base) + RemoteFields(s.remote)
  }

  function ConvertLocalVideoTrackStats(s: LocalVideoTrackStats): Fields {
    VideoFields(s.dimensions, s.frameRate) + BaseFields(s.base) + LocalFields(s.local)
  }

  // ----- readers -----

  function ReadDouble(fs: Fields, k: string): Option<real> {
    match Get(fs, k)
    case Some(VDouble(d)) => Some(d)
    case _ => None
  }

  /** A counter that was put as a double, read back as the integer it holds. */
  function ReadCount(fs: Fields, k: string): Option<int> {
    match ReadDouble(fs, k)
    case Some(d) => if d.Floor as real == d then Some(d.Floor) else None
    case None => None
  }

  function ReadBase(fs: Fields): Option<BaseStats> {
    match (ReadString(fs, "codec"), ReadInt(fs, "packetsLost"), ReadString(fs, "ssrc"),
           ReadDouble(fs, "timestamp"), ReadString(fs, "trackSid"))
    case (Some(c), Some(p), Some(s), Some(t), Some(id)) => Some(BaseStats(c, p, s, t, id))
    case _ => None
  }

  function ReadLocal(fs: Fields): Option<LocalCounters> {
    match (ReadCount(fs, "bytesSent"), ReadInt(fs, "packetsSent"), ReadCount(fs, "roundTripTime"))
    case (Some(b), Some(p), Some(r)) => Some(LocalCounters(b, p, r))
    case _ => None
  }

  function ReadRemote(fs: Fields): Option<RemoteCounters> {
    match (ReadCount(fs, "bytesReceived"), ReadInt(fs, "packetsReceived"))
    case (Some(b), Some(p)) => Some(RemoteCounters(b, p))
    case _ => None
  }

  function ReadAudio(fs: Fields): Option<(int, int)> {
    match (ReadInt(fs, "audioLevel"), ReadInt(fs, "jitter"))
    case (Some(a), Some(j)) => Some((a, j))
    case _ => None
  }

  function ReadVideo(fs: Fields): Option<(Dimensions, int)> {
    match (ReadMap(fs, "dimensions"), ReadInt(fs, "frameRate"))
    case (Some(dm), Some(f)) =>
      (match (ReadInt(dm, "width"), ReadInt(dm, "height"))
       case (Some(w), Some(h)) => Some((Dimensions(w, h), f))
       case _ => None)
    case _ => None
  }

  function ReadRemoteAudioStats(fs: Fields): Option<RemoteAudioTrackStats> {
    match (ReadBase(fs), ReadRemote(fs), ReadAudio(fs))
    case (Some(b), Some(r), Some((a, j))) => Some(RemoteAudioTrackStats(b, r, a, j))
    case _ => None
  }

  function ReadLocalAudioStats(fs: Fields): Option<LocalAudioTrackStats> {
    match (ReadBase(fs), ReadLocal(fs), ReadAudio(fs))
    case (Some(b), Some(l), Some((a, j))) => Some(LocalAudioTrackStats(b, l, a, j))
    case _ => None
  }

  function ReadRemoteVideoStats(fs: Fields): Option<RemoteVideoTrackStats> {
    match (ReadBase(fs), ReadRemote(fs), ReadVideo(fs))
    case (Some(b), Some(r), Some((d, f))) => Some(RemoteVideoTrackStats(b, r, d, f))
    case _ => None
  }

  function ReadLocalVideoStats(fs: Fields): Option<LocalVideoTrackStats> {
    match (ReadBase(fs), ReadLocal(fs), ReadVideo(fs))
    case (Some(b), Some(l), Some((d, f))) => Some(LocalVideoTrackStats(b, l, d, f))
    case _ => None
  }

  // ----- round trips -----

  /** Lookups in `head + BaseFields(b) + tail`, whatever `head` and `tail`
      are, as long as their keys avoid the base keys. */
  lemma BaseLookups(head: Fields, b: BaseStats, tail: Fields, fs: Fields)
    requires fs == head + BaseFields(b) + tail
    requires DistinctKeys(fs)
    ensures ReadBase(fs) == Some(b)
  {
    var n := |head|;
    assert fs[n] == Field("codec", VString(b.codec));
    assert fs[n + 1] == Field("packetsLost", VInt(b.packetsLost));
    assert fs[n + 2] == Field("ssrc", VString(b.ssrc));
    assert fs[n + 3] == Field("timestamp", VDouble(b.timestamp));
    assert fs[n + 4] == Field("trackSid", VString(b.trackSid));
    GetAt(fs, n); GetAt(fs, n + 1); GetAt(fs, n + 2); GetAt(fs, n + 3); GetAt(fs, n + 4);
  }

  /** A count read back from the double it was stored as. */
  lemma CountRead(fs: Fields, k: string, n: int)
    requires Get(fs, k) == Some(VDouble(n as real))
    ensures ReadCount(fs, k) == Some(n)
  {
  }

  lemma LocalLookups(head: Fields, l: LocalCounters, fs: Fields)
    requires fs == head + LocalFields(l)
    requires DistinctKeys(fs)
    ensures ReadLocal(fs) == Some(l)
  {
    var block := LocalFields(l);
    LookupIn(head, block, 0, fs);
    LookupIn(head, block, 1, fs);
    LookupIn(head, block, 2, fs);
    CountRead(fs, "bytesSent", l.bytesSent);
    CountRead(fs, "roundTripTime", l.roundTripTime);
  }

  lemma RemoteLookups(head: Fields, r: RemoteCounters, fs: Fields)
    requires fs == head + RemoteFields(r)
    requires DistinctKeys(fs)
    ensures ReadRemote(fs) == Some(r)
  {
    var block := RemoteFields(r);
    LookupIn(head, block, 0, fs);
    LookupIn(head, block, 1, fs);
    CountRead(fs, "bytesReceived", r.bytesReceived);
  }


  lemma AudioLookups(a: int, j: int, tail: Fields, fs: Fields)
    requires fs == AudioFields(a, j) + tail
    requires DistinctKeys(fs)
    ensures ReadAudio(fs) == Some((a, j))
  {
    GetAt(fs, 0); GetAt(fs, 1);
  }

  lemma VideoLookups(d: Dimensions, f: int, tail: Fields, fs: Fields)
    requires fs == VideoFields(d, f) + tail
    requires DistinctKeys(fs)
    ensures ReadVideo(fs) == Some((d, f))
  {
    GetAt(fs, 0); GetAt(fs, 1);
    var dm := [Field("height", VInt(d.height)), Field("width", VInt(d.width))];
    GetAt(dm, 0); GetAt(dm, 1);
  }

  lemma RemoteAudioKeys(s: RemoteAudioTrackStats)
    ensures DistinctKeys(ConvertAudioTrackStats(s))
  {
  }

  lemma LocalAudioKeys(s: LocalAudioTrackStats)
    ensures DistinctKeys(ConvertLocalAudioTrackStats(s))
  {
  }

  lemma RemoteVideoKeys(s: RemoteVideoTrackStats)
    ensures DistinctKeys(ConvertVideoTrackStats(s))
  {
  }

  lemma LocalVideoKeys(s: LocalVideoTrackStats)
    ensures DistinctKeys(ConvertLocalVideoTrackStats(s))
  {
  }

  lemma AssembleRemoteAudio(fs: Fields, s: RemoteAudioTrackStats)
    requires ReadBase(fs) == Some(s.base)
    requires ReadRemote(fs) == Some(s.remote)
    requires ReadAudio(fs) == Some((s.audioLevel, s.jitter))
    ensures ReadRemoteAudioStats(fs) == Some(s)
  {
  }

  /** A converted remote-audio entry gives back the stats it was built from,
      field for field. */
  lemma RemoteAudioRoundTrip(s: RemoteAudioTrackStats)
    ensures ReadRemoteAudioStats(ConvertAudioTrackStats(s)) == Some(s)
  {
    var fs := ConvertAudioTrackStats(s);
    var head := AudioFields(s.audioLevel, s.jitter);
    RemoteAudioKeys(s);
    assert ReadBase(fs) == Some(s.base) by { BaseLookups(head, s.base, RemoteFields(s.remote), fs); }
    assert ReadRemote(fs) == Some(s.remote) by { RemoteLookups(head + BaseFields(s.base), s.remote, fs); }
    assert ReadAudio(fs) == Some((s.audioLevel, s.jitter)) by {
      AudioLookups(s.audioLevel, s.jitter, BaseFields(s.base) + RemoteFields(s.remote), fs);
    }
    AssembleRemoteAudio(fs, s);
  }

  lemma AssembleLocalAudio(fs: Fields, s: LocalAudioTrackStats)
    requires ReadBase(fs) == Some(s.base)
    requires ReadLocal(fs) == Some(s.local)
    requires ReadAudio(fs) == Some((s.audioLevel, s.jitter))
    ensures ReadLocalAudioStats(fs) == Some(s)
  {
  }

  lemma LocalAudioRoundTrip(s: LocalAudioTrackStats)
    ensures ReadLocalAudioStats(ConvertLocalAudioTrackStats(s)) == Some(s)
  {
    var fs := ConvertLocalAudioTrackStats(s);
    var head := AudioFields(s.audioLevel, s.jitter);
    LocalAudioKeys(s);
    assert ReadBase(fs) == Some(s.base) by { BaseLookups(head, s.base, LocalFields(s.local), fs); }
    assert ReadLocal(fs) == Some(s.local) by { LocalLookups(head + BaseFields(s.base), s.local, fs); }
    assert ReadAudio(fs) == Some((s.audioLevel, s.jitter)) by {
      AudioLookups(s.audioLevel, s.jitter, BaseFields(s.base) + LocalFields(s.local), fs);
    }
    AssembleLocalAudio(fs, s);
  }

  lemma AssembleRemoteVideo(fs: Fields, s: RemoteVideoTrackStats)
    requires ReadBase(fs) == Some(s.base)
    requires ReadRemote(fs) == Some(s.remote)
    requires ReadVideo(fs) == Some((s.dimensions, s.frameRate))
    ensures ReadRemoteVideoStats(fs) == Some(s)
  {
  }

  lemma RemoteVideoRoundTrip(s: RemoteVideoTrackStats)
    ensures ReadRemoteVideoStats(ConvertVideoTrackStats(s)) == Some(s)
  {
    var fs := ConvertVideoTrackStats(s);
    var head := VideoFields(s.dimensions, s.frameRate);
    RemoteVideoKeys(s);
    assert ReadBase(fs) == Some(s.base) by { BaseLookups(head, s.base, RemoteFields(s.remote), fs); }
    assert ReadRemote(fs) == Some(s.remote) by { RemoteLookups(head + BaseFields(s.base), s.remote, fs); }
    assert ReadVideo(fs) == Some((s.dimensions, s.frameRate)) by {
      VideoLookups(s.dimensions, s.frameRate, BaseFields(s.base) + RemoteFields(s.remote), fs);
    }
    AssembleRemoteVideo(fs, s);
  }

  lemma AssembleLocalVideo(fs: Fields, s: LocalVideoTrackStats)
    requires ReadBase(fs) == Some(s.base)
    requires ReadLocal(fs) == Some(s.local)
    requires ReadVideo(fs) == Some((s.dimensions, s.frameRate))
    ensures ReadLocalVideoStats(fs) == Some(s)
  {
  }

  lemma LocalVideoRoundTrip(s: LocalVideoTrackStats)
    ensures ReadLocalVideoStats(ConvertLocalVideoTrackStats(s)) == Some(s)
  {
    var fs := ConvertLocalVideoTrackStats(s);
    var head := VideoFields(s.dimensions, s.frameRate);
    LocalVideoKeys(s);
    assert ReadBase(fs) == Some(s.base) by { BaseLookups(head, s.base, LocalFields(s.local), fs); }
    assert ReadLocal(fs) == Some(s.local) by { LocalLookups(head + BaseFields(s.base), s.local, fs); }
    assert ReadVideo(fs) == Some((s.dimensions, s.frameRate)) by {
      VideoLookups(s.dimensions, s.frameRate, BaseFields(s.base) + LocalFields(s.local), fs);
    }
    AssembleLocalVideo(fs, s);
  }

  // ----- one report, and the whole onStats payload -----

  /** The converted entries of one list, as a payload array, in list order. */
  function StatsArray<T>(l: seq<T>, convert: T -> Fields): (arr: seq<Value>)
  {
    seq(|l|, i requires 0 <= i < |l| => VMap(convert(l[i])))
  }

  /** One inner loop of `onStats`: push the converted entry of every element,
      in order. */
  method ConvertAll<T>(l: seq<T>, convert: T -> Fields) returns (arr: seq<Value>)
    ensures |arr| == |l|
    ensures forall i :: 0 <= i < |l| ==> arr[i] == VMap(convert(l[i]))
  {
    arr := [];
    var i := 0;
    while i < |l|
      invariant 0 <= i <= |l|
      invariant |arr| == i
      invariant forall k :: 0 <= k < i ==> arr[k] == VMap(convert(l[k]))
    {
      arr := arr + [VMap(convert(l[i]))];
      i := i + 1;
    }
  }

  /** The `connectionStats` map of one report: the four arrays, remote audio,
      remote video, local audio, local video. */
  function ReportEntry(sr: StatsReport): Fields {
    [ Field("remoteAudioTrackStats", VArray(StatsArray(sr.remoteAudio, ConvertAudioTrackStats))),
      Field("remoteVideoTrackStats", VArray(StatsArray(sr.remoteVideo, ConvertVideoTrackStats))),
      Field("localAudioTrackStats", VArray(StatsArray(sr.localAudio, ConvertLocalAudioTrackStats))),
      Field("localVideoTrackStats", VArray(StatsArray(sr.localVideo, ConvertLocalVideoTrackStats))) ]
  }

  /** The body of the `onStats` loop for one report. */
  method BuildReportEntry(sr: StatsReport) returns (entry: Fields)
    ensures entry == ReportEntry(sr)
  {
    var ra := ConvertAll(sr.remoteAudio, ConvertAudioTrackStats);
    var rv := ConvertAll(sr.remoteVideo, ConvertVideoTrackStats);
    var la := ConvertAll(sr.localAudio, ConvertLocalAudioTrackStats);
    var lv := ConvertAll(sr.localVideo, ConvertLocalVideoTrackStats);
    assert ra == StatsArray(sr.remoteAudio, ConvertAudioTrackStats);
    assert rv == StatsArray(sr.remoteVideo, ConvertVideoTrackStats);
    assert la == StatsArray(sr.localAudio, ConvertLocalAudioTrackStats);
    assert lv == StatsArray(sr.localVideo, ConvertLocalVideoTrackStats);
    entry := [ Field("remoteAudioTrackStats", VArray(ra)),
               Field("remoteVideoTrackStats", VArray(rv)),
               Field("localAudioTrackStats", VArray(la)),
               Field("localVideoTrackStats", VArray(lv)) ];
  }

  /** Each array of a report entry reads back, element for element and in
      order, as the report's list of that kind. */
  lemma ReportEntryLookups(sr: StatsReport)
    ensures Get(ReportEntry(sr), "remoteAudioTrackStats") == Some(VArray(StatsArray(sr.remoteAudio, ConvertAudioTrackStats)))
    ensures Get(ReportEntry(sr), "remoteVideoTrackStats") == Some(VArray(StatsArray(sr.remoteVideo, ConvertVideoTrackStats)))
    ensures Get(ReportEntry(sr), "localAudioTrackStats") == Some(VArray(StatsArray(sr.localAudio, ConvertLocalAudioTrackStats)))
    ensures Get(ReportEntry(sr), "localVideoTrackStats") == Some(VArray(StatsArray(sr.localVideo, ConvertLocalVideoTrackStats)))
  {
    var e := ReportEntry(sr);
    LookupAt(e, 0, e[0]);
    LookupAt(e, 1, e[1]);
    LookupAt(e, 2, e[2]);
    LookupAt(e, 3, e[3]);
  }

  lemma ReportEntryRoundTrip(sr: StatsReport)
    ensures Keys(ReportEntry(sr)) == ["remoteAudioTrackStats", "remoteVideoTrackStats", "localAudioTrackStats", "localVideoTrackStats"]
    ensures match Get(ReportEntry(sr), "remoteAudioTrackStats")
            case Some(VArray(a)) => |a| == |sr.remoteAudio| &&
              forall i :: 0 <= i < |a| ==> a[i].VMap? && ReadRemoteAudioStats(a[i].fields) == Some(sr.remoteAudio[i])
            case _ => false
    ensures match Get(ReportEntry(sr), "remoteVideoTrackStats")
            case Some(VArray(a)) => |a| == |sr.remoteVideo| &&
              forall i :: 0 <= i < |a| ==> a[i].VMap? && ReadRemoteVideoStats(a[i].fields) == Some(sr.remoteVideo[i])
            case _ => false
    ensures match Get(ReportEntry(sr), "localAudioTrackStats")
            case Some(VArray(a)) => |a| == |sr.localAudio| &&
              forall i :: 0 <= i < |a| ==> a[i].VMap? && ReadLocalAudioStats(a[i].fields) == Some(sr.localAudio[i])
            case _ => false
    ensures match Get(ReportEntry(sr), "localVideoTrackStats")
            case Some(VArray(a)) => |a| == |sr.localVideo| &&
              forall i :: 0 <= i < |a| ==> a[i].VMap? && ReadLocalVideoStats(a[i].fields) == Some(sr.localVideo[i])
            case _ => false
  {
    RemoteArraysRoundTrip(sr);
    LocalArraysRoundTrip(sr);
  }

  lemma RemoteArraysRoundTrip(sr: StatsReport)
    ensures match Get(ReportEntry(sr), "remoteAudioTrackStats")
            case Some(VArray(a)) => |a| == |sr.remoteAudio| &&
              forall i :: 0 <= i < |a| ==> a[i].VMap? && ReadRemoteAudioStats(a[i].fields) == Some(sr.remoteAudio[i])
            case _ => false
    ensures match Get(ReportEntry(sr), "remoteVideoTrackStats")
            case Some(VArray(a)) => |a| == |sr.remoteVideo| &&
              forall i :: 0 <= i < |a| ==> a[i].VMap? && ReadRemoteVideoStats(a[i].fields) == Some(sr.remoteVideo[i])
            case _ => false
  {
    ReportEntryLookups(sr);
    forall i | 0 <= i < |sr.remoteAudio| ensures ReadRemoteAudioStats(ConvertAudioTrackStats(sr.remoteAudio[i])) == Some(sr.remoteAudio[i]) {
      RemoteAudioRoundTrip(sr.remoteAudio[i]);
    }
    forall i | 0 <= i < |sr.remoteVideo| ensures ReadRemoteVideoStats(ConvertVideoTrackStats(sr.remoteVideo[i])) == Some(sr.remoteVideo[i]) {
      RemoteVideoRoundTrip(sr.remoteVideo[i]);
    }
  }

  lemma LocalArraysRoundTrip(sr: StatsReport)
    ensures match Get(ReportEntry(sr), "localAudioTrackStats")
            case Some(VArray(a)) => |a| == |sr.localAudio| &&
              forall i :: 0 <= i < |a| ==> a[i].VMap? && ReadLocalAudioStats(a[i].fields) == Some(sr.localAudio[i])
            case _ => false
    ensures match Get(ReportEntry(sr), "localVideoTrackStats")
            case Some(VArray(a)) => |a| == |sr.localVideo| &&
              forall i :: 0 <= i < |a| ==> a[i].VMap? && ReadLocalVideoStats(a[i].fields) == Some(sr.localVideo[i])
            case _ => false
  {
    ReportEntryLookups(sr);
    forall i | 0 <= i < |sr.localAudio| ensures ReadLocalAudioStats(ConvertLocalAudioTrackStats(sr.localAudio[i])) == Some(sr.localAudio[i]) {
      LocalAudioRoundTrip(sr.localAudio[i]);
    }
    forall i | 0 <= i < |sr.localVideo| ensures ReadLocalVideoStats(ConvertLocalVideoTrackStats(sr.localVideo[i])) == Some(sr.localVideo[i]) {
      LocalVideoRoundTrip(sr.localVideo[i]);
    }
  }


  /** The `onStats` event map: each report put under its peer-connection id,
      in report order (a later report with the same id overwrites). */
  function StatsPayload(rs: seq<StatsReport>): Fields
  {
    if rs == [] then []
    else Put(StatsPayload(rs[..|rs| - 1]), rs[|rs| - 1].peerConnectionId, VMap(ReportEntry(rs[|rs| - 1])))
  }

  /** The `onStats` loop. */
  method BuildStatsPayload(rs: seq<StatsReport>) returns (event: Fields)
    ensures event == StatsPayload(rs)
  {
    event := [];
    var i := 0;
    while i < |rs|
      invariant 0 <= i <= |rs|
      invariant event == StatsPayload(rs[..i])
    {
      var entry := BuildReportEntry(rs[i]);
      assert rs[..i + 1][..i] == rs[..i];
      event := Put(event, rs[i].peerConnectionId, VMap(entry));
      i := i + 1;
    }
    assert rs[..i] == rs;
  }

  /** The keys of the stats payload are exactly the reports' peer-connection
      ids, each once. */
  lemma {:induction false} StatsPayloadKeys(rs: seq<StatsReport>, id: string)
    ensures DistinctKeys(StatsPayload(rs))
    ensures id in Keys(StatsPayload(rs)) <==> exists i :: 0 <= i < |rs| && rs[i].peerConnectionId == id
  {
    if rs != [] {
      var init := rs[..|rs| - 1];
      var last := rs[|rs| - 1];
      StatsPayloadKeys(init, id);
      PutDistinct(StatsPayload(init), last.peerConnectionId, VMap(ReportEntry(last)));
      PutKeys(StatsPayload(init), last.peerConnectionId, VMap(ReportEntry(last)), id);
      if id in Keys(StatsPayload(rs)) && id != last.peerConnectionId {
        var i :| 0 <= i < |init| && init[i].peerConnectionId == id;
        assert rs[i] == init[i];
      }
      if exists i :: 0 <= i < |rs| && rs[i].peerConnectionId == id {
        var i :| 0 <= i < |rs| && rs[i].peerConnectionId == id;
        if i < |init| { assert init[i] == rs[i]; }
      }
    }
  }

  /** The entry under a report's id is the converted entry of the last report
      with that id. */
  lemma {:induction false} StatsPayloadLookup(rs: seq<StatsReport>, i: int)
    requires 0 <= i < |rs|
    requires forall j :: i < j < |rs| ==> rs[j].peerConnectionId != rs[i].peerConnectionId
    ensures Get(StatsPayload(rs), rs[i].peerConnectionId) == Some(VMap(ReportEntry(rs[i])))
  {
    var init := rs[..|rs| - 1];
    var last := rs[|rs| - 1];
    GetPut(StatsPayload(init), last.peerConnectionId, VMap(ReportEntry(last)), rs[i].peerConnectionId);
    if i < |rs| - 1 {
      assert init[i] == rs[i];
      StatsPayloadLookup(init, i);
    }
  }

  /** With pairwise distinct ids, the payload has one entry per report, in
      report order. */
  lemma {:induction false} StatsPayloadDistinctIds(rs: seq<StatsReport>)
    requires forall i, j :: 0 <= i < j < |rs| ==> rs[i].peerConnectionId != rs[j].peerConnectionId
    ensures |StatsPayload(rs)| == |rs|
    ensures forall i :: 0 <= i < |rs| ==> StatsPayload(rs)[i] == Field(rs[i].peerConnectionId, VMap(ReportEntry(rs[i])))
  {
    if rs != [] {
      var init := rs[..|rs| - 1];
      var last := rs[|rs| - 1];
      StatsPayloadDistinctIds(init);
      StatsPayloadKeys(init, last.peerConnectionId);
      PutShape(StatsPayload(init), last.peerConnectionId, VMap(ReportEntry(last)));
      forall i | 0 <= i < |rs| ensures StatsPayload(rs)[i] == Field(rs[i].peerConnectionId, VMap(ReportEntry(rs[i]))) {
        if i < |init| { assert init[i] == rs[i]; }
      }
    }
  }
}
