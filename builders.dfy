/**
 * The payload builders of the module: each turns SDK records into a fresh
 * payload map. Beside each builder is the reader a host listener would apply,
 * and a lemma that reading a built payload gives back exactly the inputs.
 */
module Builders {
  import opened Wrappers
  import opened Payload
  import opened Sdk

  // ----- generic readers -----

  function ReadString(fs: Fields, k: string): Option<string> {
    match Get(fs, k)
    case Some(VString(s)) => Some(s)
    case _ => None
  }

  function ReadInt(fs: Fields, k: string): Option<int> {
    match Get(fs, k)
    case Some(VInt(i)) => Some(i)
    case _ => None
  }

  function ReadBool(fs: Fields, k: string): Option<bool> {
    match Get(fs, k)
    case Some(VBool(b)) => Some(b)
    case _ => None
  }

  function ReadMap(fs: Fields, k: string): Option<Fields> {
    match Get(fs, k)
    case Some(VMap(m)) => Some(m)
    case _ => None
  }

  // ----- descriptors -----

  /** `buildParticipant`: identity and sid. */
  function BuildParticipant(p: Participant): Fields {
    [Field("identity", VString(p.identity)), Field("sid", VString(p.sid))]
  }

  function ReadParticipant(fs: Fields): Option<Participant> {
    match (ReadString(fs, "identity"), ReadString(fs, "sid"))
    case (Some(i), Some(s)) => Some(Participant(i, s))
    case _ => None
  }

  lemma ParticipantRoundTrip(p: Participant)
    ensures Keys(BuildParticipant(p)) == ["identity", "sid"]
    ensures ReadParticipant(BuildParticipant(p)) == Some(p)
  {
    var fs := BuildParticipant(p);
    GetAt(fs, 0);
    GetAt(fs, 1);
  }

  /** The track map of `buildParticipantVideoEvent` and
      `buildTrackSubscriptionFailedEvent`. */
  function BuildTrack(pub: TrackPublication): Fields {
    [ Field("trackSid", VString(pub.trackSid)),
      Field("trackName", VString(pub.trackName)),
      Field("enabled", VBool(pub.enabled)) ]
  }

  function ReadTrack(fs: Fields): Option<TrackPublication> {
    match (ReadString(fs, "trackSid"), ReadString(fs, "trackName"), ReadBool(fs, "enabled"))
    case (Some(s), Some(n), Some(e)) => Some(TrackPublication(s, n, e))
    case _ => None
  }

  lemma TrackRoundTrip(pub: TrackPublication)
    ensures Keys(BuildTrack(pub)) == ["trackSid", "trackName", "enabled"]
    ensures ReadTrack(BuildTrack(pub)) == Some(pub)
  {
    var fs := BuildTrack(pub);
    GetAt(fs, 0);
    GetAt(fs, 1);
    GetAt(fs, 2);
  }

  /** The error map of a `TwilioException`: message and code. */
  function BuildError(e: TwilioError): Fields {
    [Field("message", VString(e.message)), Field("code", VInt(e.code))]
  }

  function ReadError(fs: Fields): Option<TwilioError> {
    match (ReadString(fs, "message"), ReadInt(fs, "code"))
    case (Some(m), Some(c)) => Some(TwilioError(m, c))
    case _ => None
  }

  lemma ErrorRoundTrip(e: TwilioError)
    ensures Keys(BuildError(e)) == ["message", "code"]
    ensures ReadError(BuildError(e)) == Some(e)
  {
    var fs := BuildError(e);
    GetAt(fs, 0);
    GetAt(fs, 1);
  }

  // ----- track and participant events -----

  /** `buildParticipantVideoEvent`: participant and track maps (used for
      audio and video subscribe, unsubscribe, enable and disable alike). */
  function BuildParticipantVideoEvent(p: Participant, pub: TrackPublication): Fields {
    [Field("participant", VMap(BuildParticipant(p))), Field("track", VMap(BuildTrack(pub)))]
  }

  function ReadTrackEvent(fs: Fields): Option<(Participant, TrackPublication)> {
    match (ReadMap(fs, "participant"), ReadMap(fs, "track"))
    case (Some(pm), Some(tm)) =>
      (match (ReadParticipant(pm), ReadTrack(tm))
       case (Some(p), Some(t)) => Some((p, t))
       case _ => None)
    case _ => None
  }

  lemma TrackEventRoundTrip(p: Participant, pub: TrackPublication)
    ensures Keys(BuildParticipantVideoEvent(p, pub)) == ["participant", "track"]
    ensures ReadTrackEvent(BuildParticipantVideoEvent(p, pub)) == Some((p, pub))
  {
    var fs := BuildParticipantVideoEvent(p, pub);
    GetAt(fs, 0);
    GetAt(fs, 1);
    ParticipantRoundTrip(p);
    TrackRoundTrip(pub);
  }

  /** `buildTrackSubscriptionFailedEvent`: participant, track and error maps. */
  function BuildTrackSubscriptionFailedEvent(p: Participant, pub: TrackPublication, e: TwilioError): Fields {
    BuildParticipantVideoEvent(p, pub) + [Field("error", VMap(BuildError(e)))]
  }

  function ReadFailedEvent(fs: Fields): Option<(Participant, TrackPublication, TwilioError)> {
    match (ReadTrackEvent(fs), ReadMap(fs, "error"))
    case (Some((p, t)), Some(em)) =>
      (match ReadError(em)
       case Some(e) => Some((p, t, e))
       case None => None)
    case _ => None
  }

  lemma FailedEventRoundTrip(p: Participant, pub: TrackPublication, e: TwilioError)
    ensures Keys(BuildTrackSubscriptionFailedEvent(p, pub, e)) == ["participant", "track", "error"]
    ensures ReadFailedEvent(BuildTrackSubscriptionFailedEvent(p, pub, e)) == Some((p, pub, e))
  {
    var fs := BuildTrackSubscriptionFailedEvent(p, pub, e);
    ThreeLookups(fs[0], fs[1], fs[2], fs);
    ParticipantRoundTrip(p);
    TrackRoundTrip(pub);
    ErrorRoundTrip(e);
  }

  /** `buildParticipantDataEvent`: the participant map, and the same
      participant map again under "track". */
  function BuildParticipantDataEvent(p: Participant): Fields {
    [Field("participant", VMap(BuildParticipant(p))), Field("track", VMap(BuildParticipant(p)))]
  }

  lemma DataEventRoundTrip(p: Participant)
    ensures Keys(BuildParticipantDataEvent(p)) == ["participant", "track"]
    ensures ReadMap(BuildParticipantDataEvent(p), "participant").Some?
    ensures ReadParticipant(ReadMap(BuildParticipantDataEvent(p), "participant").value) == Some(p)
    ensures ReadMap(BuildParticipantDataEvent(p), "track") == ReadMap(BuildParticipantDataEvent(p), "participant")
  {
    var fs := BuildParticipantDataEvent(p);
    GetAt(fs, 0);
    GetAt(fs, 1);
    ParticipantRoundTrip(p);
  }

  // ----- room events -----

  function ReadRoom(fs: Fields): Option<RoomInfo> {
    match (ReadString(fs, "roomName"), ReadString(fs, "roomSid"))
    case (Some(n), Some(s)) => Some(RoomInfo(n, s))
    case _ => None
  }

  function RoomFields(room: RoomInfo): Fields {
    [Field("roomName", VString(room.name)), Field("roomSid", VString(room.sid))]
  }

  /** The payload of `onRoomParticipantDidConnect` / `...DidDisconnect`. */
  function BuildParticipantConnectionEvent(room: RoomInfo, p: Participant): Fields {
    RoomFields(room) + [Field("participant", VMap(BuildParticipant(p)))]
  }

  function ReadParticipantConnection(fs: Fields): Option<(RoomInfo, Participant)> {
    match (ReadRoom(fs), ReadMap(fs, "participant"))
    case (Some(r), Some(pm)) =>
      (match ReadParticipant(pm)
       case Some(p) => Some((r, p))
       case None => None)
    case _ => None
  }

  lemma ParticipantConnectionRoundTrip(room: RoomInfo, p: Participant)
    ensures Keys(BuildParticipantConnectionEvent(room, p)) == ["roomName", "roomSid", "participant"]
    ensures ReadParticipantConnection(BuildParticipantConnectionEvent(room, p)) == Some((room, p))
  {
    var fs := BuildParticipantConnectionEvent(room, p);
    GetAt(fs, 0);
    GetAt(fs, 1);
    GetAt(fs, 2);
    ParticipantRoundTrip(p);
  }

  /** The payload of `onRoomDidConnect`, given the participants array. */
  function BuildConnectedEvent(room: RoomInfo, participants: seq<Value>): Fields {
    RoomFields(room) + [Field("participants", VArray(participants))]
  }

  lemma ConnectedEventRoundTrip(room: RoomInfo, participants: seq<Value>)
    ensures Keys(BuildConnectedEvent(room, participants)) == ["roomName", "roomSid", "participants"]
    ensures ReadRoom(BuildConnectedEvent(room, participants)) == Some(room)
    ensures Get(BuildConnectedEvent(room, participants), "participants") == Some(VArray(participants))
  {
    var fs := BuildConnectedEvent(room, participants);
    GetAt(fs, 0);
    GetAt(fs, 1);
    GetAt(fs, 2);
  }

  /** The participants array of `onRoomDidConnect`. */
  function ParticipantsArray(remotes: seq<RemoteParticipant>, local: Participant): seq<Value> {
    seq(|remotes|, i requires 0 <= i < |remotes| => VMap(BuildParticipant(remotes[i].participant)))
    + [VMap(BuildParticipant(local))]
  }

  /** The loop that fills the participants array: the room's remote
      participants in room order, then the local participant last. */
  method BuildParticipantsArray(remotes: seq<RemoteParticipant>, local: Participant) returns (arr: seq<Value>)
    ensures arr == ParticipantsArray(remotes, local)
    ensures |arr| == |remotes| + 1
    ensures forall i :: 0 <= i < |remotes| ==> arr[i] == VMap(BuildParticipant(remotes[i].participant))
    ensures arr[|remotes|] == VMap(BuildParticipant(local))
  {
    arr := [];
    for i := 0 to |remotes|
      invariant |arr| == i
      invariant forall k :: 0 <= k < i ==> arr[k] == VMap(BuildParticipant(remotes[k].participant))
    {
      arr := arr + [VMap(BuildParticipant(remotes[i].participant))];
    }
    arr := arr + [VMap(BuildParticipant(local))];
  }

  /** The payload of `onRoomDidFailToConnect` reported by the room. */
  function BuildConnectFailureEvent(room: RoomInfo, e: TwilioError): Fields {
    RoomFields(room) + [Field("error", VMap(BuildError(e)))]
  }

  function ReadConnectFailure(fs: Fields): Option<(RoomInfo, TwilioError)> {
    match (ReadRoom(fs), ReadMap(fs, "error"))
    case (Some(r), Some(em)) =>
      (match ReadError(em)
       case Some(e) => Some((r, e))
       case None => None)
    case _ => None
  }

  lemma ConnectFailureRoundTrip(room: RoomInfo, e: TwilioError)
    ensures Keys(BuildConnectFailureEvent(room, e)) == ["roomName", "roomSid", "error"]
    ensures ReadConnectFailure(BuildConnectFailureEvent(room, e)) == Some((room, e))
  {
    var fs := BuildConnectFailureEvent(room, e);
    GetAt(fs, 0);
    GetAt(fs, 1);
    GetAt(fs, 2);
    ErrorRoundTrip(e);
  }

  const NoCameraMessage: string := "No camera is supported on this device"

  /** The payload of `onRoomDidFailToConnect` when no camera could be opened:
      a bare error string, no room fields. */
  function NoCameraEvent(): Fields {
    [Field("error", VString(NoCameraMessage))]
  }

  /** The payload of `onRoomDidDisconnect`: the local identity (a string, not
      a participant map) when there is a local participant, the room fields,
      and the error map when the SDK gave an exception. */
  function BuildDisconnectedEvent(local: Option<Participant>, room: RoomInfo, e: Option<TwilioError>): Fields {
    (if local.Some? then [Field("participant", VString(local.value.identity))] else [])
    + RoomFields(room)
    + (if e.Some? then [Field("error", VMap(BuildError(e.value)))] else [])
  }

  function ReadError?(fs: Fields): Option<TwilioError> {
    match ReadMap(fs, "error")
    case Some(em) => ReadError(em)
    case None => None
  }

  lemma DisconnectedEventRoundTrip(local: Option<Participant>, room: RoomInfo, e: Option<TwilioError>)
    ensures "participant" in Keys(BuildDisconnectedEvent(local, room, e)) <==> local.Some?
    ensures "error" in Keys(BuildDisconnectedEvent(local, room, e)) <==> e.Some?
    ensures ReadString(BuildDisconnectedEvent(local, room, e), "participant")
         == (if local.Some? then Some(local.value.identity) else None)
    ensures ReadRoom(BuildDisconnectedEvent(local, room, e)) == Some(room)
    ensures ReadError?(BuildDisconnectedEvent(local, room, e)) == e
  {
    var fs := BuildDisconnectedEvent(local, room, e);
    var rn := Field("roomName", VString(room.name));
    var rs := Field("roomSid", VString(room.sid));
    var pre := if local.Some? then [Field("participant", VString(local.value.identity))] else [];
    var post := if e.Some? then [Field("error", VMap(BuildError(e.value)))] else [];
    assert DisconnectedLayout(pre, rn, rs, post, fs);
    DisconnectedLookups(pre, rn, rs, post, fs);
    GetKeys(fs, "participant");
    GetKeys(fs, "error");
    if e.Some? {
      ErrorRoundTrip(e.value);
    }
  }

  /** The disconnected payload's layout: an optional participant, the room
      fields, an optional error. */
  predicate DisconnectedLayout(pre: Fields, rn: Field, rs: Field, post: Fields, fs: Fields) {
    && |pre| <= 1 && |post| <= 1
    && (pre != [] ==> pre[0].key == "participant")
    && (post != [] ==> post[0].key == "error")
    && rn.key == "roomName" && rs.key == "roomSid"
    && fs == pre + [rn, rs] + post
  }

  lemma DisconnectedDistinct(pre: Fields, rn: Field, rs: Field, post: Fields, fs: Fields)
    requires DisconnectedLayout(pre, rn, rs, post, fs)
    ensures DistinctKeys(fs)
  {
  }

  lemma DisconnectedLookups(pre: Fields, rn: Field, rs: Field, post: Fields, fs: Fields)
    requires DisconnectedLayout(pre, rn, rs, post, fs)
    ensures Get(fs, "roomName") == Some(rn.value)
    ensures Get(fs, "roomSid") == Some(rs.value)
    ensures Get(fs, "participant") == if pre == [] then None else Some(pre[0].value)
    ensures Get(fs, "error") == if post == [] then None else Some(post[0].value)
  {
    DisconnectedDistinct(pre, rn, rs, post, fs);
    assert fs[|pre|] == rn && fs[|pre| + 1] == rs;
    LookupAt(fs, |pre|, rn);
    LookupAt(fs, |pre| + 1, rs);
    OptionalLookups(pre, rn, rs, post, fs);
  }

  lemma OptionalLookups(pre: Fields, rn: Field, rs: Field, post: Fields, fs: Fields)
    requires DisconnectedLayout(pre, rn, rs, post, fs) && DistinctKeys(fs)
    ensures Get(fs, "participant") == if pre == [] then None else Some(pre[0].value)
    ensures Get(fs, "error") == if post == [] then None else Some(post[0].value)
  {
    if pre != [] {
      LookupAt(fs, 0, pre[0]);
    } else {
      GetAbsent(fs, "participant");
    }
    if post != [] {
      assert fs[|fs| - 1] == post[0];
      LookupAt(fs, |fs| - 1, post[0]);
    } else {
      GetAbsent(fs, "error");
    }
  }

  function CameraSwitchedEvent(isBackCamera: bool): Fields {
    [Field("isBackCamera", VBool(isBackCamera))]
  }

  function VideoChangedEvent(videoEnabled: bool): Fields {
    [Field("videoEnabled", VBool(videoEnabled))]
  }

  function AudioChangedEvent(audioEnabled: bool): Fields {
    [Field("audioEnabled", VBool(audioEnabled))]
  }

  /** The no-camera failure carries only the fixed error text: a listener
      finds neither room fields nor the error map the SDK's own connection
      failure carries. */
  lemma NoCameraEventShape()
    ensures Keys(NoCameraEvent()) == ["error"]
    ensures ReadString(NoCameraEvent(), "error") == Some(NoCameraMessage)
    ensures ReadRoom(NoCameraEvent()) == None
    ensures ReadConnectFailure(NoCameraEvent()) == None
  {
    GetAt(NoCameraEvent(), 0);
    GetAbsent(NoCameraEvent(), "roomName");
  }

  /** Each one-flag payload carries its flag under its own key and nothing
      else. */
  lemma FlagEventsRoundTrip(b: bool)
    ensures Keys(CameraSwitchedEvent(b)) == ["isBackCamera"] && ReadBool(CameraSwitchedEvent(b), "isBackCamera") == Some(b)
    ensures Keys(VideoChangedEvent(b)) == ["videoEnabled"] && ReadBool(VideoChangedEvent(b), "videoEnabled") == Some(b)
    ensures Keys(AudioChangedEvent(b)) == ["audioEnabled"] && ReadBool(AudioChangedEvent(b), "audioEnabled") == Some(b)
  {
    GetAt(CameraSwitchedEvent(b), 0);
    GetAt(VideoChangedEvent(b), 0);
    GetAt(AudioChangedEvent(b), 0);
  }
}
