/** The event names the module emits and the emitted-event record. */
module Events {
  import opened Wrappers
  import opened Payload

  datatype EventName =
    | OnCameraSwitched
    | OnVideoChanged
    | OnAudioChanged
    | OnConnected
    | OnConnectFailure
    | OnDisconnected
    | OnParticipantConnected
    | OnParticipantDisconnected
    | OnDataTrackMessageReceived
    | OnParticipantAddedDataTrack
    | OnParticipantRemovedDataTrack
    | OnParticipantFailedToSubscribeToDataTrack
    | OnParticipantAddedVideoTrack
    | OnParticipantRemovedVideoTrack
    | OnParticipantFailedToSubscribeToVideoTrack
    | OnParticipantAddedAudioTrack
    | OnParticipantRemovedAudioTrack
    | OnParticipantFailedToSubscribeToAudioTrack
    | OnParticipantEnabledVideoTrack
    | OnParticipantDisabledVideoTrack
    | OnParticipantEnabledAudioTrack
    | OnParticipantDisabledAudioTrack
    | OnStatsReceived

  /** One entry of the emitted-event log: name and payload. */
  datatype Event = Event(name: EventName, payload: Fields)

  const Prefix: string := "TwilioVideo."

  /** The string the host receives as the event name. */
  function Wire(n: EventName): string {
    Prefix + Suffix(n)
  }

  function Suffix(n: EventName): string {
    match n
    case OnCameraSwitched => "onCameraSwitched"
    case OnVideoChanged => "onVideoChanged"
    case OnAudioChanged => "onAudioChanged"
    case OnConnected => "onRoomDidConnect"
    case OnConnectFailure => "onRoomDidFailToConnect"
    case OnDisconnected => "onRoomDidDisconnect"
    case OnParticipantConnected => "onRoomParticipantDidConnect"
    case OnParticipantDisconnected => "onRoomParticipantDidDisconnect"
    case OnDataTrackMessageReceived => "onDataTrackMessageReceived"
    case OnParticipantAddedDataTrack => "onParticipantAddedDataTrack"
    case OnParticipantRemovedDataTrack => "onParticipantRemovedDataTrack"
    case OnParticipantFailedToSubscribeToDataTrack => "onParticipantFailedToSubscribeToDataTrack"
    case OnParticipantAddedVideoTrack => "onParticipantAddedVideoTrack"
    case OnParticipantRemovedVideoTrack => "onParticipantRemovedVideoTrack"
    case OnParticipantFailedToSubscribeToVideoTrack => "onParticipantFailedToSubscribeToVideoTrack"
    case OnParticipantAddedAudioTrack => "onParticipantAddedAudioTrack"
    case OnParticipantRemovedAudioTrack => "onParticipantRemovedAudioTrack"
    case OnParticipantFailedToSubscribeToAudioTrack => "onParticipantFailedToSubscribeToAudioTrack"
    case OnParticipantEnabledVideoTrack => "onParticipantEnabledVideoTrack"
    case OnParticipantDisabledVideoTrack => "onParticipantDisabledVideoTrack"
    case OnParticipantEnabledAudioTrack => "onParticipantEnabledAudioTrack"
    case OnParticipantDisabledAudioTrack => "onParticipantDisabledAudioTrack"
    case OnStatsReceived => "onStatsReceived"
  }

  /** The listener side: which event a received name string denotes, if any. */
  function Parse(s: string): Option<EventName> {
    if |Prefix| <= |s| && s[..|Prefix|] == Prefix then ParseSuffix(s[|Prefix|..]) else None
  }

  /** The names are told apart by length first and then among the few names
      of that length. */
  function ParseSuffix(s: string): Option<EventName> {
    match |s|
    case 14 => ParseLength14(s)
    case 15 => ParseLength15(s)
    case 16 => ParseLength16(s)
    case 19 => ParseLength19(s)
    case 22 => ParseLength22(s)
    case 26 => ParseLength26(s)
    case 27 => ParseLength27(s)
    case 28 => ParseLength28(s)
    case 29 => ParseLength29(s)
    case 30 => ParseLength30(s)
    case 31 => ParseLength31(s)
    case 41 => ParseLength41(s)
    case 42 => ParseLength42(s)
    case _ => None
  }

  function ParseLength14(s: string): Option<EventName> {
    if s == "onVideoChanged" then Some(OnVideoChanged)
    else if s == "onAudioChanged" then Some(OnAudioChanged)
    else None
  }

  function ParseLength15(s: string): Option<EventName> {
    if s == "onStatsReceived" then Some(OnStatsReceived)
    else None
  }

  function ParseLength16(s: string): Option<EventName> {
    if s == "onCameraSwitched" then Some(OnCameraSwitched)
    else if s == "onRoomDidConnect" then Some(OnConnected)
    else None
  }

  function ParseLength19(s: string): Option<EventName> {
    if s == "onRoomDidDisconnect" then Some(OnDisconnected)
    else None
  }

  function ParseLength22(s: string): Option<EventName> {
    if s == "onRoomDidFailToConnect" then Some(OnConnectFailure)
    else None
  }

  function ParseLength26(s: string): Option<EventName> {
    if s == "onDataTrackMessageReceived" then Some(OnDataTrackMessageReceived)
    else None
  }

  function ParseLength27(s: string): Option<EventName> {
    if s == "onRoomParticipantDidConnect" then Some(OnParticipantConnected)
    else if s == "onParticipantAddedDataTrack" then Some(OnParticipantAddedDataTrack)
    else None
  }

  function ParseLength28(s: string): Option<EventName> {
    if s == "onParticipantAddedVideoTrack" then Some(OnParticipantAddedVideoTrack)
    else if s == "onParticipantAddedAudioTrack" then Some(OnParticipantAddedAudioTrack)
    else None
  }

  function ParseLength29(s: string): Option<EventName> {
    if s == "onParticipantRemovedDataTrack" then Some(OnParticipantRemovedDataTrack)
    else None
  }

  function ParseLength30(s: string): Option<EventName> {
    if s == "onRoomParticipantDidDisconnect" then Some(OnParticipantDisconnected)
    else if s == "onParticipantRemovedVideoTrack" then Some(OnParticipantRemovedVideoTrack)
    else if s == "onParticipantRemovedAudioTrack" then Some(OnParticipantRemovedAudioTrack)
    else if s == "onParticipantEnabledVideoTrack" then Some(OnParticipantEnabledVideoTrack)
    else if s == "onParticipantEnabledAudioTrack" then Some(OnParticipantEnabledAudioTrack)
    else None
  }

  function ParseLength31(s: string): Option<EventName> {
    if s == "onParticipantDisabledVideoTrack" then Some(OnParticipantDisabledVideoTrack)
    else if s == "onParticipantDisabledAudioTrack" then Some(OnParticipantDisabledAudioTrack)
    else None
  }

  function ParseLength41(s: string): Option<EventName> {
    if s == "onParticipantFailedToSubscribeToDataTrack" then Some(OnParticipantFailedToSubscribeToDataTrack)
    else None
  }

  function ParseLength42(s: string): Option<EventName> {
    if s == "onParticipantFailedToSubscribeToVideoTrack" then Some(OnParticipantFailedToSubscribeToVideoTrack)
    else if s == "onParticipantFailedToSubscribeToAudioTrack" then Some(OnParticipantFailedToSubscribeToAudioTrack)
    else None
  }

  /** Every name the module emits parses back as the event it names. */
  lemma ParseWire(n: EventName)
    ensures Parse(Wire(n)) == Some(n)
  {
    assert Wire(n)[..|Prefix|] == Prefix;
    assert Wire(n)[|Prefix|..] == Suffix(n);
    SuffixParses(n);
  }

  /** Each suffix parses back to its own event; one fact per event keeps
      every proof to a handful of literal comparisons. */
  lemma SuffixParses(n: EventName)
    ensures ParseSuffix(Suffix(n)) == Some(n)
  {
    match n
    case OnCameraSwitched => CameraSwitchedParses();
    case OnVideoChanged => VideoChangedParses();
    case OnAudioChanged => AudioChangedParses();
    case OnConnected => ConnectedParses();
    case OnConnectFailure => ConnectFailureParses();
    case OnDisconnected => DisconnectedParses();
    case OnParticipantConnected => ParticipantConnectedParses();
    case OnParticipantDisconnected => ParticipantDisconnectedParses();
    case OnDataTrackMessageReceived => DataTrackMessageReceivedParses();
    case OnParticipantAddedDataTrack => ParticipantAddedDataTrackParses();
    case OnParticipantRemovedDataTrack => ParticipantRemovedDataTrackParses();
    case OnParticipantFailedToSubscribeToDataTrack => ParticipantFailedToSubscribeToDataTrackParses();
    case OnParticipantAddedVideoTrack => ParticipantAddedVideoTrackParses();
    case OnParticipantRemovedVideoTrack => ParticipantRemovedVideoTrackParses();
    case OnParticipantFailedToSubscribeToVideoTrack => ParticipantFailedToSubscribeToVideoTrackParses();
    case OnParticipantAddedAudioTrack => ParticipantAddedAudioTrackParses();
    case OnParticipantRemovedAudioTrack => ParticipantRemovedAudioTrackParses();
    case OnParticipantFailedToSubscribeToAudioTrack => ParticipantFailedToSubscribeToAudioTrackParses();
    case OnParticipantEnabledVideoTrack => ParticipantEnabledVideoTrackParses();
    case OnParticipantDisabledVideoTrack => ParticipantDisabledVideoTrackParses();
    case OnParticipantEnabledAudioTrack => ParticipantEnabledAudioTrackParses();
    case OnParticipantDisabledAudioTrack => ParticipantDisabledAudioTrackParses();
    case OnStatsReceived => StatsReceivedParses();
  }

  lemma CameraSwitchedParses() ensures ParseSuffix(Suffix(OnCameraSwitched)) == Some(OnCameraSwitched) { }
  lemma VideoChangedParses() ensures ParseSuffix(Suffix(OnVideoChanged)) == Some(OnVideoChanged) { }
  lemma AudioChangedParses() ensures ParseSuffix(Suffix(OnAudioChanged)) == Some(OnAudioChanged) { }
  lemma ConnectedParses() ensures ParseSuffix(Suffix(OnConnected)) == Some(OnConnected) { }
  lemma ConnectFailureParses() ensures ParseSuffix(Suffix(OnConnectFailure)) == Some(OnConnectFailure) { }
  lemma DisconnectedParses() ensures ParseSuffix(Suffix(OnDisconnected)) == Some(OnDisconnected) { }
  lemma ParticipantConnectedParses() ensures ParseSuffix(Suffix(OnParticipantConnected)) == Some(OnParticipantConnected) { }
  lemma ParticipantDisconnectedParses() ensures ParseSuffix(Suffix(OnParticipantDisconnected)) == Some(OnParticipantDisconnected) { }
  lemma DataTrackMessageReceivedParses() ensures ParseSuffix(Suffix(OnDataTrackMessageReceived)) == Some(OnDataTrackMessageReceived) { }
  lemma ParticipantAddedDataTrackParses() ensures ParseSuffix(Suffix(OnParticipantAddedDataTrack)) == Some(OnParticipantAddedDataTrack) { }
  lemma ParticipantRemovedDataTrackParses() ensures ParseSuffix(Suffix(OnParticipantRemovedDataTrack)) == Some(OnParticipantRemovedDataTrack) { }
  lemma ParticipantFailedToSubscribeToDataTrackParses() ensures ParseSuffix(Suffix(OnParticipantFailedToSubscribeToDataTrack)) == Some(OnParticipantFailedToSubscribeToDataTrack) { }
  lemma ParticipantAddedVideoTrackParses() ensures ParseSuffix(Suffix(OnParticipantAddedVideoTrack)) == Some(OnParticipantAddedVideoTrack) { }
  lemma ParticipantRemovedVideoTrackParses() ensures ParseSuffix(Suffix(OnParticipantRemovedVideoTrack)) == Some(OnParticipantRemovedVideoTrack) { }
  lemma ParticipantFailedToSubscribeToVideoTrackParses() ensures ParseSuffix(Suffix(OnParticipantFailedToSubscribeToVideoTrack)) == Some(OnParticipantFailedToSubscribeToVideoTrack) { }
  lemma ParticipantAddedAudioTrackParses() ensures ParseSuffix(Suffix(OnParticipantAddedAudioTrack)) == Some(OnParticipantAddedAudioTrack) { }
  lemma ParticipantRemovedAudioTrackParses() ensures ParseSuffix(Suffix(OnParticipantRemovedAudioTrack)) == Some(OnParticipantRemovedAudioTrack) { }
  lemma ParticipantFailedToSubscribeToAudioTrackParses() ensures ParseSuffix(Suffix(OnParticipantFailedToSubscribeToAudioTrack)) == Some(OnParticipantFailedToSubscribeToAudioTrack) { }
  lemma ParticipantEnabledVideoTrackParses() ensures ParseSuffix(Suffix(OnParticipantEnabledVideoTrack)) == Some(OnParticipantEnabledVideoTrack) { }
  lemma ParticipantDisabledVideoTrackParses() ensures ParseSuffix(Suffix(OnParticipantDisabledVideoTrack)) == Some(OnParticipantDisabledVideoTrack) { }
  lemma ParticipantEnabledAudioTrackParses() ensures ParseSuffix(Suffix(OnParticipantEnabledAudioTrack)) == Some(OnParticipantEnabledAudioTrack) { }
  lemma ParticipantDisabledAudioTrackParses() ensures ParseSuffix(Suffix(OnParticipantDisabledAudioTrack)) == Some(OnParticipantDisabledAudioTrack) { }
  lemma StatsReceivedParses() ensures ParseSuffix(Suffix(OnStatsReceived)) == Some(OnStatsReceived) { }

  /** Two different events never share a name string, so a listener can
      tell every event apart by its name alone. */
  lemma WireInjective(a: EventName, b: EventName)
    ensures Wire(a) == Wire(b) <==> a == b
  {
    ParseWire(a);
    ParseWire(b);
  }
}
