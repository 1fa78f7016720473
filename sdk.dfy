/**
 * The vendor video SDK's objects as plain records: only the properties the
 * module reads (identity, sid, trackSid, trackName, enabled, stats fields).
 */
module Sdk {

  /** A local or remote participant as `buildParticipant` sees it. */
  datatype Participant = Participant(identity: string, sid: string)

  /** A remote participant's data-track publication: its track SID and
      whether the local side is subscribed to the track. */
  datatype DataTrackPublication = DataTrackPublication(trackSid: string, subscribed: bool)

  /** A remote participant together with its data-track publications. */
  datatype RemoteParticipant = RemoteParticipant(participant: Participant, dataTracks: seq<DataTrackPublication>)

  /** An audio or video track publication. */
  datatype TrackPublication = TrackPublication(trackSid: string, trackName: string, enabled: bool)

  /** A `TwilioException`: message and code. */
  datatype TwilioError = TwilioError(message: string, code: int)

  /** What a room callback reads from its `Room` argument. */
  datatype RoomInfo = RoomInfo(name: string, sid: string)

  datatype CameraSource = FrontCamera | BackCamera

  // ----- stats report -----

  /** Fields of `BaseTrackStats`. */
  datatype BaseStats = BaseStats(codec: string, packetsLost: int, ssrc: string, timestamp: real, trackSid: string)

  /** Fields of `LocalTrackStats` beyond the base ones. */
  datatype LocalCounters = LocalCounters(bytesSent: int, packetsSent: int, roundTripTime: int)

  /** Fields of `RemoteTrackStats` beyond the base ones. */
  datatype RemoteCounters = RemoteCounters(bytesReceived: int, packetsReceived: int)

  datatype Dimensions = Dimensions(width: int, height: int)

  datatype RemoteAudioTrackStats = RemoteAudioTrackStats(base: BaseStats, remote: RemoteCounters, audioLevel: int, jitter: int)
  datatype LocalAudioTrackStats = LocalAudioTrackStats(base: BaseStats, local: LocalCounters, audioLevel: int, jitter: int)
  datatype RemoteVideoTrackStats = RemoteVideoTrackStats(base: BaseStats, remote: RemoteCounters, dimensions: Dimensions, frameRate: int)
  datatype LocalVideoTrackStats = LocalVideoTrackStats(base: BaseStats, local: LocalCounters, dimensions: Dimensions, frameRate: int)

  /** One `StatsReport`: the stats of one peer connection. */
  datatype StatsReport = StatsReport(
    peerConnectionId: string,
    remoteAudio: seq<RemoteAudioTrackStats>,
    remoteVideo: seq<RemoteVideoTrackStats>,
    localAudio: seq<LocalAudioTrackStats>,
    localVideo: seq<LocalVideoTrackStats>)
}
