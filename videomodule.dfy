/**
 * `TwilioVideoModule`: the native module's fields, its commands, its
 * lifecycle hooks and the SDK listener callbacks, as one class.
 *
 * SDK objects are records; what the SDK reports (camera availability, the
 * room's participants, a track's creation) comes in as parameters; what the
 * module asks of the SDK is appended to `sdkCalls`; every `pushEvent` is an
 * append to `events`. Work posted to the main handler runs inside the
 * command that posts it; work posted to the data-track handler waits in
 * `dataTrackTasks` until the data-track thread runs it.
 */
module VideoModule {
  import opened Wrappers
  import opened Payload
  import opened Sdk
  import opened Events
  import opened Builders
  import opened Stats
  import opened DataTrack

  /** A local audio or video track and whether it is enabled. */
  datatype LocalTrack = LocalTrack(enabled: bool)

  /** A camera capturer and the camera it currently uses. */
  datatype CameraCapturer = CameraCapturer(source: CameraSource)

  datatype TrackKind = Audio | Video | Data

  /** The `ConnectOptions` that `connectToRoom` builds. */
  datatype ConnectOptions = ConnectOptions(
    accessToken: Option<string>,
    roomName: Option<string>,
    audioTrack: Option<LocalTrack>,
    videoTrack: Option<LocalTrack>,
    dataTrack: bool,
    automaticSubscription: bool)

  /** The `Room` that `Video.connect` returned for these options. */
  datatype RoomRef = RoomRef(options: ConnectOptions)

  /** A `java.util.Timer`: its serial number and, once a stats task is
      scheduled on it, the period. */
  datatype StatsTimer = StatsTimer(id: nat, period: Option<int>)

  /** Requests the module makes of the SDK. */
  datatype SdkCall =
    | ConnectRoom(options: ConnectOptions)
    | DisconnectRoom
    | SetAudioFocus(focus: bool)
    | ReleaseTrack(kind: TrackKind)
    | StopCapture
    | SwitchCamera
    | EnableTrack(kind: TrackKind, enabled: bool)
    | EnablePlayback(trackSid: string, enabled: bool)
    | PublishTrack(kind: TrackKind)
    | UnpublishTrack(kind: TrackKind)
    | SendMessage(message: string)
    | FetchStats

  /** What `requestStats` ends with: a scheduled task, or the
      IllegalArgumentException `Timer.scheduleAtFixedRate` throws for a
      period that is not positive. */
  datatype StatsOutcome = Scheduled | IllegalPeriod

  /** What the SDK and the device report while `connect` runs. */
  datatype ConnectEnvironment = ConnectEnvironment(
    audioTrackCreated: bool,
    frontCameraAvailable: bool,
    backCameraAvailable: bool,
    cameraHasFormats: bool,
    videoTrackCreated: bool)

  /** The one call `c` when `b` holds, nothing otherwise. */
  function When(b: bool, c: SdkCall): seq<SdkCall> {
    if b then [c] else []
  }

  /** `createLocalVideo`'s choice of camera: the front camera first, then the
      back camera, else none. */
  function ChooseCamera(front: bool, back: bool): (r: Option<CameraSource>)
    ensures r == Some(FrontCamera) <==> front
    ensures r == Some(BackCamera) <==> !front && back
    ensures r == None <==> !front && !back
  {
    if front then Some(FrontCamera) else if back then Some(BackCamera) else None
  }

  function CapturerFor(cam: Option<CameraSource>): Option<CameraCapturer> {
    match cam
    case Some(s) => Some(CameraCapturer(s))
    case None => None
  }

  /** `new ConnectOptions.Builder(token)`: only the token is set, and the
      SDK subscribes automatically unless told otherwise. */
  function NewBuilder(token: Option<string>): ConnectOptions {
    ConnectOptions(token, None, None, None, false, true)
  }

  /** The builder's setters, each replacing one option. */
  function SetRoomName(b: ConnectOptions, name: string): ConnectOptions {
    b.(roomName := Some(name))
  }

  function SetAudioTracks(b: ConnectOptions, t: LocalTrack): ConnectOptions {
    b.(audioTrack := Some(t))
  }

  function SetVideoTracks(b: ConnectOptions, t: LocalTrack): ConnectOptions {
    b.(videoTrack := Some(t))
  }

  function SetDataTracks(b: ConnectOptions): ConnectOptions {
    b.(dataTrack := true)
  }

  function EnableAutomaticSubscription(b: ConnectOptions, on: bool): ConnectOptions {
    b.(automaticSubscription := on)
  }

  /** `connectToRoom`'s option assembly: a builder for the token, then each
      setter guarded by its null check in Java order, then automatic
      subscription switched off. Its contract says what the built options
      carry: the token, the room name when there is one, each local track
      that exists, and automatic subscription off. */
  function AssembleConnectOptions(token: Option<string>, name: Option<string>, audio: Option<LocalTrack>,
                                  video: Option<LocalTrack>, data: bool): (o: ConnectOptions)
    ensures o.accessToken == token && o.roomName == name
    ensures o.audioTrack == audio && o.videoTrack == video && o.dataTrack == data
    ensures !o.automaticSubscription
  {
    var b0 := NewBuilder(token);
    var b1 := if name.Some? then SetRoomName(b0, name.value) else b0;
    var b2 := if audio.Some? then SetAudioTracks(b1, audio.value) else b1;
    var b3 := if video.Some? then SetVideoTracks(b2, video.value) else b2;
    var b4 := if data then SetDataTracks(b3) else b3;
    EnableAutomaticSubscription(b4, false)
  }

  /** The `onRoomParticipantDidConnect` events of `addParticipant`, one per
      remote participant, in room order. */
  function ParticipantConnectedEvents(room: RoomInfo, rs: seq<RemoteParticipant>): (evs: seq<Event>)
    ensures |evs| == |rs|
    ensures forall i :: 0 <= i < |rs| ==>
              evs[i] == Event(EventName.OnParticipantConnected, BuildParticipantConnectionEvent(room, rs[i].participant))
  {
    if rs == [] then []
    else
      var init := rs[..|rs| - 1];
      assert forall i :: 0 <= i < |init| ==> init[i] == rs[i];
      ParticipantConnectedEvents(room, init)
      + [Event(EventName.OnParticipantConnected, BuildParticipantConnectionEvent(room, rs[|rs| - 1].participant))]
  }

  /** The bindings `onConnected` submits through `addParticipant`, participant
      by participant. */
  function AllSubscribedBindings(rs: seq<RemoteParticipant>): seq<DataTask> {
    if rs == [] then []
    else AllSubscribedBindings(rs[..|rs| - 1])
         + SubscribedBindings(rs[|rs| - 1].participant, rs[|rs| - 1].dataTracks)
  }

  lemma PerParticipantSnoc(room: RoomInfo, rs: seq<RemoteParticipant>, p: RemoteParticipant)
    ensures ParticipantConnectedEvents(room, rs + [p])
            == ParticipantConnectedEvents(room, rs) + [Event(EventName.OnParticipantConnected, BuildParticipantConnectionEvent(room, p.participant))]
    ensures AllSubscribedBindings(rs + [p]) == AllSubscribedBindings(rs) + SubscribedBindings(p.participant, p.dataTracks)
  {
    assert (rs + [p])[..|rs|] == rs;
  }

  lemma AppendAssoc<T>(a: seq<T>, b: seq<T>, c: seq<T>)
    ensures a + b + c == a + (b + c)
  {
  }

  class TwilioVideoModule {
    var room: Option<RoomRef>
    var roomName: Option<string>
    var accessToken: Option<string>
    var enableRemoteAudio: bool
    var localParticipant: Option<Participant>
    var localAudioTrack: Option<LocalTrack>
    var localVideoTrack: Option<LocalTrack>
    var cameraCapturer: Option<CameraCapturer>
    var localDataTrack: bool
    var disconnectedFromOnDestroy: bool

    /** `dataTrackMessageThread != null`, and the work posted to its handler
        that has not run yet. */
    var dataTrackMessageThread: bool
    var dataTrackTasks: seq<DataTask>
    var remoteDataTrackMap: BindingTable
    /** The remote data tracks whose listener was set on the data-track
        thread now running; a listener set on a thread that has since quit
        delivers nowhere. */
    var dataTrackListeners: set<string>

    /** `requestStatsTimer`, the serial numbers of the timers that were not
        cancelled, and how many timers were created. */
    var requestStatsTimer: Option<StatsTimer>
    var liveTimers: set<nat>
    var timersCreated: nat

    var events: seq<Event>
    var sdkCalls: seq<SdkCall>

    /** The module's invariant: bindings are keyed by their own track SID,
        pending data-track work and data-track listeners imply a running
        thread, a local video track implies a capturer, the held timer is
        one the module created, and the only timer not cancelled is the one
        the field holds, so at most one timer is ever live. */
    ghost predicate Valid()
      reads this`remoteDataTrackMap, this`dataTrackTasks, this`dataTrackMessageThread, this`dataTrackListeners,
            this`localVideoTrack,
            this`cameraCapturer, this`requestStatsTimer, this`timersCreated, this`liveTimers
      ensures Valid() ==> |liveTimers| <= 1
    {
      && KeyedBySid(remoteDataTrackMap)
      && (dataTrackTasks != [] ==> dataTrackMessageThread)
      && (dataTrackListeners != {} ==> dataTrackMessageThread)
      && (localVideoTrack.Some? ==> cameraCapturer.Some?)
      && (requestStatsTimer.Some? ==> requestStatsTimer.value.id < timersCreated)
      && liveTimers == (if requestStatsTimer.Some? then {requestStatsTimer.value.id} else {})
    }

    /** The module's constructor: the local data track is created (or not, as
        the SDK reports), one `Timer` exists with nothing scheduled. */
    constructor (dataTrackCreated: bool)
      ensures Valid()
      ensures room == None && roomName == None && accessToken == None && !enableRemoteAudio
      ensures localParticipant == None && localAudioTrack == None && localVideoTrack == None
      ensures cameraCapturer == None && localDataTrack == dataTrackCreated && !disconnectedFromOnDestroy
      ensures !dataTrackMessageThread && dataTrackTasks == [] && remoteDataTrackMap == map[] && dataTrackListeners == {}
      ensures requestStatsTimer == Some(StatsTimer(0, None)) && liveTimers == {0} && timersCreated == 1
      ensures !CanTick()
      ensures events == [] && sdkCalls == []
    {
      room, roomName, accessToken, enableRemoteAudio := None, None, None, false;
      localParticipant, localAudioTrack, localVideoTrack := None, None, None;
      cameraCapturer, localDataTrack, disconnectedFromOnDestroy := None, dataTrackCreated, false;
      dataTrackMessageThread, dataTrackTasks, remoteDataTrackMap, dataTrackListeners := false, [], map[], {};
      requestStatsTimer, liveTimers, timersCreated := Some(StatsTimer(0, None)), {0}, 1;
      events, sdkCalls := [], [];
    }

    /** `pushEvent`: append to the event log. */
    method PushEvent(name: EventName, payload: Fields)
      modifies this`events
      ensures events == old(events) + [Event(name, payload)]
    {
      events := events + [Event(name, payload)];
    }

    // ===== data-track thread =====

    method QuitDataTrackThread()
      requires Valid()
      modifies this`dataTrackMessageThread, this`dataTrackTasks, this`dataTrackListeners
      ensures Valid()
      ensures !dataTrackMessageThread && dataTrackTasks == [] && dataTrackListeners == {}
    {
      if dataTrackMessageThread {
        dataTrackMessageThread := false;
        dataTrackTasks := [];
        dataTrackListeners := {};
      }
    }

    /** A fresh data-track thread: no work pending and no listener set on it
        yet. */
    method CreateDataTrackThread()
      requires Valid()
      modifies this`dataTrackMessageThread, this`dataTrackTasks, this`dataTrackListeners
      ensures Valid()
      ensures dataTrackMessageThread && dataTrackTasks == [] && dataTrackListeners == {}
    {
      QuitDataTrackThread();
      dataTrackMessageThread := true;
    }

    /** `dataTrackMessageThreadHandler.post`: queued while the thread runs,
        dropped once it has quit. */
    method PostDataTask(t: DataTask)
      requires Valid()
      modifies this`dataTrackTasks
      ensures Valid()
      ensures dataTrackTasks == if dataTrackMessageThread then old(dataTrackTasks) + [t] else old(dataTrackTasks)
    {
      if dataTrackMessageThread {
        dataTrackTasks := dataTrackTasks + [t];
      }
    }

    /** `addRemoteDataTrack`, on the data-track thread: bind the track, then
        set its listener from this thread. */
    method AddRemoteDataTrack(p: Participant, sid: string)
      requires Valid() && dataTrackMessageThread
      modifies this`remoteDataTrackMap, this`dataTrackListeners
      ensures Valid()
      ensures remoteDataTrackMap == AddBinding(old(remoteDataTrackMap), p, sid)
      ensures dataTrackListeners == old(dataTrackListeners) + {sid}
    {
      remoteDataTrackMap := remoteDataTrackMap[sid := Binding(sid, p)];
      dataTrackListeners := dataTrackListeners + {sid};
    }

    method RemoveRemoteDataTrack(p: Participant, sid: string)
      requires Valid()
      modifies this`remoteDataTrackMap
      ensures Valid()
      ensures remoteDataTrackMap == RemoveBinding(old(remoteDataTrackMap), sid)
    {
      remoteDataTrackMap := remoteDataTrackMap - {sid};
    }

    /** The data-track listener's `onMessage(track, String)`. */
    method OnDataMessage(sid: string, message: string)
      modifies this`events
      ensures events == old(events) + [Event(OnDataTrackMessageReceived, BuildDataTrackEvent(remoteDataTrackMap, sid, message))]
    {
      PushEvent(OnDataTrackMessageReceived, BuildDataTrackEvent(remoteDataTrackMap, sid, message));
    }

    /** A string message arriving on a remote data track: the SDK delivers it
        on the thread that set the track's listener, so it reaches the running
        data-track thread only for a track whose listener was set there. */
    method DataMessageArrived(sid: string, message: string)
      requires Valid()
      modifies this`dataTrackTasks
      ensures Valid()
      ensures dataTrackTasks == old(dataTrackTasks) + if sid in dataTrackListeners then [DataTask.MessageReceived(sid, message)] else []
    {
      if sid in dataTrackListeners {
        PostDataTask(DataTask.MessageReceived(sid, message));
      }
    }

    /** The data-track thread runs its oldest pending task, if any. */
    method RunNextDataTask() returns (ran: bool)
      requires Valid()
      modifies this`dataTrackTasks, this`remoteDataTrackMap, this`dataTrackListeners, this`events
      ensures Valid()
      ensures ran == (old(dataTrackTasks) != [])
      ensures ran ==> dataTrackTasks == old(dataTrackTasks)[1..]
                      && DataState(remoteDataTrackMap, dataTrackListeners, events)
                         == Step(DataState(old(remoteDataTrackMap), old(dataTrackListeners), old(events)), old(dataTrackTasks)[0])
      ensures !ran ==> remoteDataTrackMap == old(remoteDataTrackMap) && dataTrackListeners == old(dataTrackListeners)
                       && events == old(events)
    {
      ran := dataTrackTasks != [];
      if ran {
        var t := dataTrackTasks[0];
        dataTrackTasks := dataTrackTasks[1..];
        RunDataTask(t);
      }
    }

    /** One task on the data-track thread. */
    method RunDataTask(t: DataTask)
      requires Valid() && dataTrackMessageThread
      modifies this`remoteDataTrackMap, this`dataTrackListeners, this`events
      ensures Valid()
      ensures DataState(remoteDataTrackMap, dataTrackListeners, events)
           == Step(DataState(old(remoteDataTrackMap), old(dataTrackListeners), old(events)), t)
    {
      match t
      case AddRemoteDataTrack(p, sid) => AddRemoteDataTrack(p, sid);
      case RemoveRemoteDataTrack(p, sid) => RemoveRemoteDataTrack(p, sid);
      case MessageReceived(sid, msg) => OnDataMessage(sid, msg);
    }

    /** The data-track thread runs everything pending, in submission order. */
    method DrainDataTasks()
      requires Valid()
      modifies this`dataTrackTasks, this`remoteDataTrackMap, this`dataTrackListeners, this`events
      ensures Valid()
      ensures dataTrackTasks == []
      ensures DataState(remoteDataTrackMap, dataTrackListeners, events)
           == Run(DataState(old(remoteDataTrackMap), old(dataTrackListeners), old(events)), old(dataTrackTasks))
    {
      ghost var start := DataState(remoteDataTrackMap, dataTrackListeners, events);
      ghost var all := dataTrackTasks;
      ghost var done := 0;
      while dataTrackTasks != []
        invariant Valid()
        invariant 0 <= done <= |all|
        invariant dataTrackTasks == all[done..]
        invariant DataState(remoteDataTrackMap, dataTrackListeners, events) == Run(start, all[..done])
        decreases |dataTrackTasks|
      {
        var ran := RunNextDataTask();
        RunSnoc(start, all[..done], all[done]);
        assert all[..done + 1] == all[..done] + [all[done]];
        done := done + 1;
      }
      assert all[..done] == all;
    }

    // ===== connecting =====

    /** `createLocalVideo`: open the front camera, else the back camera; with
        neither, report the failure and give up. */
    method CreateLocalVideo(enableVideo: bool, env: ConnectEnvironment) returns (ok: bool)
      requires Valid() && cameraCapturer.None?
      modifies this`cameraCapturer, this`localVideoTrack, this`events
      ensures Valid()
      ensures cameraCapturer == CapturerFor(ChooseCamera(env.frontCameraAvailable, env.backCameraAvailable))
      ensures ok == cameraCapturer.Some?
      ensures !ok ==> events == old(events) + [Event(EventName.OnConnectFailure, NoCameraEvent())] && localVideoTrack == None
      ensures ok ==> events == old(events)
      ensures ok ==> localVideoTrack == if env.cameraHasFormats && env.videoTrackCreated then Some(LocalTrack(enableVideo)) else None
    {
      cameraCapturer := if env.frontCameraAvailable then Some(CameraCapturer(FrontCamera)) else None;
      if cameraCapturer == None {
        cameraCapturer := if env.backCameraAvailable then Some(CameraCapturer(BackCamera)) else None;
      }
      if cameraCapturer == None {
        PushEvent(EventName.OnConnectFailure, NoCameraEvent());
        return false;
      }
      if env.cameraHasFormats {
        localVideoTrack := if env.videoTrackCreated then Some(LocalTrack(enableVideo)) else None;
      }
      return true;
    }

    /** `connectToRoom`: take audio focus as requested, assemble the options
        and connect; the returned room becomes `room`. */
    method ConnectToRoom(enableAudio: bool)
      requires Valid()
      modifies this`room, this`sdkCalls
      ensures Valid()
      ensures var opts := AssembleConnectOptions(accessToken, roomName, localAudioTrack, localVideoTrack, localDataTrack);
              room == Some(RoomRef(opts)) && sdkCalls == old(sdkCalls) + [SetAudioFocus(enableAudio), ConnectRoom(opts)]
    {
      sdkCalls := sdkCalls + [SetAudioFocus(enableAudio)];
      var opts := AssembleConnectOptions(accessToken, roomName, localAudioTrack, localVideoTrack, localDataTrack);
      sdkCalls := sdkCalls + [ConnectRoom(opts)];
      room := Some(RoomRef(opts));
    }

    /** `connect`: record the name, token and remote-audio choice, then run
        the posted connection work. */
    method Connect(name: Option<string>, token: string, enableAudio: bool, enableVideo: bool, env: ConnectEnvironment)
      requires Valid()
      modifies this`roomName, this`accessToken, this`enableRemoteAudio, this`dataTrackMessageThread,
               this`dataTrackTasks, this`dataTrackListeners, this`localAudioTrack, this`cameraCapturer, this`localVideoTrack,
               this`events, this`room, this`sdkCalls
      ensures Valid()
      ensures roomName == name && accessToken == Some(token) && enableRemoteAudio == enableAudio
      ensures ConnectionWorkDone(old(cameraCapturer), old(localVideoTrack), old(events), old(room), old(sdkCalls),
                                 enableAudio, enableVideo, env)
    {
      roomName := name;
      accessToken := Some(token);
      enableRemoteAudio := enableAudio;
      RunConnectionWork(enableAudio, enableVideo, env);
    }

    /** The state the connection work leaves behind, from the state it
        started in: a fresh data-track thread, the microphone track, and the
        camera-and-connect outcome. */
    ghost predicate ConnectionWorkDone(capturer0: Option<CameraCapturer>, video0: Option<LocalTrack>, events0: seq<Event>,
                                       room0: Option<RoomRef>, calls0: seq<SdkCall>,
                                       enableAudio: bool, enableVideo: bool, env: ConnectEnvironment)
      reads this
    {
      && dataTrackMessageThread && dataTrackTasks == [] && dataTrackListeners == {}
      && localAudioTrack == (if env.audioTrackCreated then Some(LocalTrack(enableAudio)) else None)
      && CameraAndConnectDone(capturer0, video0, events0, room0, calls0, enableAudio, enableVideo, env)
    }

    /** A camera opened when video is wanted and no capturer exists (front
        first, then back), and then either the no-camera failure event and no
        connection attempt, or no event and exactly one connection attempt. */
    ghost predicate CameraAndConnectDone(capturer0: Option<CameraCapturer>, video0: Option<LocalTrack>, events0: seq<Event>,
                                         room0: Option<RoomRef>, calls0: seq<SdkCall>,
                                         enableAudio: bool, enableVideo: bool, env: ConnectEnvironment)
      reads this
    {
      var needCamera := enableVideo && capturer0.None?;
      var cam := ChooseCamera(env.frontCameraAvailable, env.backCameraAvailable);
      && (needCamera ==> cameraCapturer == CapturerFor(cam))
      && (needCamera && cam.Some? ==>
            localVideoTrack == if env.cameraHasFormats && env.videoTrackCreated then Some(LocalTrack(true)) else None)
      && (!needCamera ==> cameraCapturer == capturer0 && localVideoTrack == video0)
      && (needCamera && cam.None? ==>
            events == events0 + [Event(EventName.OnConnectFailure, NoCameraEvent())] && sdkCalls == calls0 && room == room0)
      && (!(needCamera && cam.None?) ==>
            var opts := AssembleConnectOptions(accessToken, roomName, localAudioTrack, localVideoTrack, localDataTrack);
            events == events0 && room == Some(RoomRef(opts))
            && sdkCalls == calls0 + [SetAudioFocus(enableAudio), ConnectRoom(opts)])
    }

    /** The runnable `connect` posts to the main handler. */
    method RunConnectionWork(enableAudio: bool, enableVideo: bool, env: ConnectEnvironment)
      requires Valid()
      modifies this`dataTrackMessageThread, this`dataTrackTasks, this`dataTrackListeners, this`localAudioTrack, this`cameraCapturer,
               this`localVideoTrack, this`events, this`room, this`sdkCalls
      ensures Valid()
      ensures ConnectionWorkDone(old(cameraCapturer), old(localVideoTrack), old(events), old(room), old(sdkCalls),
                                 enableAudio, enableVideo, env)
    {
      CreateDataTrackThread();
      localAudioTrack := if env.audioTrackCreated then Some(LocalTrack(enableAudio)) else None;
      OpenCameraAndConnect(enableAudio, enableVideo, env);
    }

    /** The rest of the runnable: open a camera when video is wanted and no
        capturer exists, then connect unless no camera could be opened. */
    method OpenCameraAndConnect(enableAudio: bool, enableVideo: bool, env: ConnectEnvironment)
      requires Valid()
      modifies this`cameraCapturer, this`localVideoTrack, this`events, this`room, this`sdkCalls
      ensures Valid()
      ensures CameraAndConnectDone(old(cameraCapturer), old(localVideoTrack), old(events), old(room), old(sdkCalls),
                                   enableAudio, enableVideo, env)
    {
      if enableVideo && cameraCapturer == None {
        var ok := CreateLocalVideo(enableVideo, env);
        if !ok {
          return;
        }
      }
      ConnectToRoom(enableAudio);
    }

    // ===== disconnecting =====

    /** `disconnect`: stop the data-track thread and the stats timer, ask the
        room to disconnect, release the local tracks, drop audio focus and
        stop the camera. It emits nothing; `room` is cleared only by the
        `onDisconnected` callback. */
    method Disconnect()
      requires Valid()
      modifies this`dataTrackMessageThread, this`dataTrackTasks, this`dataTrackListeners, this`requestStatsTimer, this`liveTimers,
               this`localAudioTrack, this`localVideoTrack, this`cameraCapturer, this`sdkCalls
      ensures Valid()
      ensures !dataTrackMessageThread && dataTrackTasks == [] && dataTrackListeners == {}
      ensures requestStatsTimer == None && liveTimers == {} && !CanTick()
      ensures localAudioTrack == None && localVideoTrack == None && cameraCapturer == None
      ensures sdkCalls == old(sdkCalls)
                          + When(room.Some?, DisconnectRoom)
                          + When(old(localAudioTrack).Some?, ReleaseTrack(Audio))
                          + When(old(localVideoTrack).Some?, ReleaseTrack(Video))
                          + [SetAudioFocus(false)]
                          + When(old(cameraCapturer).Some?, StopCapture)
    {
      QuitDataTrackThread();
      CancelStatsRequest();
      ReleaseRoomAndMedia();
    }

    /** The rest of `disconnect`'s runnable: ask the room to disconnect,
        release the local tracks, drop audio focus, stop the camera. */
    method ReleaseRoomAndMedia()
      requires Valid()
      modifies this`localAudioTrack, this`localVideoTrack, this`cameraCapturer, this`sdkCalls
      ensures Valid()
      ensures localAudioTrack == None && localVideoTrack == None && cameraCapturer == None
      ensures sdkCalls == old(sdkCalls)
                          + When(room.Some?, DisconnectRoom)
                          + When(old(localAudioTrack).Some?, ReleaseTrack(Audio))
                          + When(old(localVideoTrack).Some?, ReleaseTrack(Video))
                          + [SetAudioFocus(false)]
                          + When(old(cameraCapturer).Some?, StopCapture)
    {
      sdkCalls := sdkCalls + When(room.Some?, DisconnectRoom);
      ReleaseLocalAudioTrack();
      ReleaseLocalVideoTrack();
      sdkCalls := sdkCalls + [SetAudioFocus(false)];
      StopCameraCapture();
    }

    /** Release the local audio track, if any, and forget it. */
    method ReleaseLocalAudioTrack()
      requires Valid()
      modifies this`localAudioTrack, this`sdkCalls
      ensures Valid()
      ensures localAudioTrack == None
      ensures sdkCalls == old(sdkCalls) + When(old(localAudioTrack).Some?, ReleaseTrack(Audio))
    {
      if localAudioTrack.Some? {
        sdkCalls := sdkCalls + [ReleaseTrack(Audio)];
        localAudioTrack := None;
      }
    }

    /** Release the local video track, if any, and forget it. */
    method ReleaseLocalVideoTrack()
      requires Valid()
      modifies this`localVideoTrack, this`sdkCalls
      ensures Valid()
      ensures localVideoTrack == None
      ensures sdkCalls == old(sdkCalls) + When(old(localVideoTrack).Some?, ReleaseTrack(Video))
    {
      if localVideoTrack.Some? {
        sdkCalls := sdkCalls + [ReleaseTrack(Video)];
        localVideoTrack := None;
      }
    }

    /** Stop the camera capturer, if any, and forget it; the video track
        that used it must already be released. */
    method StopCameraCapture()
      requires Valid() && localVideoTrack.None?
      modifies this`cameraCapturer, this`sdkCalls
      ensures Valid()
      ensures cameraCapturer == None
      ensures sdkCalls == old(sdkCalls) + When(old(cameraCapturer).Some?, StopCapture)
    {
      if cameraCapturer.Some? {
        sdkCalls := sdkCalls + [StopCapture];
        cameraCapturer := None;
      }
    }

    // ===== commands =====

    /** `sendString`: sent on the local data track when there is one,
        silently dropped otherwise. */
    method SendString(message: string)
      modifies this`sdkCalls
      ensures sdkCalls == old(sdkCalls) + if localDataTrack then [SendMessage(message)] else []
    {
      if localDataTrack {
        sdkCalls := sdkCalls + [SendMessage(message)];
      }
    }

    /** `flipCamera`: with a capturer, switch it and report which camera it
        now uses (`reported`, as the capturer answers); without, nothing. */
    method FlipCamera(reported: CameraSource)
      requires Valid()
      modifies this`cameraCapturer, this`sdkCalls, this`events
      ensures Valid()
      ensures old(cameraCapturer).Some? ==>
                cameraCapturer == Some(CameraCapturer(reported))
                && sdkCalls == old(sdkCalls) + [SwitchCamera]
                && events == old(events) + [Event(OnCameraSwitched, CameraSwitchedEvent(reported == BackCamera))]
      ensures old(cameraCapturer).None? ==>
                cameraCapturer == None && sdkCalls == old(sdkCalls) && events == old(events)
    {
      if cameraCapturer.Some? {
        sdkCalls := sdkCalls + [SwitchCamera];
        cameraCapturer := Some(CameraCapturer(reported));
        PushEvent(OnCameraSwitched, CameraSwitchedEvent(reported == BackCamera));
      }
    }

    /** `setLocalVideoEnabled`: only when a local video track exists. */
    method SetLocalVideoEnabled(enabled: bool)
      requires Valid()
      modifies this`localVideoTrack, this`sdkCalls, this`events
      ensures Valid()
      ensures old(localVideoTrack).Some? ==>
                localVideoTrack == Some(LocalTrack(enabled))
                && sdkCalls == old(sdkCalls) + [EnableTrack(Video, enabled)]
                && events == old(events) + [Event(OnVideoChanged, VideoChangedEvent(enabled))]
      ensures old(localVideoTrack).None? ==>
                localVideoTrack == None && sdkCalls == old(sdkCalls) && events == old(events)
    {
      if localVideoTrack.Some? {
        localVideoTrack := Some(LocalTrack(enabled));
        sdkCalls := sdkCalls + [EnableTrack(Video, enabled)];
        PushEvent(OnVideoChanged, VideoChangedEvent(enabled));
      }
    }

    /** `setLocalAudioEnabled`: only when a local audio track exists. */
    method SetLocalAudioEnabled(enabled: bool)
      requires Valid()
      modifies this`localAudioTrack, this`sdkCalls, this`events
      ensures Valid()
      ensures old(localAudioTrack).Some? ==>
                localAudioTrack == Some(LocalTrack(enabled))
                && sdkCalls == old(sdkCalls) + [EnableTrack(Audio, enabled)]
                && events == old(events) + [Event(OnAudioChanged, AudioChangedEvent(enabled))]
      ensures old(localAudioTrack).None? ==>
                localAudioTrack == None && sdkCalls == old(sdkCalls) && events == old(events)
    {
      if localAudioTrack.Some? {
        localAudioTrack := Some(LocalTrack(enabled));
        sdkCalls := sdkCalls + [EnableTrack(Audio, enabled)];
        PushEvent(OnAudioChanged, AudioChangedEvent(enabled));
      }
    }

    // ===== stats =====

    /** `getStats`: a one-shot request, only with a room. */
    method GetStats()
      modifies this`sdkCalls
      ensures sdkCalls == old(sdkCalls) + if room.Some? then [FetchStats] else []
    {
      if room.Some? {
        sdkCalls := sdkCalls + [FetchStats];
      }
    }

    /** `requestStats`: cancel the current timer, create a new one and
        schedule the stats task on it with no initial delay. A period that is
        not positive makes the scheduling throw after the new timer is in
        place. */
    method RequestStats(intervalMs: int) returns (outcome: StatsOutcome)
      requires Valid()
      modifies this`requestStatsTimer, this`liveTimers, this`timersCreated
      ensures Valid()
      ensures timersCreated == old(timersCreated) + 1 && liveTimers == {old(timersCreated)}
      ensures requestStatsTimer == Some(StatsTimer(old(timersCreated), if intervalMs > 0 then Some(intervalMs) else None))
      ensures outcome == if intervalMs > 0 then Scheduled else IllegalPeriod
      ensures CanTick() <==> intervalMs > 0
    {
      if requestStatsTimer.Some? {
        liveTimers := liveTimers - {requestStatsTimer.value.id};
      }
      var id := timersCreated;
      timersCreated := timersCreated + 1;
      requestStatsTimer := Some(StatsTimer(id, None));
      liveTimers := liveTimers + {id};
      if intervalMs <= 0 {
        return IllegalPeriod;
      }
      requestStatsTimer := Some(StatsTimer(id, Some(intervalMs)));
      return Scheduled;
    }

    /** `cancelStatsRequest`: afterwards no timer is live, however often it
        is called. */
    method CancelStatsRequest()
      requires Valid()
      modifies this`requestStatsTimer, this`liveTimers
      ensures Valid()
      ensures requestStatsTimer == None && liveTimers == {} && !CanTick()
    {
      if requestStatsTimer.Some? {
        liveTimers := liveTimers - {requestStatsTimer.value.id};
        requestStatsTimer := None;
      }
    }

    /** A tick can happen only while the live timer has the stats task
        scheduled on it. */
    ghost predicate CanTick()
      reads this`requestStatsTimer
    {
      requestStatsTimer.Some? && requestStatsTimer.value.period.Some?
    }

    /** One tick of `RequestStatsTask`, run by the scheduled timer: request
        stats only with a room. */
    method RunRequestStatsTask()
      requires Valid() && CanTick()
      modifies this`sdkCalls
      ensures sdkCalls == old(sdkCalls) + if room.Some? then [FetchStats] else []
    {
      if room.Some? {
        sdkCalls := sdkCalls + [FetchStats];
      }
    }

    /** `onStats`: one `onStatsReceived` event carrying every report. */
    method OnStats(reports: seq<StatsReport>)
      modifies this`events
      ensures events == old(events) + [Event(OnStatsReceived, StatsPayload(reports))]
    {
      var payload := BuildStatsPayload(reports);
      PushEvent(OnStatsReceived, payload);
    }

    // ===== host lifecycle =====

    /** `onHostResume`: with an activity, recreate the video track released
        on pause (enabled), and publish it when connected. */
    method OnHostResume(activityPresent: bool, videoTrackCreated: bool)
      requires Valid()
      modifies this`localVideoTrack, this`sdkCalls
      ensures Valid()
      ensures !activityPresent ==> localVideoTrack == old(localVideoTrack) && sdkCalls == old(sdkCalls)
      ensures activityPresent ==>
                localVideoTrack == (if cameraCapturer.Some? && old(localVideoTrack).None?
                                    then (if videoTrackCreated then Some(LocalTrack(true)) else None)
                                    else old(localVideoTrack))
                && sdkCalls == old(sdkCalls) + if localVideoTrack.Some? && localParticipant.Some? then [PublishTrack(Video)] else []
    {
      if activityPresent {
        if cameraCapturer.Some? && localVideoTrack.None? {
          localVideoTrack := if videoTrackCreated then Some(LocalTrack(true)) else None;
        }
        if localVideoTrack.Some? {
          if localParticipant.Some? {
            sdkCalls := sdkCalls + [PublishTrack(Video)];
          }
        }
      }
    }

    /** `onHostPause`: release the local video track, unpublishing it first
        when connected. */
    method OnHostPause()
      requires Valid()
      modifies this`localVideoTrack, this`sdkCalls
      ensures Valid()
      ensures localVideoTrack == None
      ensures sdkCalls == old(sdkCalls)
                          + (if old(localVideoTrack).Some? && localParticipant.Some? then [UnpublishTrack(Video)] else [])
                          + When(old(localVideoTrack).Some?, ReleaseTrack(Video))
    {
      if localVideoTrack.Some? {
        if localParticipant.Some? {
          sdkCalls := sdkCalls + [UnpublishTrack(Video)];
        }
        sdkCalls := sdkCalls + [ReleaseTrack(Video)];
        localVideoTrack := None;
      }
    }

    /** `onHostDestroy`: cancel the stats timer, disconnect a room that is
        not already disconnected (`roomDisconnected` is what the room's state
        says) and remember that, release the local tracks, stop the
        data-track thread. */
    method OnHostDestroy(roomDisconnected: bool)
      requires Valid()
      modifies this`requestStatsTimer, this`liveTimers, this`disconnectedFromOnDestroy, this`localVideoTrack,
               this`localAudioTrack, this`dataTrackMessageThread, this`dataTrackTasks, this`dataTrackListeners, this`sdkCalls
      ensures Valid()
      ensures requestStatsTimer == None && liveTimers == {} && !CanTick()
      ensures localVideoTrack == None && localAudioTrack == None
      ensures !dataTrackMessageThread && dataTrackTasks == [] && dataTrackListeners == {}
      ensures var disconnects := room.Some? && !roomDisconnected;
              && disconnectedFromOnDestroy == (old(disconnectedFromOnDestroy) || disconnects)
              && sdkCalls == old(sdkCalls)
                             + When(disconnects, DisconnectRoom)
                             + When(old(localVideoTrack).Some?, ReleaseTrack(Video))
                             + When(old(localAudioTrack).Some?, ReleaseTrack(Audio))
    {
      CancelStatsRequest();
      DestroyRoomAndTracks(roomDisconnected);
      QuitDataTrackThread();
    }

    /** The middle of `onHostDestroy`: disconnect a room that is not already
        disconnected and remember that, then release the local tracks. */
    method DestroyRoomAndTracks(roomDisconnected: bool)
      requires Valid()
      modifies this`disconnectedFromOnDestroy, this`localVideoTrack, this`localAudioTrack, this`sdkCalls
      ensures Valid()
      ensures localVideoTrack == None && localAudioTrack == None
      ensures var disconnects := room.Some? && !roomDisconnected;
              && disconnectedFromOnDestroy == (old(disconnectedFromOnDestroy) || disconnects)
              && sdkCalls == old(sdkCalls)
                             + When(disconnects, DisconnectRoom)
                             + When(old(localVideoTrack).Some?, ReleaseTrack(Video))
                             + When(old(localAudioTrack).Some?, ReleaseTrack(Audio))
    {
      if room.Some? && !roomDisconnected {
        disconnectedFromOnDestroy := true;
      }
      sdkCalls := sdkCalls + When(room.Some? && !roomDisconnected, DisconnectRoom);
      ReleaseLocalVideoTrack();
      ReleaseLocalAudioTrack();
    }

    // ===== room listener =====

    /** `onConnected`: keep the local participant, emit `onRoomDidConnect`
        with the remote participants in room order and the local one last,
        publish the local data track, then announce each remote participant
        already in the room. */
    method OnConnected(r: RoomInfo, remotes: seq<RemoteParticipant>, local: Participant)
      requires Valid()
      modifies this`localParticipant, this`events, this`sdkCalls, this`dataTrackTasks
      ensures Valid()
      ensures localParticipant == Some(local)
      ensures events == old(events)
                        + [Event(EventName.OnConnected, BuildConnectedEvent(r, ParticipantsArray(remotes, local)))]
                        + ParticipantConnectedEvents(r, remotes)
      ensures sdkCalls == old(sdkCalls) + [PublishTrack(Data)]
      ensures dataTrackTasks == old(dataTrackTasks) + if dataTrackMessageThread then AllSubscribedBindings(remotes) else []
    {
      localParticipant := Some(local);
      var participants := BuildParticipantsArray(remotes, local);
      PushEvent(EventName.OnConnected, BuildConnectedEvent(r, participants));
      sdkCalls := sdkCalls + [PublishTrack(Data)];
      AddParticipants(r, remotes);
    }

    /** `onConnected`'s loop over the participants already in the room. */
    method AddParticipants(r: RoomInfo, remotes: seq<RemoteParticipant>)
      requires Valid()
      modifies this`events, this`dataTrackTasks
      ensures Valid()
      ensures events == old(events) + ParticipantConnectedEvents(r, remotes)
      ensures dataTrackTasks == old(dataTrackTasks) + if dataTrackMessageThread then AllSubscribedBindings(remotes) else []
    {
      ghost var events0, tasks0 := events, dataTrackTasks;
      for i := 0 to |remotes|
        invariant Valid()
        invariant events == events0 + ParticipantConnectedEvents(r, remotes[..i])
        invariant dataTrackTasks == tasks0 + if dataTrackMessageThread then AllSubscribedBindings(remotes[..i]) else []
      {
        AddNextParticipant(r, remotes, i, events0, tasks0);
      }
      assert remotes[..|remotes|] == remotes;
    }

    /** One iteration of `onConnected`'s loop: the i-th participant's events
        and bindings extend those of the participants before it. */
    method AddNextParticipant(r: RoomInfo, remotes: seq<RemoteParticipant>, i: nat,
                              ghost events0: seq<Event>, ghost tasks0: seq<DataTask>)
      requires Valid() && i < |remotes|
      requires events == events0 + ParticipantConnectedEvents(r, remotes[..i])
      requires dataTrackTasks == tasks0 + if dataTrackMessageThread then AllSubscribedBindings(remotes[..i]) else []
      modifies this`events, this`dataTrackTasks
      ensures Valid()
      ensures events == events0 + ParticipantConnectedEvents(r, remotes[..i + 1])
      ensures dataTrackTasks == tasks0 + if dataTrackMessageThread then AllSubscribedBindings(remotes[..i + 1]) else []
    {
      ghost var prefix := remotes[..i];
      assert remotes[..i + 1] == prefix + [remotes[i]];
      PerParticipantSnoc(r, prefix, remotes[i]);
      ghost var evs, tasks := events, dataTrackTasks;
      AddParticipant(r, remotes[i]);
      AppendAssoc(events0, ParticipantConnectedEvents(r, prefix), events[|evs|..]);
      if dataTrackMessageThread {
        AppendAssoc(tasks0, AllSubscribedBindings(prefix), dataTrackTasks[|tasks|..]);
      }
    }

    /** `onConnectFailure`: emit the room fields and the error map. */
    method OnConnectFailure(r: RoomInfo, e: TwilioError)
      modifies this`events
      ensures events == old(events) + [Event(EventName.OnConnectFailure, BuildConnectFailureEvent(r, e))]
    {
      PushEvent(EventName.OnConnectFailure, BuildConnectFailureEvent(r, e));
    }

    /** `onDisconnected`: emit one `onRoomDidDisconnect`, forget the local
        participant, name, token and room, and drop audio focus unless the
        disconnect came from `onHostDestroy`. */
    method OnDisconnected(r: RoomInfo, e: Option<TwilioError>)
      requires Valid()
      modifies this`events, this`localParticipant, this`roomName, this`accessToken, this`room, this`sdkCalls
      ensures Valid()
      ensures events == old(events) + [Event(EventName.OnDisconnected, BuildDisconnectedEvent(old(localParticipant), r, e))]
      ensures localParticipant == None && roomName == None && accessToken == None && room == None
      ensures sdkCalls == old(sdkCalls) + When(!disconnectedFromOnDestroy, SetAudioFocus(false))
    {
      PushEvent(EventName.OnDisconnected, BuildDisconnectedEvent(localParticipant, r, e));
      ForgetRoom();
      sdkCalls := sdkCalls + When(!disconnectedFromOnDestroy, SetAudioFocus(false));
    }

    /** The room, its name, the token and the local participant are cleared. */
    method ForgetRoom()
      modifies this`localParticipant, this`roomName, this`accessToken, this`room
      ensures localParticipant == None && roomName == None && accessToken == None && room == None
    {
      localParticipant, roomName, accessToken, room := None, None, None, None;
    }

    method OnParticipantConnected(r: RoomInfo, p: RemoteParticipant)
      requires Valid()
      modifies this`events, this`dataTrackTasks
      ensures Valid()
      ensures events == old(events) + [Event(EventName.OnParticipantConnected, BuildParticipantConnectionEvent(r, p.participant))]
      ensures dataTrackTasks == old(dataTrackTasks) + if dataTrackMessageThread then SubscribedBindings(p.participant, p.dataTracks) else []
    {
      AddParticipant(r, p);
    }

    method OnParticipantDisconnected(r: RoomInfo, p: Participant)
      modifies this`events
      ensures events == old(events) + [Event(EventName.OnParticipantDisconnected, BuildParticipantConnectionEvent(r, p))]
    {
      RemoveParticipant(r, p);
    }

    /** `addParticipant`: announce the participant, then submit a binding for
        each of its data tracks that is already subscribed. */
    method AddParticipant(r: RoomInfo, p: RemoteParticipant)
      requires Valid()
      modifies this`events, this`dataTrackTasks
      ensures Valid()
      ensures events == old(events) + [Event(EventName.OnParticipantConnected, BuildParticipantConnectionEvent(r, p.participant))]
      ensures dataTrackTasks == old(dataTrackTasks) + if dataTrackMessageThread then SubscribedBindings(p.participant, p.dataTracks) else []
    {
      PushEvent(EventName.OnParticipantConnected, BuildParticipantConnectionEvent(r, p.participant));
      var pubs := p.dataTracks;
      for i := 0 to |pubs|
        invariant Valid()
        invariant events == old(events) + [Event(EventName.OnParticipantConnected, BuildParticipantConnectionEvent(r, p.participant))]
        invariant dataTrackTasks == old(dataTrackTasks) + if dataTrackMessageThread then SubscribedBindings(p.participant, pubs[..i]) else []
      {
        assert pubs[..i + 1][..i] == pubs[..i];
        if pubs[i].subscribed {
          PostDataTask(DataTask.AddRemoteDataTrack(p.participant, pubs[i].trackSid));
        }
      }
      assert pubs[..|pubs|] == pubs;
    }

    /** `removeParticipant`: announce the departure. Bindings are left to the
        data-track unsubscribe callbacks. */
    method RemoveParticipant(r: RoomInfo, p: Participant)
      modifies this`events
      ensures events == old(events) + [Event(EventName.OnParticipantDisconnected, BuildParticipantConnectionEvent(r, p))]
    {
      PushEvent(EventName.OnParticipantDisconnected, BuildParticipantConnectionEvent(r, p));
    }

    // ===== media listener =====

    /** `onAudioTrackSubscribed`: playback follows `enableRemoteAudio`. */
    method OnAudioTrackSubscribed(p: Participant, pub: TrackPublication)
      modifies this`events, this`sdkCalls
      ensures sdkCalls == old(sdkCalls) + [EnablePlayback(pub.trackSid, enableRemoteAudio)]
      ensures events == old(events) + [Event(OnParticipantAddedAudioTrack, BuildParticipantVideoEvent(p, pub))]
    {
      sdkCalls := sdkCalls + [EnablePlayback(pub.trackSid, enableRemoteAudio)];
      PushEvent(OnParticipantAddedAudioTrack, BuildParticipantVideoEvent(p, pub));
    }

    method OnAudioTrackUnsubscribed(p: Participant, pub: TrackPublication)
      modifies this`events
      ensures events == old(events) + [Event(OnParticipantRemovedAudioTrack, BuildParticipantVideoEvent(p, pub))]
    {
      PushEvent(OnParticipantRemovedAudioTrack, BuildParticipantVideoEvent(p, pub));
    }

    method OnAudioTrackSubscriptionFailed(p: Participant, pub: TrackPublication, e: TwilioError)
      modifies this`events
      ensures events == old(events) + [Event(OnParticipantFailedToSubscribeToAudioTrack, BuildTrackSubscriptionFailedEvent(p, pub, e))]
    {
      PushEvent(OnParticipantFailedToSubscribeToAudioTrack, BuildTrackSubscriptionFailedEvent(p, pub, e));
    }

    /** `onDataTrackSubscribed`: announce, then submit the binding. */
    method OnDataTrackSubscribed(p: Participant, trackSid: string)
      requires Valid()
      modifies this`events, this`dataTrackTasks
      ensures Valid()
      ensures events == old(events) + [Event(OnParticipantAddedDataTrack, BuildParticipantDataEvent(p))]
      ensures dataTrackTasks == old(dataTrackTasks) + if dataTrackMessageThread then [DataTask.AddRemoteDataTrack(p, trackSid)] else []
    {
      PushEvent(OnParticipantAddedDataTrack, BuildParticipantDataEvent(p));
      PostDataTask(DataTask.AddRemoteDataTrack(p, trackSid));
    }

    /** `onDataTrackUnsubscribed`: announce, then submit the unbinding. */
    method OnDataTrackUnsubscribed(p: Participant, trackSid: string)
      requires Valid()
      modifies this`events, this`dataTrackTasks
      ensures Valid()
      ensures events == old(events) + [Event(OnParticipantRemovedDataTrack, BuildParticipantDataEvent(p))]
      ensures dataTrackTasks == old(dataTrackTasks) + if dataTrackMessageThread then [DataTask.RemoveRemoteDataTrack(p, trackSid)] else []
    {
      PushEvent(OnParticipantRemovedDataTrack, BuildParticipantDataEvent(p));
      PostDataTask(DataTask.RemoveRemoteDataTrack(p, trackSid));
    }

    method OnDataTrackSubscriptionFailed(p: Participant, pub: TrackPublication, e: TwilioError)
      modifies this`events
      ensures events == old(events) + [Event(OnParticipantFailedToSubscribeToDataTrack, BuildTrackSubscriptionFailedEvent(p, pub, e))]
    {
      PushEvent(OnParticipantFailedToSubscribeToDataTrack, BuildTrackSubscriptionFailedEvent(p, pub, e));
    }

    /** `onVideoTrackSubscribed`, through `addParticipantVideo`. */
    method OnVideoTrackSubscribed(p: Participant, pub: TrackPublication)
      modifies this`events
      ensures events == old(events) + [Event(OnParticipantAddedVideoTrack, BuildParticipantVideoEvent(p, pub))]
    {
      PushEvent(OnParticipantAddedVideoTrack, BuildParticipantVideoEvent(p, pub));
    }

    /** `onVideoTrackUnsubscribed`, through `removeParticipantVideo`. */
    method OnVideoTrackUnsubscribed(p: Participant, pub: TrackPublication)
      modifies this`events
      ensures events == old(events) + [Event(OnParticipantRemovedVideoTrack, BuildParticipantVideoEvent(p, pub))]
    {
      PushEvent(OnParticipantRemovedVideoTrack, BuildParticipantVideoEvent(p, pub));
    }

    method OnVideoTrackSubscriptionFailed(p: Participant, pub: TrackPublication, e: TwilioError)
      modifies this`events
      ensures events == old(events) + [Event(OnParticipantFailedToSubscribeToVideoTrack, BuildTrackSubscriptionFailedEvent(p, pub, e))]
    {
      PushEvent(OnParticipantFailedToSubscribeToVideoTrack, BuildTrackSubscriptionFailedEvent(p, pub, e));
    }

    method OnAudioTrackEnabled(p: Participant, pub: TrackPublication)
      modifies this`events
      ensures events == old(events) + [Event(OnParticipantEnabledAudioTrack, BuildParticipantVideoEvent(p, pub))]
    {
      PushEvent(OnParticipantEnabledAudioTrack, BuildParticipantVideoEvent(p, pub));
    }

    method OnAudioTrackDisabled(p: Participant, pub: TrackPublication)
      modifies this`events
      ensures events == old(events) + [Event(OnParticipantDisabledAudioTrack, BuildParticipantVideoEvent(p, pub))]
    {
      PushEvent(OnParticipantDisabledAudioTrack, BuildParticipantVideoEvent(p, pub));
    }

    method OnVideoTrackEnabled(p: Participant, pub: TrackPublication)
      modifies this`events
      ensures events == old(events) + [Event(OnParticipantEnabledVideoTrack, BuildParticipantVideoEvent(p, pub))]
    {
      PushEvent(OnParticipantEnabledVideoTrack, BuildParticipantVideoEvent(p, pub));
    }

    method OnVideoTrackDisabled(p: Participant, pub: TrackPublication)
      modifies this`events
      ensures events == old(events) + [Event(OnParticipantDisabledVideoTrack, BuildParticipantVideoEvent(p, pub))]
    {
      PushEvent(OnParticipantDisabledVideoTrack, BuildParticipantVideoEvent(p, pub));
    }
  }
}
