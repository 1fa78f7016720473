# TwilioVideoModule, modelled in Dafny

This project models the Android native module `TwilioVideoModule` of the
React Native Twilio Video bridge. The module is glue around the vendor video
SDK. It holds a handful of nullable handles: the room, the local participant,
the local audio and video tracks, the camera capturer, the data-track thread
and the stats timer. It also keeps a table that binds remote data tracks to
their participants, and it emits events to JavaScript.

The model is one class, `VideoModule.TwilioVideoModule`. Its fields are the
module's fields. Its methods are the React commands, the lifecycle hooks,
and the room, media and data-track listener callbacks.

- **SDK outcomes are parameters.** Camera availability, whether a track could
  be created, what the room reports on connect, and whether the room is
  already disconnected are all passed in.
- **SDK calls are recorded.** The module's requests to the SDK (connect,
  disconnect, release, publish, enable playback, send, fetch stats, audio
  focus) are appended to `sdkCalls`. Listener registration is not a call
  entry. The data-track listener set in `addRemoteDataTrack` is the field
  `dataTrackListeners`. The participant media listener is under
  "Left out".
- **Events are a log.** Every `pushEvent` appends a name and a payload to
  `events`.
- **Main-handler work runs inline.** A runnable posted to the main handler
  runs inside the command that posts it, so the order of calls is the order
  of submission.
- **Data-track work is queued.** A runnable posted to the data-track handler
  waits in `dataTrackTasks`. `RunNextDataTask` and `DrainDataTasks` let the
  data-track thread run the queue in order. A string message arriving on a
  remote data track is a queued task too, because the SDK delivers it on the
  thread that set the track's listener. So it is queued only for a track
  whose listener was set on the running thread, that is, whose SID is in
  `dataTrackListeners`. A new thread starts with no listeners. A binding
  task adds its SID. An unbinding task leaves the listener in place.

The files:

- `payload.dfy` (module `Payload`): `WritableMap`/`WritableArray` as values.
  A map is an insertion-ordered list of fields. `put` overwrites a key that is
  already present and appends a new one.
- `sdk.dfy` (module `Sdk`): the SDK objects as records.
- `events.dfy` (module `Events`): the 23 event names and their
  `TwilioVideo.`-prefixed wire strings, with a reader that recovers each
  event from its string, so no two events share one.
- `builders.dfy` (module `Builders`): the `build*` payload builders. Each has
  a reader and a round-trip lemma stating that reading the built payload
  gives back exactly its inputs, with its key order.
- `stats.dfy` (module `Stats`): the `convert*TrackStats` converters and the
  `onStats` payload, with round trips, key and order lemmas.
- `datatrack.dfy` (module `DataTrack`): the binding table
  `remoteDataTrackMap`, and the data-track thread as a function over a queue
  of tasks. It proves who a track's messages are attributed to after any
  sequence of bindings and unbindings.
- `videomodule.dfy` (module `VideoModule`): the class.

The class invariant `Valid` says six things:

- Each binding sits under its own track SID.
- Pending data-track work implies a running thread.
- A data-track listener implies a running thread.
- A local video track implies a camera capturer.
- The timer `requestStatsTimer` holds has a serial number below `timersCreated`, so it is one the module created.
- The only timer that was not cancelled is the one `requestStatsTimer` holds,
  so at most one stats timer is ever live.

Every method that touches those fields preserves it.

`removeParticipant` only emits an event. It does not remove the
participant's data-track bindings; those go only through
`onDataTrackUnsubscribed`. Its call to clear the participant's listener is
commented out (TwilioVideoModule.java:851-852).

Where the Java code and the package's TypeScript declarations (`index.d.ts`)
disagree, the model follows the Java code:

- `index.d.ts` types the data-track subscribe/unsubscribe events as
  `TrackEventCbArgs`, whose `track` is a `Track` with `enabled`, `trackName`
  and `trackSid` (index.d.ts:91-100, 221-223). The Java payload's `track`
  field holds a second copy of the participant map.
- `index.d.ts` types `onRoomDidFailToConnect` as `RoomErrorEventArgs`: the
  room fields and an optional `TwilioError` with a `code` (index.d.ts:69-71,
  109-111, 213). The no-camera failure payload is a bare error string with no
  room fields.
- The same type has no `participant` field (index.d.ts:109-111, 211). The Java
  disconnect payload has one, holding the local identity as a string rather
  than a participant map.

## Model

| member | source | states |
|---|---|---|
| Payload.Keys | android/src/main/java/com/actiotech/twiliovideorn/TwilioVideoModule.java:1128 | The keys of a payload map, one per field, in insertion order |
| Payload.GetKeys | android/src/main/java/com/actiotech/twiliovideorn/TwilioVideoModule.java:1128 | A lookup in a payload map succeeds exactly for the keys that are present |
| Payload.GetPut | android/src/main/java/com/actiotech/twiliovideorn/TwilioVideoModule.java:1128 | After `put(k, v)`, `get(k)` is `v` and every other key reads as before |
| Payload.PutShape | android/src/main/java/com/actiotech/twiliovideorn/TwilioVideoModule.java:1128 | Putting a present key keeps the map's size; putting a new key appends it at the end |
| Payload.PutKeys | android/src/main/java/com/actiotech/twiliovideorn/TwilioVideoModule.java:1128 | The keys after a put are the old keys plus the put key, in both directions |
| Payload.PutDistinct | android/src/main/java/com/actiotech/twiliovideorn/TwilioVideoModule.java:1128 | A put never creates a duplicate key |
| Payload.GetAppend | android/src/main/java/com/actiotech/twiliovideorn/TwilioVideoModule.java:1128 | A lookup in two concatenated field lists finds the left one's value first |
| Payload.GetAt | android/src/main/java/com/actiotech/twiliovideorn/TwilioVideoModule.java:1128 | In a map without duplicate keys, the field at any position is what a lookup of its key returns |
| Payload.GetAbsent | android/src/main/java/com/actiotech/twiliovideorn/TwilioVideoModule.java:1128 | A key that no field carries is absent and reads as null |
| Events.ParseWire | android/src/main/java/com/actiotech/twiliovideorn/TwilioVideoModule.java:139-161 | Every wire name is `TwilioVideo.` followed by the event's own suffix, and a listener reading it recovers exactly that event |
| Events.WireInjective | android/src/main/java/com/actiotech/twiliovideorn/TwilioVideoModule.java:139-161 | Two events share a wire name only if they are the same event |
| Builders.ParticipantRoundTrip | android/src/main/java/com/actiotech/twiliovideorn/TwilioVideoModule.java:980-985 | `BuildParticipant` (`buildParticipant`) holds exactly `identity` then `sid`, and they read back as the participant |
| Builders.TrackRoundTrip | android/src/main/java/com/actiotech/twiliovideorn/TwilioVideoModule.java:1001-1004 | `BuildTrack`: the track map holds exactly `trackSid`, `trackName`, `enabled`, and they read back as the publication |
| Builders.ErrorRoundTrip | android/src/main/java/com/actiotech/twiliovideorn/TwilioVideoModule.java:1024-1027 | `BuildError`: the error map holds exactly `message` then `code`, and they read back as the exception |
| Builders.TrackEventRoundTrip | android/src/main/java/com/actiotech/twiliovideorn/TwilioVideoModule.java:998-1010 | `buildParticipantVideoEvent` holds `participant` then `track`, and they read back as the participant and publication |
| Builders.FailedEventRoundTrip | android/src/main/java/com/actiotech/twiliovideorn/TwilioVideoModule.java:1012-1030 | `buildTrackSubscriptionFailedEvent` holds `participant`, `track`, `error`, and they read back as its three inputs |
| Builders.DataEventRoundTrip | android/src/main/java/com/actiotech/twiliovideorn/TwilioVideoModule.java:988-996 | `buildParticipantDataEvent` holds `participant` and `track`, the first reads back as the participant and the second is the same map |
| Builders.ParticipantConnectionRoundTrip | android/src/main/java/com/actiotech/twiliovideorn/TwilioVideoModule.java:815-822 | The participant (dis)connected payload holds `roomName`, `roomSid`, `participant`, and they read back as the room and participant |
| Builders.ConnectedEventRoundTrip | android/src/main/java/com/actiotech/twiliovideorn/TwilioVideoModule.java:713-727 | The `onRoomDidConnect` payload holds `roomName`, `roomSid`, `participants`, reading back as the room and the array given |
| Builders.BuildParticipantsArray | android/src/main/java/com/actiotech/twiliovideorn/TwilioVideoModule.java:719-726 | The participants array is the remote participants' maps in room order, then the local participant's map last |
| Builders.ConnectFailureRoundTrip | android/src/main/java/com/actiotech/twiliovideorn/TwilioVideoModule.java:740-750 | The connect-failure payload holds `roomName`, `roomSid`, `error`, and they read back as the room and the exception |
| Builders.DisconnectedEventRoundTrip | android/src/main/java/com/actiotech/twiliovideorn/TwilioVideoModule.java:763-776 | `BuildDisconnectedEvent`: `participant` is present iff there was a local participant and reads as its identity; `error` is present iff an exception was given and reads back as it; the room fields read back |
| Builders.DisconnectedLookups | android/src/main/java/com/actiotech/twiliovideorn/TwilioVideoModule.java:763-776 | In the disconnect payload's layout, each of the four keys finds its own field, or nothing when the optional field is missing |
| Builders.NoCameraEventShape | android/src/main/java/com/actiotech/twiliovideorn/TwilioVideoModule.java:304-308 | The no-camera failure payload has only `error`, holding the fixed message; it has no room fields and no error map |
| Builders.FlagEventsRoundTrip | android/src/main/java/com/actiotech/twiliovideorn/TwilioVideoModule.java:535-585 | The camera-switched, video-changed and audio-changed payloads each hold one key, `isBackCamera`, `videoEnabled` or `audioEnabled`, which reads back as the flag |
| DataTrack.AddBinding | android/src/main/java/com/actiotech/twiliovideorn/TwilioVideoModule.java:855-858 | After adding, the SID maps to the new binding, the keys are the old ones plus the SID, other bindings are unchanged, the table grows only for a new SID, and the keyed-by-SID invariant is kept |
| DataTrack.RemoveBinding | android/src/main/java/com/actiotech/twiliovideorn/TwilioVideoModule.java:860-862 | After removing, exactly that SID is gone, every other binding is unchanged, the size drops only if the SID was bound, and the invariant is kept |
| DataTrack.DataTrackEventRoundTrip | android/src/main/java/com/actiotech/twiliovideorn/TwilioVideoModule.java:1032-1039 | `BuildDataTrackEvent`: the data-message payload holds `message` then `senderId`; the message reads back unchanged and the sender is the bound participant's identity, or null with no binding |
| DataTrack.RunConcat | android/src/main/java/com/actiotech/twiliovideorn/TwilioVideoModule.java:1133-1141 | `Run`, the data-track thread over a queue of `Step`s: running two queues of data-track work one after the other is running their concatenation |
| DataTrack.RunKeyedBySid | android/src/main/java/com/actiotech/twiliovideorn/TwilioVideoModule.java:855-862 | Any run of data-track work keeps every binding under its own SID, at most one per SID |
| DataTrack.RunEmits | android/src/main/java/com/actiotech/twiliovideorn/TwilioVideoModule.java:1093-1096 | Data-track work only appends to the event log, and everything it appends is a data-message event |
| DataTrack.RunListeners | android/src/main/java/com/actiotech/twiliovideorn/TwilioVideoModule.java:855-862 | After any run, the tracks with a listener are those that had one plus those of the run's adding tasks; removing a binding does not remove the listener |
| DataTrack.AddedSidsExact | android/src/main/java/com/actiotech/twiliovideorn/TwilioVideoModule.java:855-858 | A track is among those a queue gives a listener exactly when some task of the queue adds its binding |
| DataTrack.StepBound | android/src/main/java/com/actiotech/twiliovideorn/TwilioVideoModule.java:855-862 | One task changes a SID's binding only if it adds or removes that SID, and then leaves its own decision |
| DataTrack.RunDecides | android/src/main/java/com/actiotech/twiliovideorn/TwilioVideoModule.java:855-862 | After any run, a SID's binding is the one left by the last task that added or removed that SID, or the initial one if no task did |
| DataTrack.MessageAfterTasks | android/src/main/java/com/actiotech/twiliovideorn/TwilioVideoModule.java:1093-1096 | A message handled after queued work leaves the table alone, emits one event, and attributes it to the last bound participant (or null), with the text unchanged |
| DataTrack.ReAddOverwrites | android/src/main/java/com/actiotech/twiliovideorn/TwilioVideoModule.java:855-858 | Adding the same SID twice in a row leaves exactly the state of adding it once with the second participant, binding and listener alike, and the table is no larger than after the first add |
| DataTrack.SubscribedBindingsExact | android/src/main/java/com/actiotech/twiliovideorn/TwilioVideoModule.java:829-839 | `addParticipant` submits a binding exactly for each subscribed data-track publication of the participant, and no more tasks than publications |
| Stats.BaseLookups | android/src/main/java/com/actiotech/twiliovideorn/TwilioVideoModule.java:615-621 | The five base fields (codec, packetsLost, ssrc, timestamp, trackSid) read back unchanged wherever they sit in an entry |
| Stats.LocalLookups | android/src/main/java/com/actiotech/twiliovideorn/TwilioVideoModule.java:623-627 | The local counters (bytesSent, packetsSent, roundTripTime) read back unchanged |
| Stats.RemoteLookups | android/src/main/java/com/actiotech/twiliovideorn/TwilioVideoModule.java:629-632 | The remote counters (bytesReceived, packetsReceived) read back unchanged |
| Stats.RemoteAudioKeys | android/src/main/java/com/actiotech/twiliovideorn/TwilioVideoModule.java:634-641 | A converted remote-audio entry has no duplicate key |
| Stats.RemoteAudioRoundTrip | android/src/main/java/com/actiotech/twiliovideorn/TwilioVideoModule.java:634-641 | `ConvertAudioTrackStats`: a converted remote-audio entry reads back as exactly the stats it came from |
| Stats.LocalAudioRoundTrip | android/src/main/java/com/actiotech/twiliovideorn/TwilioVideoModule.java:643-650 | `ConvertLocalAudioTrackStats`: a converted local-audio entry reads back as exactly the stats it came from |
| Stats.RemoteVideoRoundTrip | android/src/main/java/com/actiotech/twiliovideorn/TwilioVideoModule.java:652-662 | `ConvertVideoTrackStats`: a converted remote-video entry, dimensions included, reads back as exactly the stats it came from |
| Stats.LocalVideoRoundTrip | android/src/main/java/com/actiotech/twiliovideorn/TwilioVideoModule.java:664-674 | `ConvertLocalVideoTrackStats`: a converted local-video entry, dimensions included, reads back as exactly the stats it came from |
| Stats.ConvertAll | android/src/main/java/com/actiotech/twiliovideorn/TwilioVideoModule.java:1105-1108 | An inner `onStats` loop yields one converted entry per list element, in list order |
| Stats.BuildReportEntry | android/src/main/java/com/actiotech/twiliovideorn/TwilioVideoModule.java:1104-1127 | The per-report loop body builds the four arrays of the report entry |
| Stats.ReportEntryLookups | android/src/main/java/com/actiotech/twiliovideorn/TwilioVideoModule.java:1104-1127 | Each of the four array keys of a report entry finds its converted array |
| Stats.ReportEntryRoundTrip | android/src/main/java/com/actiotech/twiliovideorn/TwilioVideoModule.java:1104-1127 | A report entry holds the four array keys in order, and each array has its list's length and reads back element for element, in order, as that list |
| Stats.BuildStatsPayload | android/src/main/java/com/actiotech/twiliovideorn/TwilioVideoModule.java:1101-1131 | The `onStats` loop puts each report's entry under its peer-connection id, in report order |
| Stats.StatsPayloadKeys | android/src/main/java/com/actiotech/twiliovideorn/TwilioVideoModule.java:1128 | The payload's keys are exactly the reports' peer-connection ids, each once |
| Stats.StatsPayloadLookup | android/src/main/java/com/actiotech/twiliovideorn/TwilioVideoModule.java:1128 | The entry under an id is that of the last report with that id |
| Stats.StatsPayloadDistinctIds | android/src/main/java/com/actiotech/twiliovideorn/TwilioVideoModule.java:1101-1131 | With distinct ids, the payload has one entry per report, in report order |
| VideoModule.ChooseCamera | android/src/main/java/com/actiotech/twiliovideorn/TwilioVideoModule.java:300-303 | The front camera if available, else the back camera, else none, in both directions |
| VideoModule.AssembleConnectOptions | android/src/main/java/com/actiotech/twiliovideorn/TwilioVideoModule.java:448-469 | The builder started from the token, with each null-guarded setter applied in Java order and automatic subscription switched off, yields options carrying the token, the room name when there is one, each existing local track, and automatic subscription off |
| VideoModule.ParticipantConnectedEvents | android/src/main/java/com/actiotech/twiliovideorn/TwilioVideoModule.java:734-736 | One participant-connected event per remote participant, the `i`th built from the room and the `i`th participant |
| VideoModule.PerParticipantSnoc | android/src/main/java/com/actiotech/twiliovideorn/TwilioVideoModule.java:734-736 | One more participant adds its own connected event and its own subscribed bindings at the end |
| VideoModule.TwilioVideoModule.Valid | android/src/main/java/com/actiotech/twiliovideorn/TwilioVideoModule.java:684-698 | The invariant implies at most one live stats timer |
| VideoModule.TwilioVideoModule.constructor | android/src/main/java/com/actiotech/twiliovideorn/TwilioVideoModule.java:221-250 | The fresh module: every handle unset, the data track as created, one timer with nothing scheduled so no tick, empty table, listeners and logs |
| VideoModule.TwilioVideoModule.PushEvent | android/src/main/java/com/actiotech/twiliovideorn/TwilioVideoModule.java:1052-1054 | One event appended to the log |
| VideoModule.TwilioVideoModule.QuitDataTrackThread | android/src/main/java/com/actiotech/twiliovideorn/TwilioVideoModule.java:1143-1148 | Afterwards no thread, no pending data-track work and no listener that delivers anywhere, whatever the state before |
| VideoModule.TwilioVideoModule.CreateDataTrackThread | android/src/main/java/com/actiotech/twiliovideorn/TwilioVideoModule.java:1133-1141 | An old thread is quit, and a fresh running thread has an empty queue and no listeners set on it |
| VideoModule.TwilioVideoModule.PostDataTask | android/src/main/java/com/actiotech/twiliovideorn/TwilioVideoModule.java:836-837 | A posted task joins the end of the queue while the thread runs, and is dropped otherwise |
| VideoModule.TwilioVideoModule.AddRemoteDataTrack | android/src/main/java/com/actiotech/twiliovideorn/TwilioVideoModule.java:855-858 | On the running data-track thread: the table becomes the old table with the SID bound to the participant, and the track's listener is set on this thread |
| VideoModule.TwilioVideoModule.RemoveRemoteDataTrack | android/src/main/java/com/actiotech/twiliovideorn/TwilioVideoModule.java:860-862 | The table becomes the old table without the SID |
| VideoModule.TwilioVideoModule.OnDataMessage | android/src/main/java/com/actiotech/twiliovideorn/TwilioVideoModule.java:1093-1096 | One data-message event, resolved through the current table |
| VideoModule.TwilioVideoModule.DataMessageArrived | android/src/main/java/com/actiotech/twiliovideorn/TwilioVideoModule.java:855-858 | A message queues behind earlier work exactly when its track's listener was set on the running data-track thread, and is lost otherwise |
| VideoModule.TwilioVideoModule.RunNextDataTask | android/src/main/java/com/actiotech/twiliovideorn/TwilioVideoModule.java:1133-1141 | The oldest pending task runs as one step of the reference run; with none pending, nothing changes |
| VideoModule.TwilioVideoModule.RunDataTask | android/src/main/java/com/actiotech/twiliovideorn/TwilioVideoModule.java:855-862 | One task changes the table, the listeners and the log exactly as the reference step does |
| VideoModule.TwilioVideoModule.DrainDataTasks | android/src/main/java/com/actiotech/twiliovideorn/TwilioVideoModule.java:1133-1141 | Running the whole queue leaves the table, listeners and log that the reference run gives, in submission order |
| VideoModule.TwilioVideoModule.CreateLocalVideo | android/src/main/java/com/actiotech/twiliovideorn/TwilioVideoModule.java:298-319 | Front camera first, then back; with neither, exactly one no-camera failure event and failure; otherwise no event and a video track when the camera has formats |
| VideoModule.TwilioVideoModule.ConnectToRoom | android/src/main/java/com/actiotech/twiliovideorn/TwilioVideoModule.java:443-472 | Audio focus as requested, then one connect with the assembled options, whose room becomes `room` |
| VideoModule.TwilioVideoModule.Connect | android/src/main/java/com/actiotech/twiliovideorn/TwilioVideoModule.java:416-440 | Name, token and remote-audio choice recorded; a fresh data-track thread and microphone track; no connect and one failure event when a needed camera is missing, exactly one connect otherwise |
| VideoModule.TwilioVideoModule.RunConnectionWork | android/src/main/java/com/actiotech/twiliovideorn/TwilioVideoModule.java:425-439 | The posted connection work: fresh thread, microphone track, then the camera-and-connect outcome |
| VideoModule.TwilioVideoModule.OpenCameraAndConnect | android/src/main/java/com/actiotech/twiliovideorn/TwilioVideoModule.java:431-438 | A camera is opened only when video is wanted and none exists; connecting happens unless that failed |
| VideoModule.TwilioVideoModule.Disconnect | android/src/main/java/com/actiotech/twiliovideorn/TwilioVideoModule.java:490-512 | No thread, no pending work or listeners, no timer, no live timer and no further stats tick; tracks and capturer cleared; SDK calls only for what existed, in source order; no event |
| VideoModule.TwilioVideoModule.ReleaseRoomAndMedia | android/src/main/java/com/actiotech/twiliovideorn/TwilioVideoModule.java:495-510 | Room disconnect, track releases, focus off and capture stop, each only for what existed |
| VideoModule.TwilioVideoModule.ReleaseLocalAudioTrack | android/src/main/java/com/actiotech/twiliovideorn/TwilioVideoModule.java:498-501 | The audio track is released if present and cleared |
| VideoModule.TwilioVideoModule.ReleaseLocalVideoTrack | android/src/main/java/com/actiotech/twiliovideorn/TwilioVideoModule.java:502-505 | The video track is released if present and cleared |
| VideoModule.TwilioVideoModule.StopCameraCapture | android/src/main/java/com/actiotech/twiliovideorn/TwilioVideoModule.java:507-510 | Capture is stopped if a capturer exists, and the capturer is cleared |
| VideoModule.TwilioVideoModule.SendString | android/src/main/java/com/actiotech/twiliovideorn/TwilioVideoModule.java:516-520 | The message is sent only when the local data track exists |
| VideoModule.TwilioVideoModule.FlipCamera | android/src/main/java/com/actiotech/twiliovideorn/TwilioVideoModule.java:535-546 | With a capturer: one switch and one camera-switched event saying whether it is now the back camera; without: nothing changes |
| VideoModule.TwilioVideoModule.SetLocalVideoEnabled | android/src/main/java/com/actiotech/twiliovideorn/TwilioVideoModule.java:549-560 | With a video track: enabled as asked and one `onVideoChanged{videoEnabled}`; without: nothing changes and nothing is emitted |
| VideoModule.TwilioVideoModule.SetLocalAudioEnabled | android/src/main/java/com/actiotech/twiliovideorn/TwilioVideoModule.java:574-585 | With an audio track: enabled as asked and one `onAudioChanged{audioEnabled}`; without: nothing changes and nothing is emitted |
| VideoModule.TwilioVideoModule.GetStats | android/src/main/java/com/actiotech/twiliovideorn/TwilioVideoModule.java:677-681 | Stats are requested only with a room |
| VideoModule.TwilioVideoModule.RequestStats | android/src/main/java/com/actiotech/twiliovideorn/TwilioVideoModule.java:684-691 | The old timer is cancelled and a new one is installed, the only live one; it is scheduled for a positive period and throws otherwise, so ticks follow exactly when the period is positive |
| VideoModule.TwilioVideoModule.CancelStatsRequest | android/src/main/java/com/actiotech/twiliovideorn/TwilioVideoModule.java:693-698 | Afterwards no timer, none live and no tick possible, from any state, so calling it twice is the same as once |
| VideoModule.TwilioVideoModule.RunRequestStatsTask | android/src/main/java/com/actiotech/twiliovideorn/TwilioVideoModule.java:198-205 | A tick happens only while the live timer has the stats task scheduled, and requests stats only with a room |
| VideoModule.TwilioVideoModule.OnStats | android/src/main/java/com/actiotech/twiliovideorn/TwilioVideoModule.java:1101-1131 | One `onStatsReceived` event carrying the stats payload of all reports |
| VideoModule.TwilioVideoModule.OnHostResume | android/src/main/java/com/actiotech/twiliovideorn/TwilioVideoModule.java:325-353 | With an activity: a released video track is recreated enabled when a capturer exists, and published only when connected; without: nothing |
| VideoModule.TwilioVideoModule.OnHostPause | android/src/main/java/com/actiotech/twiliovideorn/TwilioVideoModule.java:356-374 | The video track is unpublished when connected, then released, then cleared |
| VideoModule.TwilioVideoModule.OnHostDestroy | android/src/main/java/com/actiotech/twiliovideorn/TwilioVideoModule.java:377-403 | No timer and no further stats tick; a room not yet disconnected is disconnected and flagged; tracks released and cleared; the thread quit with its listeners |
| VideoModule.TwilioVideoModule.DestroyRoomAndTracks | android/src/main/java/com/actiotech/twiliovideorn/TwilioVideoModule.java:384-400 | Disconnect and flag only for a live room, then release the video and audio tracks that exist |
| VideoModule.TwilioVideoModule.OnConnected | android/src/main/java/com/actiotech/twiliovideorn/TwilioVideoModule.java:713-737 | `onRoomDidConnect` first with the participants array, then one participant-connected event per remote participant in room order; the data track published; their subscribed bindings queued |
| VideoModule.TwilioVideoModule.AddParticipants | android/src/main/java/com/actiotech/twiliovideorn/TwilioVideoModule.java:734-736 | The loop over the room's participants emits their events and queues their bindings, in room order |
| VideoModule.TwilioVideoModule.AddNextParticipant | android/src/main/java/com/actiotech/twiliovideorn/TwilioVideoModule.java:734-736 | One pass of that loop: the events and queued bindings of the participants before the i-th, extended by the i-th participant's, give those of the first i+1 |
| VideoModule.TwilioVideoModule.OnConnectFailure | android/src/main/java/com/actiotech/twiliovideorn/TwilioVideoModule.java:740-750 | One connect-failure event with the room and the error |
| VideoModule.TwilioVideoModule.OnDisconnected | android/src/main/java/com/actiotech/twiliovideorn/TwilioVideoModule.java:763-789 | One `onRoomDidDisconnect` built from the old local participant; participant, name, token and room cleared; focus dropped only when not from `onHostDestroy` |
| VideoModule.TwilioVideoModule.OnParticipantConnected | android/src/main/java/com/actiotech/twiliovideorn/TwilioVideoModule.java:792-795 | As `addParticipant` |
| VideoModule.TwilioVideoModule.OnParticipantDisconnected | android/src/main/java/com/actiotech/twiliovideorn/TwilioVideoModule.java:798-800 | As `removeParticipant` |
| VideoModule.TwilioVideoModule.AddParticipant | android/src/main/java/com/actiotech/twiliovideorn/TwilioVideoModule.java:815-840 | The connected event first, then one queued binding per subscribed data track, in publication order, none for unsubscribed ones |
| VideoModule.TwilioVideoModule.RemoveParticipant | android/src/main/java/com/actiotech/twiliovideorn/TwilioVideoModule.java:845-853 | One participant-disconnected event; the table and the queue are untouched |
| VideoModule.TwilioVideoModule.OnAudioTrackSubscribed | android/src/main/java/com/actiotech/twiliovideorn/TwilioVideoModule.java:869-873 | Playback set to the remote-audio choice, then one added-audio event |
| VideoModule.TwilioVideoModule.OnAudioTrackUnsubscribed | android/src/main/java/com/actiotech/twiliovideorn/TwilioVideoModule.java:876-879 | One removed-audio event |
| VideoModule.TwilioVideoModule.OnAudioTrackSubscriptionFailed | android/src/main/java/com/actiotech/twiliovideorn/TwilioVideoModule.java:882-885 | One failed-audio event with participant, track and error |
| VideoModule.TwilioVideoModule.OnDataTrackSubscribed | android/src/main/java/com/actiotech/twiliovideorn/TwilioVideoModule.java:898-902 | One added-data event, then the binding queued |
| VideoModule.TwilioVideoModule.OnDataTrackUnsubscribed | android/src/main/java/com/actiotech/twiliovideorn/TwilioVideoModule.java:905-909 | One removed-data event, then the unbinding queued |
| VideoModule.TwilioVideoModule.OnDataTrackSubscriptionFailed | android/src/main/java/com/actiotech/twiliovideorn/TwilioVideoModule.java:912-915 | One failed-data event with participant, track and error |
| VideoModule.TwilioVideoModule.OnVideoTrackSubscribed | android/src/main/java/com/actiotech/twiliovideorn/TwilioVideoModule.java:928-930 | One added-video event |
| VideoModule.TwilioVideoModule.OnVideoTrackUnsubscribed | android/src/main/java/com/actiotech/twiliovideorn/TwilioVideoModule.java:933-935 | One removed-video event |
| VideoModule.TwilioVideoModule.OnVideoTrackSubscriptionFailed | android/src/main/java/com/actiotech/twiliovideorn/TwilioVideoModule.java:938-941 | One failed-video event with participant, track and error |
| VideoModule.TwilioVideoModule.OnAudioTrackEnabled | android/src/main/java/com/actiotech/twiliovideorn/TwilioVideoModule.java:954-958 | One enabled-audio event |
| VideoModule.TwilioVideoModule.OnAudioTrackDisabled | android/src/main/java/com/actiotech/twiliovideorn/TwilioVideoModule.java:961-964 | One disabled-audio event |
| VideoModule.TwilioVideoModule.OnVideoTrackEnabled | android/src/main/java/com/actiotech/twiliovideorn/TwilioVideoModule.java:967-970 | One enabled-video event |
| VideoModule.TwilioVideoModule.OnVideoTrackDisabled | android/src/main/java/com/actiotech/twiliovideorn/TwilioVideoModule.java:973-976 | One disabled-video event |

## Left out

- The vendor SDK's behaviour is not modelled: `Video.connect`, `LocalVideoTrack.create`/`LocalAudioTrack.create`, `CameraCapturer`, publishing, playback and sending. Their outcomes are parameters and their calls are entries of `sdkCalls`.
- `createCameraCaputer`'s exception path is folded into "camera available": a capturer that throws on construction counts as an unavailable camera.
- `setRemoteAudioEnabled` is not modelled. It only forwards `enablePlayback` to the SDK's own remote audio tracks, and the model does not keep those tracks.
- `toggleSoundSetup`, `toggleBluetoothHeadset` and `disableOpenSLES` are not modelled. They are platform audio routing with no module state. `setAudioFocus` is a recorded flag.
- `releaseResource`, `registerPrimaryVideoView`, `registerThumbnailVideoView`, `setThumbnailMirror` and `buildVideoConstraints` are view and renderer plumbing and are left out.
- Real threads, loopers and time are not modelled. Main-handler work runs inline. Data-track work is a queue the data-track thread runs in order. The timer's periodic firing is one `RunRequestStatsTask` call per tick.
- Work posted to the data-track handler while no thread runs is dropped. In Java a quit thread's handler drops it, and posting before any thread was created fails on the unset handler; the model drops it in both cases.
- `quitDataTrackThread` discards any work still pending, as `Looper.quit` does.
- `putDouble` of byte counts and round-trip time is modelled as exact conversion to a real number. The loss of precision for counts beyond 2^53 is not modelled.
- The byte-buffer `onMessage` overload and the empty callbacks (reconnecting, reconnected, recording, track published/unpublished) have no behaviour and are not modelled.
- `WritableNativeMap` key order is not observable from JavaScript. The model fixes insertion order, so its key-order statements are stronger than what the host can distinguish.
- The static fields (`room`, `localVideoTrack`, `cameraCapturer`) are modelled as fields of the one module instance. Sharing them between several module instances is not modelled.
- The JavaScript layers, the type declarations, the package registration and the preview views are outside this model.
- `addParticipant` sets the participant's media listener (TwilioVideoModule.java:827). That registration is not modelled, so the media-listener methods accept callbacks for any participant.
- `addParticipant` posts a runnable that reads `getRemoteDataTrack()` when it runs on the data-track thread, not when it is posted (TwilioVideoModule.java:836-837). The model binds the publication's track SID as it is at posting. A publication whose track is gone by the time the runnable runs, and the resulting null dereference on the data-track thread, are not modelled.
- `onConnected` records `PublishTrack(Data)` even when no local data track exists, because TwilioVideoModule.java:732 publishes `localDataTrack` unguarded. The SDK's reaction to a null track is not modelled.
