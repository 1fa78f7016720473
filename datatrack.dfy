/**
 * The data-track binding table (`remoteDataTrackMap`) and the work that runs
 * on the dedicated data-track thread: adding and removing bindings, and
 * turning a received message into an event whose sender is resolved through
 * the table. Work runs strictly in submission order.
 */
module DataTrack {
  import opened Wrappers
  import opened Payload
  import opened Sdk
  import opened Events

  /** One value of `remoteDataTrackMap`: the remote data track (its SID) and
      the participant that published it. */
  datatype Binding = Binding(trackSid: string, participant: Participant)

  /** `remoteDataTrackMap`, keyed by track SID. */
  type BindingTable = map<string, Binding>

  /** Every binding sits under its own track's SID. */
  predicate KeyedBySid(m: BindingTable) {
    forall sid :: sid in m ==> m[sid].trackSid == sid
  }

  /** `addRemoteDataTrack`: `put` under the track SID. */
  function AddBinding(m: BindingTable, p: Participant, sid: string): (r: BindingTable)
    ensures sid in r && r[sid] == Binding(sid, p)
    ensures r.Keys == m.Keys + {sid}
    ensures forall s :: s in m && s != sid ==> r[s] == m[s]
    ensures |r| == if sid in m then |m| else |m| + 1
    ensures KeyedBySid(m) ==> KeyedBySid(r)
  {
    m[sid := Binding(sid, p)]
  }

  /** `removeRemoteDataTrack`: `remove` of the track SID. */
  function RemoveBinding(m: BindingTable, sid: string): (r: BindingTable)
    ensures r.Keys == m.Keys - {sid}
    ensures forall s :: s in r ==> r[s] == m[s]
    ensures |r| == if sid in m then |m| - 1 else |m|
    ensures KeyedBySid(m) ==> KeyedBySid(r)
  {
    var r := m - {sid};
    assert sid !in m ==> r == m;
    r
  }

  /** The `senderId` of a message on track `sid`: the bound participant's
      identity, or null when the track has no binding. */
  function SenderId(m: BindingTable, sid: string): Option<string> {
    if sid in m then Some(m[sid].participant.identity) else None
  }

  /** `buildDataTrackEvent`: the message text and the resolved sender. */
  function BuildDataTrackEvent(m: BindingTable, sid: string, message: string): Fields {
    [ Field("message", VString(message)),
      Field("senderId", match SenderId(m, sid) case Some(id) => VString(id) case None => VNull) ]
  }

  /** A host listener's reading of a data-message payload. */
  function ReadDataMessage(fs: Fields): Option<(string, Option<string>)> {
    match (Get(fs, "message"), Get(fs, "senderId"))
    case (Some(VString(msg)), Some(VString(id))) => Some((msg, Some(id)))
    case (Some(VString(msg)), Some(VNull)) => Some((msg, None))
    case _ => None
  }

  /** The message passes through unchanged, and the sender is the bound
      participant's identity or null. */
  lemma DataTrackEventRoundTrip(m: BindingTable, sid: string, message: string)
    ensures Keys(BuildDataTrackEvent(m, sid, message)) == ["message", "senderId"]
    ensures ReadDataMessage(BuildDataTrackEvent(m, sid, message))
         == Some((message, if sid in m then Some(m[sid].participant.identity) else None))
  {
    var fs := BuildDataTrackEvent(m, sid, message);
    GetAt(fs, 0);
    GetAt(fs, 1);
  }

  // ----- the data-track thread -----

  /** A unit of work posted to the data-track thread's handler. */
  datatype DataTask =
    | AddRemoteDataTrack(participant: Participant, trackSid: string)
    | RemoveRemoteDataTrack(participant: Participant, trackSid: string)
    | MessageReceived(trackSid: string, message: string)

  /** What data-track work reads and writes: the table, the SIDs of the
      remote data tracks whose listener was set on this thread, and the event
      log. */
  datatype DataState = DataState(bindings: BindingTable, listeners: set<string>, emitted: seq<Event>)

  /** Running one task. Adding a binding also sets the track's listener,
      from this thread; removing one leaves the listener in place. */
  function Step(st: DataState, t: DataTask): DataState {
    match t
    case AddRemoteDataTrack(p, sid) =>
      st.(bindings := AddBinding(st.bindings, p, sid), listeners := st.listeners + {sid})
    case RemoveRemoteDataTrack(_, sid) => st.(bindings := RemoveBinding(st.bindings, sid))
    case MessageReceived(sid, msg) =>
      st.(emitted := st.emitted + [Event(OnDataTrackMessageReceived, BuildDataTrackEvent(st.bindings, sid, msg))])
  }

  /** Running a queue of tasks in submission order. */
  function Run(st: DataState, ts: seq<DataTask>): DataState
  {
    if ts == [] then st else Step(Run(st, ts[..|ts| - 1]), ts[|ts| - 1])
  }

  lemma RunSnoc(st: DataState, ts: seq<DataTask>, t: DataTask)
    ensures Run(st, ts + [t]) == Step(Run(st, ts), t)
  {
    assert (ts + [t])[..|ts|] == ts;
  }

  /** Running two queues one after the other is running their concatenation. */
  lemma {:induction false} RunConcat(st: DataState, a: seq<DataTask>, b: seq<DataTask>)
    ensures Run(st, a + b) == Run(Run(st, a), b)
  {
    if b == [] {
      assert a + b == a;
    } else {
      var b' := b[..|b| - 1];
      assert a + b == (a + b') + [b[|b| - 1]];
      RunSnoc(st, a + b', b[|b| - 1]);
      RunConcat(st, a, b');
      RunSnoc(Run(st, a), b', b[|b| - 1]);
      assert b == b' + [b[|b| - 1]];
    }
  }

  /** Data-track work keeps every binding under its own SID, so the table has
      at most one binding per track SID. */
  lemma {:induction false} RunKeyedBySid(st: DataState, ts: seq<DataTask>)
    requires KeyedBySid(st.bindings)
    ensures KeyedBySid(Run(st, ts).bindings)
  {
    if ts != [] {
      RunKeyedBySid(st, ts[..|ts| - 1]);
    }
  }

  /** Data-track work only appends to the event log, one data-message event
      per message task. */
  lemma {:induction false} RunEmits(st: DataState, ts: seq<DataTask>)
    ensures |Run(st, ts).emitted| >= |st.emitted|
    ensures Run(st, ts).emitted[..|st.emitted|] == st.emitted
    ensures forall i :: |st.emitted| <= i < |Run(st, ts).emitted| ==>
              Run(st, ts).emitted[i].name == OnDataTrackMessageReceived
  {
    if ts != [] {
      RunEmits(st, ts[..|ts| - 1]);
    }
  }

  /** The tracks whose listener a queue of tasks sets: one per adding task. */
  function AddedSids(ts: seq<DataTask>): set<string> {
    if ts == [] then {}
    else AddedSids(ts[..|ts| - 1]) + (if ts[|ts| - 1].AddRemoteDataTrack? then {ts[|ts| - 1].trackSid} else {})
  }

  /** A track is in `AddedSids` exactly when some task of the queue adds it. */
  lemma {:induction false} AddedSidsExact(ts: seq<DataTask>, sid: string)
    ensures sid in AddedSids(ts) <==> exists i :: 0 <= i < |ts| && ts[i].AddRemoteDataTrack? && ts[i].trackSid == sid
  {
    if ts != [] {
      var init := ts[..|ts| - 1];
      AddedSidsExact(init, sid);
      if exists i :: 0 <= i < |ts| && ts[i].AddRemoteDataTrack? && ts[i].trackSid == sid {
        var i :| 0 <= i < |ts| && ts[i].AddRemoteDataTrack? && ts[i].trackSid == sid;
        if i < |init| { assert init[i] == ts[i]; }
      }
      if exists i :: 0 <= i < |init| && init[i].AddRemoteDataTrack? && init[i].trackSid == sid {
        var i :| 0 <= i < |init| && init[i].AddRemoteDataTrack? && init[i].trackSid == sid;
        assert ts[i] == init[i];
      }
    }
  }

  /** After a run, a track has a listener on this thread exactly when it had
      one before or some task of the run added its binding; removals and
      messages never take a listener away. */
  lemma {:induction false} RunListeners(st: DataState, ts: seq<DataTask>)
    ensures Run(st, ts).listeners == st.listeners + AddedSids(ts)
  {
    if ts != [] {
      RunListeners(st, ts[..|ts| - 1]);
    }
  }

  // ----- who a track is bound to after a run -----

  /** Whether `t` decides the binding of track `sid`. */
  predicate Touches(t: DataTask, sid: string) {
    (t.AddRemoteDataTrack? || t.RemoveRemoteDataTrack?) && t.trackSid == sid
  }

  /** The binding a deciding task leaves behind. */
  function Decision(t: DataTask): Option<Participant>
    requires t.AddRemoteDataTrack? || t.RemoveRemoteDataTrack?
  {
    if t.AddRemoteDataTrack? then Some(t.participant) else None
  }

  function BoundParticipant(m: BindingTable, sid: string): Option<Participant> {
    if sid in m then Some(m[sid].participant) else None
  }

  /** The reference definition: the binding of `sid` after `ts` is the one
      left by the LAST task that adds or removes `sid`, or the initial one
      when no task does. */
  ghost predicate DecidedBy(m: BindingTable, ts: seq<DataTask>, sid: string, b: Option<Participant>) {
    || (exists i :: 0 <= i < |ts| && Touches(ts[i], sid)
                    && (forall j :: i < j < |ts| ==> !Touches(ts[j], sid))
                    && b == Decision(ts[i]))
    || ((forall i :: 0 <= i < |ts| ==> !Touches(ts[i], sid)) && b == BoundParticipant(m, sid))
  }

  /** One task changes the binding of `sid` only if it touches `sid`, and
      then leaves its decision. */
  lemma StepBound(st: DataState, t: DataTask, sid: string)
    ensures Touches(t, sid) ==> BoundParticipant(Step(st, t).bindings, sid) == Decision(t)
    ensures !Touches(t, sid) ==> BoundParticipant(Step(st, t).bindings, sid) == BoundParticipant(st.bindings, sid)
  {
  }

  lemma DecidedByLast(m: BindingTable, ts: seq<DataTask>, sid: string)
    requires ts != [] && Touches(ts[|ts| - 1], sid)
    ensures DecidedBy(m, ts, sid, Decision(ts[|ts| - 1]))
  {
    var i := |ts| - 1;
    assert ts[i] == ts[|ts| - 1];
  }

  lemma DecidedByExtend(m: BindingTable, init: seq<DataTask>, t: DataTask, sid: string, b: Option<Participant>)
    requires DecidedBy(m, init, sid, b)
    requires !Touches(t, sid)
    ensures DecidedBy(m, init + [t], sid, b)
  {
    var ts := init + [t];
    if exists i :: 0 <= i < |init| && Touches(init[i], sid)
                   && (forall j :: i < j < |init| ==> !Touches(init[j], sid))
                   && b == Decision(init[i]) {
      var i :| 0 <= i < |init| && Touches(init[i], sid)
               && (forall j :: i < j < |init| ==> !Touches(init[j], sid))
               && b == Decision(init[i]);
      assert ts[i] == init[i];
      forall j | i < j < |ts| ensures !Touches(ts[j], sid) {
        if j < |init| { assert ts[j] == init[j]; }
      }
    } else {
      forall i | 0 <= i < |ts| ensures !Touches(ts[i], sid) {
        if i < |init| { assert ts[i] == init[i]; }
      }
    }
  }

  lemma {:induction false} RunDecides(st: DataState, ts: seq<DataTask>, sid: string)
    ensures DecidedBy(st.bindings, ts, sid, BoundParticipant(Run(st, ts).bindings, sid))
  {
    if ts != [] {
      var init := ts[..|ts| - 1];
      var t := ts[|ts| - 1];
      assert ts == init + [t];
      StepBound(Run(st, init), t, sid);
      if Touches(t, sid) {
        DecidedByLast(st.bindings, ts, sid);
      } else {
        RunDecides(st, init, sid);
        DecidedByExtend(st.bindings, init, t, sid, BoundParticipant(Run(st, init).bindings, sid));
      }
    }
  }

  /** The sender of a message is resolved through the table as the earlier
      work on the same thread left it: the participant of the last binding
      decision for that track, or null, and the text is passed through. */
  lemma MessageAfterTasks(st: DataState, ts: seq<DataTask>, sid: string, msg: string)
    ensures var after := Run(st, ts + [MessageReceived(sid, msg)]);
            var b := BoundParticipant(Run(st, ts).bindings, sid);
            && DecidedBy(st.bindings, ts, sid, b)
            && after.bindings == Run(st, ts).bindings
            && after.emitted == Run(st, ts).emitted + [Event(OnDataTrackMessageReceived, BuildDataTrackEvent(Run(st, ts).bindings, sid, msg))]
            && ReadDataMessage(after.emitted[|after.emitted| - 1].payload)
               == Some((msg, if b.Some? then Some(b.value.identity) else None))
  {
    RunSnoc(st, ts, MessageReceived(sid, msg));
    RunDecides(st, ts, sid);
    DataTrackEventRoundTrip(Run(st, ts).bindings, sid, msg);
  }

  /** What adding a binding does to the thread's state, all at once. */
  lemma StepAdd(st: DataState, p: Participant, sid: string)
    ensures Step(st, AddRemoteDataTrack(p, sid))
         == DataState(st.bindings[sid := Binding(sid, p)], st.listeners + {sid}, st.emitted)
  {
  }

  /** Re-adding a track SID overwrites its binding: two adds in a row leave
      the state the second add alone leaves, and the table does not grow. */
  lemma ReAddOverwrites(st: DataState, p1: Participant, p2: Participant, sid: string)
    ensures Step(Step(st, AddRemoteDataTrack(p1, sid)), AddRemoteDataTrack(p2, sid))
         == Step(st, AddRemoteDataTrack(p2, sid))
    ensures |Step(st, AddRemoteDataTrack(p2, sid)).bindings| == |Step(st, AddRemoteDataTrack(p1, sid)).bindings|
  {
    var s1 := Step(st, AddRemoteDataTrack(p1, sid));
    StepAdd(st, p1, sid);
    StepAdd(s1, p2, sid);
    StepAdd(st, p2, sid);
    assert s1.bindings[sid := Binding(sid, p2)] == st.bindings[sid := Binding(sid, p2)];
    assert s1.listeners + {sid} == st.listeners + {sid};
  }

  // ----- bindings submitted by addParticipant -----

  /** The bindings `addParticipant` submits: one per data-track publication
      that is already subscribed, in publication order. */
  function SubscribedBindings(p: Participant, pubs: seq<DataTrackPublication>): seq<DataTask>
  {
    if pubs == [] then []
    else SubscribedBindings(p, pubs[..|pubs| - 1])
         + (if pubs[|pubs| - 1].subscribed then [AddRemoteDataTrack(p, pubs[|pubs| - 1].trackSid)] else [])
  }

  /** A binding is submitted exactly for the subscribed publications: every
      submitted task adds one of them for `p`, and each of them is added. */
  lemma {:induction false} SubscribedBindingsExact(p: Participant, pubs: seq<DataTrackPublication>, t: DataTask)
    ensures |SubscribedBindings(p, pubs)| <= |pubs|
    ensures t in SubscribedBindings(p, pubs) <==>
            exists i :: 0 <= i < |pubs| && pubs[i].subscribed && t == AddRemoteDataTrack(p, pubs[i].trackSid)
  {
    if pubs != [] {
      var init := pubs[..|pubs| - 1];
      SubscribedBindingsExact(p, init, t);
      if exists i :: 0 <= i < |pubs| && pubs[i].subscribed && t == AddRemoteDataTrack(p, pubs[i].trackSid) {
        var i :| 0 <= i < |pubs| && pubs[i].subscribed && t == AddRemoteDataTrack(p, pubs[i].trackSid);
        if i < |init| { assert init[i] == pubs[i]; }
      }
      if t in SubscribedBindings(p, init) {
        var i :| 0 <= i < |init| && init[i].subscribed && t == AddRemoteDataTrack(p, init[i].trackSid);
        assert pubs[i] == init[i];
      }
    }
  }
}
