/** The SSE stream broker (internal/a2a/sse.go, internal/a2a/streaming.go): two indexes over
    bounded per-subscriber queues, with reaping on a `done` event. */
module Broker {
  import opened Common

  type TaskId = string
  type StreamId = string

  datatype Event = Event(kind: string, body: string)

  predicate IsDone(ev: Event)
  {
    ev.kind == "done"
  }

  /** Slots in a subscriber's queue. */
  const CAPACITY := 16

  /** A channel: everything ever sent on it, how much of that has been received, and how many
      times it was closed; and whether its subscriber is still in its event loop. */
  datatype Chan = Chan(sent: seq<Event>, taken: nat, closes: nat, reading: bool)
  {
    predicate Open() { closes == 0 }

    predicate HasRoom() { |sent| - taken < CAPACITY }
  }

  datatype Sub = Sub(streamID: StreamId, taskID: TaskId)

  type Inner = map<StreamId, Sub>

  datatype State = State(byStream: map<StreamId, Sub>, byTask: map<TaskId, Inner>, chans: map<StreamId, Chan>)

  const EMPTY := State(map[], map[], map[])

  // ---------------------------------------------------------------- the operations as functions

  function Subscribed(b: State, task: TaskId, id: StreamId): (r: State)
  {
    if task == "" then b
    else
      var sub := Sub(id, task);
      var inner := if task in b.byTask then b.byTask[task] else map[];
      State(b.byStream[id := sub], b.byTask[task := inner[id := sub]], b.chans[id := Chan([], 0, 0, true)])
  }

  function Offer(c: Chan, ev: Event): (r: Chan)
  {
    if c.HasRoom() then c.(sent := c.sent + [ev]) else c
  }

  function Offered(chans: map<StreamId, Chan>, ids: set<StreamId>, ev: Event): (r: map<StreamId, Chan>)
  {
    map id | id in chans :: if id in ids then Offer(chans[id], ev) else chans[id]
  }

  function Closed(chans: map<StreamId, Chan>, ids: set<StreamId>): (r: map<StreamId, Chan>)
  {
    map id | id in chans :: if id in ids then chans[id].(closes := chans[id].closes + 1) else chans[id]
  }

  /** The second half of a `done`: close and unindex every subscription of the inner map the
      first half read. Emptied, that map's task entry goes. */
  function Reaped(b: State, task: TaskId, subs: set<StreamId>): (r: State)
  {
    State(b.byStream - subs, b.byTask - {task}, Closed(b.chans, subs))
  }

  function Published(b: State, task: TaskId, ev: Event): (r: State)
  {
    if task !in b.byTask then b
    else
      var subs := b.byTask[task].Keys;
      var b' := b.(chans := Offered(b.chans, subs, ev));
      if IsDone(ev) then Reaped(b', task, subs) else b'
  }

  /** The subscribers an event for `task` reaches. */
  function Reached(b: State, task: TaskId): (r: set<StreamId>)
  {
    if task !in b.byTask then {}
    else set id | id in b.byTask[task] && id in b.chans && b.chans[id].HasRoom()
  }

  /** The index by task without one subscription. */
  function Without(byTask: map<TaskId, Inner>, task: TaskId, id: StreamId): (r: map<TaskId, Inner>)
  {
    if task !in byTask then byTask
    else if byTask[task].Keys - {id} == {} then byTask - {task}
    else byTask[task := byTask[task] - {id}]
  }

  function Cleaned(b: State, id: StreamId): (r: State)
  {
    if id !in b.byStream then b
    else
      State(b.byStream - {id}, Without(b.byTask, b.byStream[id].taskID, id), Closed(b.chans, {id}))
  }

  /** What wakes a subscriber's event loop. */
  datatype Wake = ClientGone | IdlePing(written: bool) | Next(written: bool)

  /** One turn of the loop of `id`. Waking for `Next` with nothing queued on an open channel is
      no turn at all. Every return runs the deferred cleanup. */
  function Turned(b: State, id: StreamId, wake: Wake): (r: State)
  {
    if id !in b.chans || !b.chans[id].reading then b
    else
      var c := b.chans[id];
      match wake
      case ClientGone => Left(b, id, c)
      case IdlePing(written) => if written then b else Left(b, id, c)
      case Next(written) =>
        if c.taken < |c.sent| then
          var c' := c.(taken := c.taken + 1);
          if !written || IsDone(c.sent[c.taken]) then Left(b, id, c') else b.(chans := b.chans[id := c'])
        else if !c.Open() then Left(b, id, c)
        else b
  }

  function Left(b: State, id: StreamId, c: Chan): (r: State)
  {
    Cleaned(b.(chans := b.chans[id := c.(reading := false)]), id)
  }

  // ---------------------------------------------------------------- what every operation keeps

  /** The subscriptions of one task, out of the index by stream. */
  function InnerOf(byStream: map<StreamId, Sub>, t: TaskId): (r: Inner)
  {
    map id | id in byStream && byStream[id].taskID == t :: byStream[id]
  }

  /** The index by task holds exactly the subscriptions of `t` in the index by stream, and no
      empty inner map. */
  predicate TaskOk(b: State, t: TaskId)
  {
    var inner := InnerOf(b.byStream, t);
    && (t in b.byTask <==> inner != map[])
    && (t in b.byTask ==> b.byTask[t] == inner)
  }

  /** A channel is open exactly when it is indexed, was closed at most once, and its queue is
      within bounds. */
  predicate ChanOk(b: State, id: StreamId)
  {
    && (id in b.byStream ==> id in b.chans && b.byStream[id].streamID == id)
    && (id in b.chans ==>
          var c := b.chans[id];
          && c.closes <= 1
          && (c.Open() <==> id in b.byStream)
          && c.taken <= |c.sent| <= c.taken + CAPACITY)
  }

  ghost predicate Agree(b: State)
  {
    (forall t :: TaskOk(b, t)) && (forall id :: ChanOk(b, id))
  }

  lemma InnerAfterAdd(m: map<StreamId, Sub>, id: StreamId, sub: Sub, t: TaskId)
    requires id !in m
    ensures InnerOf(m[id := sub], t) == if sub.taskID == t then InnerOf(m, t)[id := sub] else InnerOf(m, t)
  {
  }

  lemma InnerAfterRemove(m: map<StreamId, Sub>, ids: set<StreamId>, t: TaskId)
    ensures InnerOf(m - ids, t) == InnerOf(m, t) - ids
  {
  }

  lemma EmptyByKeys(m: Inner)
    ensures m == map[] <==> m.Keys == {}
  {
    if m != map[] {
      var id :| id in m;
      assert id in m.Keys;
    }
  }

  lemma SubscribeAgrees(b: State, task: TaskId, id: StreamId)
    requires Agree(b) && id !in b.chans
    ensures Agree(Subscribed(b, task, id))
  {
    if task != "" {
      var b' := Subscribed(b, task, id);
      assert ChanOk(b, id);
      forall t ensures TaskOk(b', t) {
        assert TaskOk(b, t);
        InnerAfterAdd(b.byStream, id, Sub(id, task), t);
        if t == task {
          assert id in InnerOf(b'.byStream, t);
        }
      }
      forall i ensures ChanOk(b', i) {
        assert ChanOk(b, i);
      }
    }
  }

  /** Closing and unindexing any set of indexed subscriptions keeps the channels in order. */
  lemma ClosingKeepsChans(b: State, byTask: map<TaskId, Inner>, ids: set<StreamId>, id: StreamId)
    requires ids <= b.byStream.Keys && ChanOk(b, id)
    ensures ChanOk(State(b.byStream - ids, byTask, Closed(b.chans, ids)), id)
  {
  }

  /** The gap. Between the two halves of a `done` the lock is free; the second half keeps the
      indexes in agreement if and only if the inner map it read still lists exactly the
      current subscribers of the task. */
  lemma {:induction false} ReapAgreesExactly(b: State, task: TaskId, subs: set<StreamId>)
    requires Agree(b) && subs <= InnerOf(b.byStream, task).Keys
    ensures Agree(Reaped(b, task, subs)) <==> subs == InnerOf(b.byStream, task).Keys
  {
    var b' := Reaped(b, task, subs);
    forall t
      ensures InnerOf(b'.byStream, t) == InnerOf(b.byStream, t) - subs
    {
      InnerAfterRemove(b.byStream, subs, t);
    }
    if subs == InnerOf(b.byStream, task).Keys {
      forall t ensures TaskOk(b', t) {
        assert TaskOk(b, t);
        if t == task {
          EmptyByKeys(InnerOf(b'.byStream, t));
        } else {
          assert InnerOf(b'.byStream, t) == InnerOf(b.byStream, t);
        }
      }
      forall id ensures ChanOk(b', id) {
        ClosingKeepsChans(b, b'.byTask, subs, id);
      }
    } else {
      var id :| id in InnerOf(b.byStream, task) && id !in subs;
      assert id in InnerOf(b'.byStream, task);
      assert !TaskOk(b', task);
    }
  }

  lemma {:induction false} PublishAgrees(b: State, task: TaskId, ev: Event)
    requires Agree(b)
    ensures Agree(Published(b, task, ev))
  {
    assert TaskOk(b, task);
    if task in b.byTask {
      var subs := b.byTask[task].Keys;
      var b' := b.(chans := Offered(b.chans, subs, ev));
      forall t ensures TaskOk(b', t) {
        assert TaskOk(b, t);
      }
      forall id ensures ChanOk(b', id) {
        assert ChanOk(b, id);
      }
      if IsDone(ev) {
        ReapAgreesExactly(b', task, subs);
      }
    }
  }

  lemma {:induction false} CleanupAgrees(b: State, id: StreamId)
    requires Agree(b)
    ensures Agree(Cleaned(b, id))
  {
    if id in b.byStream {
      var b' := Cleaned(b, id);
      var task := b.byStream[id].taskID;
      assert id in InnerOf(b.byStream, task);
      forall t ensures TaskOk(b', t) {
        assert TaskOk(b, t) && TaskOk(b, task);
        InnerAfterRemove(b.byStream, {id}, t);
        EmptyByKeys(InnerOf(b'.byStream, t));
        if t != task {
          assert InnerOf(b'.byStream, t) == InnerOf(b.byStream, t);
        }
      }
      forall i ensures ChanOk(b', i) {
        ClosingKeepsChans(b, b'.byTask, {id}, i);
      }
    }
  }

  lemma {:induction false} TurnAgrees(b: State, id: StreamId, wake: Wake)
    requires Agree(b)
    ensures Agree(Turned(b, id, wake))
  {
    if id in b.chans && b.chans[id].reading {
      var c := b.chans[id];
      assert ChanOk(b, id);
      ReaderAgrees(b, id, c.(reading := false));
      CleanupAgrees(b.(chans := b.chans[id := c.(reading := false)]), id);
      if c.taken < |c.sent| {
        var c' := c.(taken := c.taken + 1);
        ReaderAgrees(b, id, c');
        ReaderAgrees(b, id, c'.(reading := false));
        CleanupAgrees(b.(chans := b.chans[id := c'.(reading := false)]), id);
      }
    }
  }

  lemma {:induction false} ReaderAgrees(b: State, id: StreamId, c: Chan)
    requires Agree(b) && id in b.chans && c.sent == b.chans[id].sent && c.closes == b.chans[id].closes
    requires b.chans[id].taken <= c.taken <= |c.sent|
    ensures Agree(b.(chans := b.chans[id := c]))
  {
    var b' := b.(chans := b.chans[id := c]);
    forall t ensures TaskOk(b', t) {
      assert TaskOk(b, t);
    }
    forall i ensures ChanOk(b', i) {
      assert ChanOk(b, i) && ChanOk(b, id);
    }
  }

  /** The reaping loop when it has visited `done`. */
  function Reaping(b: State, task: TaskId, done: set<StreamId>): (r: State)
    requires task in b.byTask
  {
    State(b.byStream - done, b.byTask[task := b.byTask[task] - done], Closed(b.chans, done))
  }

  function ReapedOne(b: State, task: TaskId, id: StreamId): (r: State)
    requires task in b.byTask && id in b.chans
  {
    State(b.byStream - {id}, b.byTask[task := b.byTask[task] - {id}], b.chans[id := b.chans[id].(closes := 1)])
  }

  lemma ReapingStarts(b: State, task: TaskId)
    requires task in b.byTask
    ensures Reaping(b, task, {}) == b
  {
    assert b.byTask[task] - {} == b.byTask[task];
  }

  lemma ReapingGoesOn(b: State, task: TaskId, done: set<StreamId>, id: StreamId)
    requires task in b.byTask && id in b.byTask[task] && id !in done && id in b.chans && b.chans[id].Open()
    ensures var now := Reaping(b, task, done);
      && id in now.chans && now.chans[id].Open()
      && Reaping(b, task, done + {id}) == ReapedOne(now, task, id)
  {
    assert b.byTask[task] - (done + {id}) == (b.byTask[task] - done) - {id};
    assert Closed(b.chans, done + {id}) == Closed(b.chans, done)[id := Closed(b.chans, done)[id].(closes := 1)];
  }

  lemma ReapingEnds(b: State, task: TaskId)
    requires task in b.byTask
    ensures var subs := b.byTask[task].Keys;
      var end := Reaping(b, task, subs);
      && |end.byTask[task]| == 0
      && Reaped(b, task, subs) == State(end.byStream, end.byTask - {task}, end.chans)
  {
    assert b.byTask[task] - b.byTask[task].Keys == map[];
  }

  lemma EmptyWithout(m: Inner, id: StreamId)
    ensures |m - {id}| == 0 <==> m.Keys - {id} == {}
  {
    assert (m - {id}).Keys == m.Keys - {id};
  }

  // ---------------------------------------------------------------- the code

  class StreamBroker {
    var byStreamID: map<StreamId, Sub>
    var byTaskID: map<TaskId, Inner>
    var chans: map<StreamId, Chan>

    function Value(): (r: State)
      reads this
    {
      State(byStreamID, byTaskID, chans)
    }

    constructor ()
      ensures Value() == EMPTY
    {
      byStreamID := map[];
      byTaskID := map[];
      chans := map[];
    }

    /** `id` is the fresh stream id the UUID generator returns. */
    method Subscribe(task: TaskId, id: StreamId) returns (r: Option<StreamId>)
      requires Agree(Value()) && id !in chans
      modifies this
      ensures Value() == Subscribed(old(Value()), task, id) && Agree(Value())
      ensures r == if task == "" then None else Some(id)
    {
      SubscribeAgrees(Value(), task, id);
      if task == "" {
        return None;
      }
      chans := chans[id := Chan([], 0, 0, true)];
      byStreamID := byStreamID[id := Sub(id, task)];
      if task !in byTaskID {
        byTaskID := byTaskID[task := map[]];
      }
      byTaskID := byTaskID[task := byTaskID[task][id := Sub(id, task)]];
      assert byTaskID == Subscribed(old(Value()), task, id).byTask;
      return Some(id);
    }

    /** A send that would block is dropped. Sending on a closed channel would panic: the
        precondition is never broken. */
    method TrySend(id: StreamId, ev: Event) returns (sent: bool)
      requires id in chans && chans[id].Open()
      modifies this`chans
      ensures chans == old(chans)[id := Offer(old(chans)[id], ev)]
      ensures sent <==> old(chans)[id].HasRoom()
    {
      sent := |chans[id].sent| - chans[id].taken < CAPACITY;
      if sent {
        chans := chans[id := chans[id].(sent := chans[id].sent + [ev])];
      }
    }

    /** Closing a closed channel would panic: the precondition is never broken. */
    method Close(id: StreamId)
      requires id in chans && chans[id].Open()
      modifies this`chans
      ensures chans == old(chans)[id := old(chans)[id].(closes := 1)]
    {
      chans := chans[id := chans[id].(closes := chans[id].closes + 1)];
    }

    method Publish(task: TaskId, ev: Event) returns (dispatched: nat)
      requires Agree(Value())
      modifies this
      ensures Value() == Published(old(Value()), task, ev) && Agree(Value())
      ensures dispatched == |Reached(old(Value()), task)|
    {
      PublishAgrees(Value(), task, ev);
      assert TaskOk(Value(), task);
      if task !in byTaskID {
        return 0;
      }
      var subs := byTaskID[task].Keys;
      forall id | id in subs
        ensures id in byStreamID && id in chans && chans[id].Open()
      {
        assert id in InnerOf(byStreamID, task) && ChanOk(Value(), id);
      }
      dispatched := FanOut(subs, ev);
      assert (set id | id in subs && old(chans)[id].HasRoom()) == Reached(old(Value()), task);
      if IsDone(ev) {
        Reap(task);
      }
    }

    method FanOut(subs: set<StreamId>, ev: Event) returns (dispatched: nat)
      requires forall id :: id in subs ==> id in chans && chans[id].Open()
      modifies this`chans
      ensures chans == Offered(old(chans), subs, ev)
      ensures dispatched == |set id | id in subs && old(chans)[id].HasRoom()|
    {
      dispatched := 0;
      var left := subs;
      ghost var grown: set<StreamId> := {};
      while left != {}
        invariant left <= subs && chans == Offered(old(chans), subs - left, ev)
        invariant grown == (set id | id in subs - left && old(chans)[id].HasRoom()) && dispatched == |grown|
        decreases left
      {
        var id :| id in left;
        var sent := TrySend(id, ev);
        if sent {
          dispatched := dispatched + 1;
          grown := grown + {id};
        }
        left := left - {id};
      }
      assert subs - left == subs;
    }

    method Reap(task: TaskId)
      requires task in byTaskID && byTaskID[task].Keys <= byStreamID.Keys
      requires forall id :: id in byTaskID[task] ==> id in chans && chans[id].Open()
      modifies this
      ensures Value() == Reaped(old(Value()), task, old(byTaskID)[task].Keys)
    {
      ReapingEnds(Value(), task);
      ReapAll(task);
      if |byTaskID[task]| == 0 {
        byTaskID := byTaskID - {task};
      }
    }

    method ReapAll(task: TaskId)
      requires task in byTaskID
      requires forall id :: id in byTaskID[task] ==> id in chans && chans[id].Open()
      modifies this
      ensures Value() == Reaping(old(Value()), task, old(byTaskID)[task].Keys)
    {
      ghost var b := Value();
      ghost var done: set<StreamId> := {};
      ghost var subs := byTaskID[task].Keys;
      var left := byTaskID[task].Keys;
      ReapingStarts(b, task);
      while left != {}
        invariant done <= subs && left == subs - done
        invariant Value() == Reaping(b, task, done)
        decreases left
      {
        var id :| id in left;
        ReapingGoesOn(b, task, done, id);
        ReapOne(task, id);
        left := left - {id};
        done := done + {id};
      }
      assert done == subs;
    }

    method ReapOne(task: TaskId, id: StreamId)
      requires task in byTaskID && id in chans && chans[id].Open()
      modifies this
      ensures Value() == ReapedOne(old(Value()), task, id)
    {
      Close(id);
      byStreamID := byStreamID - {id};
      byTaskID := byTaskID[task := byTaskID[task] - {id}];
    }

    /** A subscription is found exactly while its channel is open, and it is the one its task
        lists. */
    method Lookup(id: StreamId) returns (sub: Option<Sub>)
      requires Agree(Value())
      ensures sub.Some? <==> id in chans && chans[id].Open()
      ensures sub.Some? ==>
        && sub.value.streamID == id && sub.value.taskID in byTaskID
        && id in byTaskID[sub.value.taskID] && byTaskID[sub.value.taskID][id] == sub.value
    {
      assert ChanOk(Value(), id);
      if id in byStreamID {
        assert TaskOk(Value(), byStreamID[id].taskID);
        assert id in InnerOf(byStreamID, byStreamID[id].taskID);
      }
      return if id in byStreamID then Some(byStreamID[id]) else None;
    }

    /** The channel is always open here, so the recover around the close is never needed. */
    method Cleanup(id: StreamId)
      requires Agree(Value())
      modifies this
      ensures Value() == Cleaned(old(Value()), id) && Agree(Value())
    {
      CleanupAgrees(Value(), id);
      if id !in byStreamID {
        return;
      }
      assert ChanOk(Value(), id);
      Unindex(id);
      Close(id);
      assert chans == Closed(old(chans), {id});
    }

    method Unindex(id: StreamId)
      requires id in byStreamID
      modifies this`byStreamID, this`byTaskID
      ensures byStreamID == Cleaned(old(Value()), id).byStream && byTaskID == Cleaned(old(Value()), id).byTask
    {
      var task := byStreamID[id].taskID;
      byStreamID := byStreamID - {id};
      if task in byTaskID {
        var subs := byTaskID[task] - {id};
        EmptyWithout(byTaskID[task], id);
        if |subs| == 0 {
          byTaskID := byTaskID - {task};
        } else {
          byTaskID := byTaskID[task := subs];
        }
      }
    }

    /** The loop returns: the deferred cleanup runs. */
    method Leave(id: StreamId)
      requires Agree(Value()) && id in chans
      modifies this
      ensures Value() == Left(old(Value()), id, old(chans)[id]) && Agree(Value())
    {
      assert ChanOk(Value(), id);
      ReaderAgrees(Value(), id, chans[id].(reading := false));
      chans := chans[id := chans[id].(reading := false)];
      Cleanup(id);
    }

    /** One turn of tailSubscription; `ended` when the loop has returned. */
    method TailTurn(id: StreamId, wake: Wake) returns (ended: bool)
      requires Agree(Value()) && id in chans && chans[id].reading
      modifies this
      ensures Value() == Turned(old(Value()), id, wake) && Agree(Value())
      ensures ended <==> !chans[id].reading
    {
      assert ChanOk(Value(), id);
      ended := false;
      match wake {
        case ClientGone => ended := true;
        case IdlePing(written) => ended := !written;
        case Next(written) =>
          if chans[id].taken < |chans[id].sent| {
            var ev := chans[id].sent[chans[id].taken];
            var c := chans[id].(taken := chans[id].taken + 1);
            ReaderAgrees(Value(), id, c);
            chans := chans[id := c];
            ended := !written || IsDone(ev);
          } else {
            ended := chans[id].closes > 0;
          }
      }
      if ended {
        ghost var c := chans[id].(reading := false);
        assert old(chans)[id := chans[id]][id := c] == old(chans)[id := c];
        Leave(id);
      }
    }
  }

  // ---------------------------------------------------------------- one subscriber alone

  datatype Op =
    | Subscribe(task: TaskId, id: StreamId)
    | Publish(task: TaskId, ev: Event)
    | Cleanup(id: StreamId)
    | Turn(id: StreamId, wake: Wake)

  function Apply(b: State, op: Op): (r: State)
  {
    match op
    case Subscribe(task, id) => Subscribed(b, task, id)
    case Publish(task, ev) => Published(b, task, ev)
    case Cleanup(id) => Cleaned(b, id)
    case Turn(id, wake) => Turned(b, id, wake)
  }

  function After(ops: seq<Op>): (r: State)
  {
    if ops == [] then EMPTY else Apply(After(ops[..|ops| - 1]), ops[|ops| - 1])
  }

  /** Stream ids are never issued twice. */
  predicate FreshIds(ops: seq<Op>)
  {
    forall i, j :: 0 <= i < j < |ops| && ops[i].Subscribe? && ops[j].Subscribe? ==> ops[i].id != ops[j].id
  }

  /** What one subscriber should see, told without indexes or other subscribers: every event
      published to its task while it was live, which of them found 16 unread events waiting,
      how many it has received, and whether it is live and still reading. */
  datatype View =
    | Unborn
    | View(task: TaskId, live: bool, published: seq<Event>, lost: seq<bool>, taken: nat, reading: bool)

  predicate WellFormed(v: View)
  {
    v.View? ==> |v.lost| == |v.published| && v.taken <= |Kept(v.published, v.lost)| <= v.taken + CAPACITY
  }

  /** The events that were not lost, in order. */
  function Kept(events: seq<Event>, lost: seq<bool>): (r: seq<Event>)
    requires |lost| == |events|
  {
    if events == [] then []
    else
      var n := |events| - 1;
      var rest := Kept(events[..n], lost[..n]);
      if lost[n] then rest else rest + [events[n]]
  }

  function Unread(v: View): (r: nat)
    requires v.View? && WellFormed(v)
  {
    |Kept(v.published, v.lost)| - v.taken
  }

  function Watched(v: View, op: Op, id: StreamId): (r: View)
    requires WellFormed(v)
    ensures WellFormed(r)
  {
    match op
    case Subscribe(task, i) =>
      if i == id && task != "" && v.Unborn? then View(task, true, [], [], 0, true) else v
    case Publish(task, ev) =>
      if v.View? && v.live && v.task == task then
        KeptAppend(v.published, v.lost, ev, Unread(v) >= CAPACITY);
        v.(published := v.published + [ev], lost := v.lost + [Unread(v) >= CAPACITY], live := !IsDone(ev))
      else v
    case Cleanup(i) => if i == id && v.View? then v.(live := false) else v
    case Turn(i, wake) =>
      if !(i == id && v.View? && v.reading) then v
      else
        match wake
        case ClientGone => v.(live := false, reading := false)
        case IdlePing(written) => if written then v else v.(live := false, reading := false)
        case Next(written) =>
          if Unread(v) > 0 then
            var ends := !written || IsDone(Kept(v.published, v.lost)[v.taken]);
            v.(taken := v.taken + 1, live := v.live && !ends, reading := !ends)
          else if v.live then v
          else v.(reading := false)
  }

  lemma KeptAppend(events: seq<Event>, lost: seq<bool>, ev: Event, last: bool)
    requires |lost| == |events|
    ensures Kept(events + [ev], lost + [last]) == if last then Kept(events, lost) else Kept(events, lost) + [ev]
  {
    assert (events + [ev])[..|events|] == events && (lost + [last])[..|lost|] == lost;
  }

  function ViewOf(ops: seq<Op>, id: StreamId): (v: View)
    ensures WellFormed(v)
  {
    if ops == [] then Unborn else Watched(ViewOf(ops[..|ops| - 1], id), ops[|ops| - 1], id)
  }

  /** The broker's part for `id` is that subscriber's own view. */
  predicate Matches(b: State, id: StreamId, v: View)
    requires WellFormed(v)
  {
    match v
    case Unborn => id !in b.chans && id !in b.byStream
    case View(task, live, published, lost, taken, reading) =>
      && id in b.chans
      && b.chans[id] == Chan(Kept(published, lost), taken, if live then 0 else 1, reading)
      && (if live then id in b.byStream && b.byStream[id] == Sub(id, task) else id !in b.byStream)
  }

  /** Closing and unindexing others changes nothing for `id`. */
  lemma {:induction false} PublishMatches(b: State, task: TaskId, ev: Event, id: StreamId, v: View)
    requires TaskOk(b, task) && ChanOk(b, id) && WellFormed(v) && Matches(b, id, v)
    ensures Matches(Published(b, task, ev), id, Watched(v, Publish(task, ev), id))
  {
    var inner := InnerOf(b.byStream, task);
    if id in inner {
      KeptAppend(v.published, v.lost, ev, Unread(v) >= CAPACITY);
      assert v.View? && v.live && v.task == task;
      assert task in b.byTask && id in b.byTask[task];
    } else {
      assert !(v.View? && v.live && v.task == task);
      assert task in b.byTask ==> id !in b.byTask[task];
    }
  }

  lemma {:induction false} TurnMatches(b: State, i: StreamId, wake: Wake, id: StreamId, v: View)
    requires ChanOk(b, id) && WellFormed(v) && Matches(b, id, v)
    ensures Matches(Turned(b, i, wake), id, Watched(v, Turn(i, wake), id))
  {
  }

  lemma {:induction false} StepMatches(b: State, op: Op, id: StreamId, v: View)
    requires Agree(b) && WellFormed(v) && Matches(b, id, v)
    requires op.Subscribe? ==> op.id !in b.chans
    ensures Matches(Apply(b, op), id, Watched(v, op, id))
  {
    assert ChanOk(b, id);
    match op
    case Subscribe(task, i) =>
    case Publish(task, ev) =>
      assert TaskOk(b, task);
      PublishMatches(b, task, ev, id, v);
    case Cleanup(i) =>
    case Turn(i, wake) => TurnMatches(b, i, wake, id, v);
  }

  lemma {:induction false} StepAgrees(b: State, op: Op)
    requires Agree(b) && (op.Subscribe? ==> op.id !in b.chans)
    ensures Agree(Apply(b, op))
  {
    match op
    case Subscribe(task, id) => SubscribeAgrees(b, task, id);
    case Publish(task, ev) => PublishAgrees(b, task, ev);
    case Cleanup(id) => CleanupAgrees(b, id);
    case Turn(id, wake) => TurnAgrees(b, id, wake);
  }

  predicate Issued(ops: seq<Op>, id: StreamId)
  {
    exists i :: 0 <= i < |ops| && ops[i].Subscribe? && ops[i].id == id
  }

  lemma {:induction false} BornOnlyIfIssued(ops: seq<Op>, id: StreamId)
    requires ViewOf(ops, id).View?
    ensures Issued(ops, id)
  {
    var n := |ops| - 1;
    if ViewOf(ops[..n], id).View? {
      BornOnlyIfIssued(ops[..n], id);
      var i :| 0 <= i < n && ops[..n][i].Subscribe? && ops[..n][i].id == id;
      assert ops[i].Subscribe? && ops[i].id == id;
    } else {
      assert ops[n].Subscribe? && ops[n].id == id;
    }
  }

  /** The broker refines its subscribers, each taken alone. After any run the two indexes hold
      exactly the live subscriptions, each channel is open exactly when indexed and was closed
      at most once, and the queue of every subscriber is what it would be with no indexes, no
      other subscribers and no other tasks. */
  lemma {:induction false} RefinesSubscribers(ops: seq<Op>)
    requires FreshIds(ops)
    ensures Agree(After(ops))
    ensures forall id :: Matches(After(ops), id, ViewOf(ops, id))
  {
    if ops == [] {
      assert forall t :: InnerOf(EMPTY.byStream, t) == map[];
    } else {
      var n := |ops| - 1;
      RefinesSubscribers(ops[..n]);
      var b := After(ops[..n]);
      if ops[n].Subscribe? {
        assert Matches(b, ops[n].id, ViewOf(ops[..n], ops[n].id));
        if ViewOf(ops[..n], ops[n].id).View? {
          BornOnlyIfIssued(ops[..n], ops[n].id);
        }
      }
      StepAgrees(b, ops[n]);
      forall id
        ensures Matches(After(ops), id, ViewOf(ops, id))
      {
        assert Matches(b, id, ViewOf(ops[..n], id));
        StepMatches(b, ops[n], id, ViewOf(ops[..n], id));
      }
    }
  }

  // ---------------------------------------------------------------- what a subscriber gets

  /** `a` is `b` with some elements left out: the same order, nothing added. */
  predicate Subsequence(a: seq<Event>, b: seq<Event>)
  {
    if a == [] then true
    else if b == [] then false
    else if a[|a| - 1] == b[|b| - 1] && Subsequence(a[..|a| - 1], b[..|b| - 1]) then true
    else Subsequence(a, b[..|b| - 1])
  }

  lemma {:induction false} KeptIsSubsequence(events: seq<Event>, lost: seq<bool>)
    requires |lost| == |events|
    ensures Subsequence(Kept(events, lost), events)
  {
    if events != [] {
      var n := |events| - 1;
      KeptIsSubsequence(events[..n], lost[..n]);
      var rest := Kept(events[..n], lost[..n]);
      if !lost[n] {
        assert (rest + [events[n]])[..|rest|] == rest;
      }
    }
  }

  predicate NoneLost(lost: seq<bool>)
  {
    forall k :: 0 <= k < |lost| ==> !lost[k]
  }

  lemma {:induction false} KeptAll(events: seq<Event>, lost: seq<bool>)
    requires |lost| == |events|
    ensures |Kept(events, lost)| <= |events|
    ensures NoneLost(lost) ==> Kept(events, lost) == events
    ensures !NoneLost(lost) ==> |Kept(events, lost)| < |events|
  {
    if events != [] {
      var n := |events| - 1;
      KeptAll(events[..n], lost[..n]);
      assert NoneLost(lost) <==> NoneLost(lost[..n]) && !lost[n] by {
        assert forall k :: 0 <= k < n ==> lost[..n][k] == lost[k];
      }
      assert events[..n] + [events[n]] == events;
    }
  }

  /** Delivery. Whatever a subscriber was sent, and the part it has received, is what was
      published to its task while it was live, in order and without additions; and it is all
      of it if and only if its queue was never full at a publish. */
  lemma {:induction false} Delivery(ops: seq<Op>, id: StreamId)
    requires FreshIds(ops) && id in After(ops).chans
    ensures var v := ViewOf(ops, id);
      var c := After(ops).chans[id];
      && v.View?
      && Subsequence(c.sent, v.published)
      && c.taken <= |c.sent|
      && (c.sent == v.published <==> NoneLost(v.lost))
  {
    RefinesSubscribers(ops);
    assert Matches(After(ops), id, ViewOf(ops, id));
    KeptIsSubsequence(ViewOf(ops, id).published, ViewOf(ops, id).lost);
    KeptAll(ViewOf(ops, id).published, ViewOf(ops, id).lost);
  }

  /** The count Publish returns is the number of queues that grew: the reached queues take
      the event at their end, every other queue is as before. */
  lemma {:induction false} ReachedQueuesGrow(b: State, task: TaskId, ev: Event, id: StreamId)
    requires Agree(b) && id in b.chans
    ensures id in Published(b, task, ev).chans
    ensures Published(b, task, ev).chans[id].sent ==
      if id in Reached(b, task) then b.chans[id].sent + [ev] else b.chans[id].sent
  {
    assert TaskOk(b, task);
  }

  /** Wake-ups of `id` for the channel, which is ready once the subscription is over. */
  function TurnsNext(ops: seq<Op>, id: StreamId): (r: nat)
  {
    if ops == [] then 0
    else
      var last := ops[|ops| - 1];
      TurnsNext(ops[..|ops| - 1], id) + if last.Turn? && last.id == id && last.wake.Next? then 1 else 0
  }

  lemma {:induction false} DeadStep(v: View, op: Op, id: StreamId)
    requires WellFormed(v) && v.View? && !v.live
    ensures var v' := Watched(v, op, id);
      && v'.View? && !v'.live && v'.published == v.published && v'.lost == v.lost
      && v.taken <= v'.taken && (v'.reading ==> v.reading)
      && (v'.reading && op.Turn? && op.id == id && op.wake.Next? ==> v'.taken == v.taken + 1)
  {
  }

  /** A subscriber whose subscription is over reads at most what is queued, and ends. */
  lemma {:induction false} DeadSubscriberEnds(before: seq<Op>, later: seq<Op>, id: StreamId)
    requires ViewOf(before, id).View? && !ViewOf(before, id).live
    ensures var v, v' := ViewOf(before, id), ViewOf(before + later, id);
      && v'.View? && !v'.live
      && v'.published == v.published && v'.lost == v.lost
      && (v'.reading ==> TurnsNext(later, id) <= v'.taken - v.taken)
  {
    if later == [] {
      assert before + later == before;
    } else {
      var n := |later| - 1;
      assert (before + later)[..|before| + n] == before + later[..n];
      DeadSubscriberEnds(before, later[..n], id);
      DeadStep(ViewOf(before + later[..n], id), later[n], id);
    }
  }

  /** A `done` ends every subscriber of its task, also one whose queue had no room for the
      `done` itself: it is closed, and after as many more receives as events are queued, plus
      one, its loop has returned, whatever else happens in between. */
  lemma {:induction false} DoneEndsEverySubscriber(ops: seq<Op>, ev: Event, later: seq<Op>, id: StreamId)
    requires ViewOf(ops, id).View? && ViewOf(ops, id).live && IsDone(ev)
    requires FreshIds(ops + [Publish(ViewOf(ops, id).task, ev)] + later)
    ensures var done := ops + [Publish(ViewOf(ops, id).task, ev)];
      && id in After(done).chans && !After(done).chans[id].Open() && id !in After(done).byStream
      && id in After(done + later).chans
      && After(done + later).chans[id].sent == After(done).chans[id].sent
      && (TurnsNext(later, id) > |After(done).chans[id].sent| - After(done).chans[id].taken ==>
            !After(done + later).chans[id].reading)
  {
    var done := ops + [Publish(ViewOf(ops, id).task, ev)];
    assert done[..|ops|] == ops;
    assert (done + later)[..|done|] == done;
    RefinesSubscribers(done);
    RefinesSubscribers(done + later);
    assert Matches(After(done), id, ViewOf(done, id));
    assert Matches(After(done + later), id, ViewOf(done + later, id));
    DeadSubscriberEnds(done, later, id);
  }
}
