/**
 The broker with the lock released inside Publish (internal/a2a/sse.go:139-153): a `done` is two
 operations, and between them any other may run. The second works on the inner map the first
 one read, by reference, so inner maps have an identity here and are never reused.
 */
module BrokerGap {
  import opened Common
  import opened Broker

  type Ref = nat

  /** An inner map: the task it was made for and the streams it lists. */
  datatype SubMap = SubMap(task: TaskId, ids: set<StreamId>)

  /** A `done` that has read its task's map and not reaped it yet. */
  datatype Gap = Gap(task: TaskId, ref: Ref)

  /** `home` records which map each stream was put in; no operation reads it. */
  datatype World = World(
    byStream: map<StreamId, Sub>, byTask: map<TaskId, Ref>, inner: seq<SubMap>,
    chans: map<StreamId, Chan>, home: map<StreamId, Ref>, gaps: map<nat, Gap>, panicked: bool)

  const NEW := World(map[], map[], [], map[], map[], map[], false)

  /** Fresh ids are part of an operation; one that reuses an id does nothing. */
  datatype GapOp =
    | Join(task: TaskId, id: StreamId)
    | Begin(task: TaskId, ev: Event, g: nat)
    | Finish(g: nat)
    | Leave(id: StreamId)
    | Take(id: StreamId)

  // ---------------------------------------------------------------- the operations

  function Current(w: World, task: TaskId): (r: Option<Ref>)
    ensures r.Some? ==> r.value < |w.inner|
  {
    if task in w.byTask && w.byTask[task] < |w.inner| then Some(w.byTask[task]) else None
  }

  function Joined(w: World, task: TaskId, id: StreamId): (r: World)
  {
    if task == "" || id in w.chans then w
    else
      var ref := if Current(w, task).Some? then Current(w, task).value else |w.inner|;
      var inner := if Current(w, task).Some?
        then w.inner[ref := w.inner[ref].(ids := w.inner[ref].ids + {id})]
        else w.inner + [SubMap(task, {id})];
      w.(byStream := w.byStream[id := Sub(id, task)], byTask := w.byTask[task := ref], inner := inner,
         chans := w.chans[id := Chan([], 0, 0, true)], home := w.home[id := ref])
  }

  /** Some channel the map lists is closed already. */
  predicate Stale(w: World, ref: Ref)
  {
    ref < |w.inner| && exists id :: id in w.inner[ref].ids && id in w.chans && !w.chans[id].Open()
  }

  /** The first half: fan out under the lock, and for a `done` remember the map. A send on a
      closed channel panics. */
  function Begun(w: World, task: TaskId, ev: Event, g: nat): (r: World)
  {
    if Current(w, task).None? || (IsDone(ev) && g in w.gaps) then w
    else
      var ref := Current(w, task).value;
      if Stale(w, ref) then w.(panicked := true)
      else
        w.(chans := Offered(w.chans, w.inner[ref].ids, ev),
           gaps := if IsDone(ev) then w.gaps[g := Gap(task, ref)] else w.gaps)
  }

  /** The second half: close and unindex what the map lists by now, and drop the task's entry,
      whichever map it holds. Closing a closed channel panics. */
  function Finished(w: World, g: nat): (r: World)
  {
    if g !in w.gaps || w.gaps[g].ref >= |w.inner| then w
    else
      var gap := w.gaps[g];
      var ids := w.inner[gap.ref].ids;
      if Stale(w, gap.ref) then w.(panicked := true)
      else
        w.(byStream := w.byStream - ids, byTask := w.byTask - {gap.task},
           inner := w.inner[gap.ref := w.inner[gap.ref].(ids := {})],
           chans := Closed(w.chans, ids), gaps := w.gaps - {g})
  }

  function LeftBy(w: World, id: StreamId): (r: World)
  {
    if id !in w.byStream then w
    else
      var task := w.byStream[id].taskID;
      var w' := w.(byStream := w.byStream - {id}, chans := Closed(w.chans, {id}));
      match Current(w, task)
      case None => w'
      case Some(ref) =>
        var rest := w.inner[ref].ids - {id};
        w'.(inner := w.inner[ref := w.inner[ref].(ids := rest)],
            byTask := if rest == {} then w.byTask - {task} else w.byTask)
  }

  function Taken(w: World, id: StreamId): (r: World)
  {
    if id in w.chans && w.chans[id].taken < |w.chans[id].sent| then
      w.(chans := w.chans[id := w.chans[id].(taken := w.chans[id].taken + 1)])
    else w
  }

  function Apply(w: World, op: GapOp): (r: World)
  {
    if w.panicked then w
    else match op
      case Join(task, id) => Joined(w, task, id)
      case Begin(task, ev, g) => Begun(w, task, ev, g)
      case Finish(g) => Finished(w, g)
      case Leave(id) => LeftBy(w, id)
      case Take(id) => Taken(w, id)
  }

  /** The state after the first `n` operations of a run from `w`. */
  function After(w: World, ops: seq<GapOp>, n: nat): (r: World)
    requires n <= |ops|
  {
    if n == 0 then w else Apply(After(w, ops, n - 1), ops[n - 1])
  }

  /** The same for a run of the broker from its start. */
  function At(ops: seq<GapOp>, n: nat): (r: World)
    requires n <= |ops|
  {
    After(NEW, ops, n)
  }

  // ---------------------------------------------------------------- as the broker's state

  function InnerMap(w: World, ids: set<StreamId>): (m: Inner)
  {
    map id | id in ids && id in w.byStream :: w.byStream[id]
  }

  /** The indexes as the one-operation model has them. */
  function Abs(w: World): (b: State)
  {
    State(w.byStream,
          map t | t in w.byTask && w.byTask[t] < |w.inner| :: InnerMap(w, w.inner[w.byTask[t]].ids),
          w.chans)
  }

  /** A live stream whose map is not its task's map: listed by stream, not by task. */
  predicate Orphan(w: World, id: StreamId)
  {
    && id in w.byStream && id in w.home
    && !(w.byStream[id].taskID in w.byTask && w.byTask[w.byStream[id].taskID] == w.home[id])
  }

  predicate NoOrphans(w: World)
  {
    forall id :: id in w.byStream ==> !Orphan(w, id)
  }

  // ---------------------------------------------------------------- what every operation keeps

  /** One stream: open exactly when indexed by stream, and while live listed in its own map. */
  predicate StreamOk(w: World, id: StreamId)
  {
    && (id in w.byStream ==> id in w.chans)
    && (id in w.chans ==>
          var c := w.chans[id];
          && id in w.home && w.home[id] < |w.inner|
          && c.closes <= 1 && (c.Open() <==> id in w.byStream)
          && c.taken <= |c.sent| <= c.taken + CAPACITY)
    && (id in w.byStream ==>
          w.byStream[id] == Sub(id, w.inner[w.home[id]].task) && id in w.inner[w.home[id]].ids)
  }

  /** One map: it lists only streams that were put in it. */
  predicate MapOk(w: World, ref: Ref)
    requires ref < |w.inner|
  {
    && w.inner[ref].task != ""
    && forall id :: id in w.inner[ref].ids ==> id in w.chans && id in w.home && w.home[id] == ref
  }

  /** One task: its map was made for it, is not empty and lists only live streams. */
  predicate EntryOk(w: World, task: TaskId)
  {
    task in w.byTask ==>
      var ref := w.byTask[task];
      && ref < |w.inner| && w.inner[ref].task == task && w.inner[ref].ids != {}
      && forall id :: id in w.inner[ref].ids ==> id in w.byStream
  }

  predicate GapOk(w: World, g: nat)
  {
    g in w.gaps ==> w.gaps[g].ref < |w.inner| && w.inner[w.gaps[g].ref].task == w.gaps[g].task
  }

  ghost predicate Inv(w: World)
  {
    && (forall id :: StreamOk(w, id))
    && (forall ref: nat :: ref < |w.inner| ==> MapOk(w, ref))
    && (forall t :: EntryOk(w, t))
    && (forall g :: GapOk(w, g))
  }

  lemma {:induction false} JoinKeeps(w: World, task: TaskId, id: StreamId)
    requires Inv(w)
    ensures Inv(Joined(w, task, id))
  {
    if task != "" && id !in w.chans {
      var w' := Joined(w, task, id);
      assert EntryOk(w, task) && StreamOk(w, id);
      forall i ensures StreamOk(w', i) {
        assert StreamOk(w, i);
      }
      forall ref: nat | ref < |w'.inner| ensures MapOk(w', ref) {
        assert ref < |w.inner| ==> MapOk(w, ref);
      }
      forall t ensures EntryOk(w', t) {
        assert EntryOk(w, t);
      }
      forall g ensures GapOk(w', g) {
        assert GapOk(w, g);
      }
    }
  }

  lemma {:induction false} BeginKeeps(w: World, task: TaskId, ev: Event, g: nat)
    requires Inv(w)
    ensures Inv(Begun(w, task, ev, g))
  {
    var w' := Begun(w, task, ev, g);
    assert EntryOk(w, task);
    forall i ensures StreamOk(w', i) {
      assert StreamOk(w, i);
    }
    forall ref: nat | ref < |w'.inner| ensures MapOk(w', ref) {
      assert MapOk(w, ref);
    }
    forall t ensures EntryOk(w', t) {
      assert EntryOk(w, t);
    }
    forall h ensures GapOk(w', h) {
      assert GapOk(w, h);
    }
  }

  lemma {:induction false} FinishKeeps(w: World, g: nat)
    requires Inv(w)
    ensures Inv(Finished(w, g))
  {
    var w' := Finished(w, g);
    if g in w.gaps {
      assert GapOk(w, g) && MapOk(w, w.gaps[g].ref);
    }
    forall i ensures StreamOk(w', i) {
      assert StreamOk(w, i);
    }
    forall ref: nat | ref < |w'.inner| ensures MapOk(w', ref) {
      assert MapOk(w, ref);
    }
    forall t ensures EntryOk(w', t) {
      assert EntryOk(w, t);
      FinishKeepsEntry(w, g, t);
    }
    forall h ensures GapOk(w', h) {
      assert GapOk(w, h);
    }
  }

  lemma {:induction false} FinishKeepsEntry(w: World, g: nat, t: TaskId)
    requires Inv(w) && EntryOk(w, t)
    ensures EntryOk(Finished(w, g), t)
  {
    if g in w.gaps && t in w.byTask {
      assert GapOk(w, g);
      assert MapOk(w, w.gaps[g].ref) && MapOk(w, w.byTask[t]);
    }
  }

  lemma {:induction false} LeaveKeeps(w: World, id: StreamId)
    requires Inv(w)
    ensures Inv(LeftBy(w, id))
  {
    if id in w.byStream {
      var w' := LeftBy(w, id);
      assert StreamOk(w, id) && EntryOk(w, w.byStream[id].taskID);
      forall i ensures StreamOk(w', i) {
        LeaveKeepsStream(w, id, i);
      }
      forall ref: nat | ref < |w'.inner| ensures MapOk(w', ref) {
        assert MapOk(w, ref);
      }
      forall t ensures EntryOk(w', t) {
        LeaveKeepsEntry(w, id, t);
      }
      forall g ensures GapOk(w', g) {
        assert GapOk(w, g);
      }
    }
  }

  lemma {:induction false} LeaveKeepsStream(w: World, id: StreamId, i: StreamId)
    requires Inv(w) && id in w.byStream
    ensures StreamOk(LeftBy(w, id), i)
  {
    assert StreamOk(w, id) && StreamOk(w, i) && EntryOk(w, w.byStream[id].taskID);
  }

  lemma {:induction false} LeaveKeepsEntry(w: World, id: StreamId, t: TaskId)
    requires Inv(w) && id in w.byStream
    ensures EntryOk(LeftBy(w, id), t)
  {
    var task := w.byStream[id].taskID;
    assert StreamOk(w, id) && EntryOk(w, task) && EntryOk(w, t);
    if t in w.byTask {
      assert MapOk(w, w.byTask[t]);
    }
  }

  lemma {:induction false} TakeKeeps(w: World, id: StreamId)
    requires Inv(w)
    ensures Inv(Taken(w, id))
  {
    var w' := Taken(w, id);
    forall i ensures StreamOk(w', i) {
      assert StreamOk(w, i) && StreamOk(w, id);
    }
    forall ref: nat | ref < |w'.inner| ensures MapOk(w', ref) {
      assert MapOk(w, ref);
    }
    forall t ensures EntryOk(w', t) {
      assert EntryOk(w, t);
    }
    forall g ensures GapOk(w', g) {
      assert GapOk(w, g);
    }
  }

  /** Every operation keeps the invariant, gaps or no gaps. */
  lemma {:induction false} StepKeeps(w: World, op: GapOp)
    requires Inv(w)
    ensures Inv(Apply(w, op))
  {
    match op
    case Join(task, id) => JoinKeeps(w, task, id);
    case Begin(task, ev, g) => BeginKeeps(w, task, ev, g);
    case Finish(g) => FinishKeeps(w, g);
    case Leave(id) => LeaveKeeps(w, id);
    case Take(id) => TakeKeeps(w, id);
  }

  lemma {:induction false} RunKeeps(w: World, ops: seq<GapOp>, n: nat)
    requires Inv(w) && n <= |ops|
    ensures Inv(After(w, ops, n))
  {
    if n > 0 {
      RunKeeps(w, ops, n - 1);
      StepKeeps(After(w, ops, n - 1), ops[n - 1]);
    }
  }

  // ---------------------------------------------------------------- agreement and orphans

  /** The indexes agree if and only if there is no orphan. */
  lemma {:induction false} AgreeMeansNoOrphans(w: World)
    requires Inv(w)
    ensures Agree(Abs(w)) <==> NoOrphans(w)
  {
    var b := Abs(w);
    forall id ensures ChanOk(b, id) {
      assert StreamOk(w, id);
    }
    if NoOrphans(w) {
      forall t ensures TaskOk(b, t) {
        EntryIsInner(w, t);
      }
    }
    if Agree(b) {
      forall id | id in w.byStream ensures !Orphan(w, id) {
        var t := w.byStream[id].taskID;
        assert TaskOk(b, t) && StreamOk(w, id) && EntryOk(w, t);
        assert id in InnerOf(b.byStream, t);
        assert id in b.byTask[t];
        assert MapOk(w, w.byTask[t]);
      }
    }
  }

  lemma {:induction false} EntryIsInner(w: World, t: TaskId)
    requires Inv(w) && NoOrphans(w)
    ensures TaskOk(Abs(w), t)
  {
    var b, inner := Abs(w), InnerOf(w.byStream, t);
    assert EntryOk(w, t);
    forall id | id in w.byStream && w.byStream[id].taskID == t
      ensures t in w.byTask && id in w.inner[w.byTask[t]].ids
    {
      assert StreamOk(w, id) && !Orphan(w, id);
    }
    if t in w.byTask {
      var ids := w.inner[w.byTask[t]].ids;
      forall id | id in ids ensures id in w.byStream && w.byStream[id].taskID == t {
        assert StreamOk(w, id) && MapOk(w, w.byTask[t]);
      }
      assert b.byTask[t] == inner;
      var id :| id in ids;
      assert id in inner;
    } else {
      EmptyByKeys(inner);
      assert forall id :: id !in inner.Keys;
    }
  }

  /** The task's map is not the one the gap read. */
  predicate Recreated(w: World, g: nat)
  {
    g in w.gaps && w.gaps[g].task in w.byTask && w.byTask[w.gaps[g].task] != w.gaps[g].ref
  }

  /** The stream is listed in the map that took the place of the one the gap read. */
  predicate InNewMap(w: World, g: nat, id: StreamId)
  {
    && Recreated(w, g)
    && Current(w, w.gaps[g].task).Some?
    && id in w.inner[Current(w, w.gaps[g].task).value].ids
  }

  /** Finishing the gap goes through: nothing it has to close is closed already. */
  predicate Goes(w: World, g: nat)
  {
    g in w.gaps && !Stale(w, w.gaps[g].ref)
  }

  /** Who becomes an orphan: exactly the streams of a map that a `done` unindexes although it
      read an older one. */
  lemma {:induction false} OrphanedExactly(w: World, op: GapOp, id: StreamId)
    requires Inv(w) && !w.panicked && id in Apply(w, op).byStream
    ensures Orphan(Apply(w, op), id) <==>
      Orphan(w, id) || (op.Finish? && Goes(w, op.g) && InNewMap(w, op.g, id))
  {
    assert StreamOk(w, id);
    if id in w.byStream {
      assert EntryOk(w, w.byStream[id].taskID);
    }
    match op
    case Finish(g) => FinishOrphans(w, g, id);
    case Leave(i) => LeaveOrphans(w, i, id);
    case Join(_, _) =>
    case Begin(_, _, _) =>
    case Take(_) =>
  }

  lemma {:induction false} FinishOrphans(w: World, g: nat, id: StreamId)
    requires Inv(w) && id in Finished(w, g).byStream
    ensures Orphan(Finished(w, g), id) <==> Orphan(w, id) || (Goes(w, g) && InNewMap(w, g, id))
  {
    assert StreamOk(w, id) && EntryOk(w, w.byStream[id].taskID);
    if g in w.gaps {
      var t := w.gaps[g].task;
      assert GapOk(w, g) && EntryOk(w, t);
      if t in w.byTask {
        assert MapOk(w, w.byTask[t]);
      }
    }
  }

  lemma {:induction false} LeaveOrphans(w: World, i: StreamId, id: StreamId)
    requires Inv(w) && id in LeftBy(w, i).byStream
    ensures Orphan(LeftBy(w, i), id) <==> Orphan(w, id)
  {
    assert StreamOk(w, id) && StreamOk(w, i);
    if i in w.byStream {
      assert EntryOk(w, w.byStream[i].taskID) && EntryOk(w, w.byStream[id].taskID);
    }
  }

  // ---------------------------------------------------------------- over whole runs

  lemma NewInv()
    ensures Inv(NEW) && NoOrphans(NEW) && Tidy(NEW)
  {
  }

  /** No map lists a stream that is gone. */
  predicate Tidy(w: World)
  {
    forall ref: nat :: ref < |w.inner| ==> !Stale(w, ref)
  }

  lemma {:induction false} TidyKept(w: World, op: GapOp)
    requires Inv(w) && Tidy(w) && NoOrphans(w) && !w.panicked
    requires op.Finish? ==> !Recreated(w, op.g)
    ensures Tidy(Apply(w, op)) && NoOrphans(Apply(w, op)) && !Apply(w, op).panicked
  {
    var w' := Apply(w, op);
    StepKeeps(w, op);
    forall id | id in w'.byStream ensures !Orphan(w', id) {
      assert StreamOk(w, id);
      OrphanedExactly(w, op, id);
    }
    forall ref: nat | ref < |w'.inner| ensures !Stale(w', ref) {
      TidyMap(w, op, ref);
    }
  }

  lemma {:induction false} TidyMap(w: World, op: GapOp, ref: Ref)
    requires Inv(w) && Tidy(w) && NoOrphans(w) && !w.panicked && ref < |Apply(w, op).inner|
    ensures !Stale(Apply(w, op), ref)
  {
    var w' := Apply(w, op);
    forall id | id in w'.inner[ref].ids && id in w'.chans
      ensures w'.chans[id].Open()
    {
      assert StreamOk(w, id);
      if ref < |w.inner| {
        assert MapOk(w, ref) && !Stale(w, ref);
      }
      match op
      case Leave(i) => TidyLeave(w, i, ref, id);
      case Finish(g) => TidyFinish(w, g, ref, id);
      case _ =>
    }
  }

  lemma {:induction false} TidyLeave(w: World, i: StreamId, ref: Ref, id: StreamId)
    requires Inv(w) && NoOrphans(w) && ref < |w.inner| && !Stale(w, ref)
    requires id in LeftBy(w, i).inner[ref].ids && id in LeftBy(w, i).chans
    ensures LeftBy(w, i).chans[id].Open()
  {
    assert StreamOk(w, id) && MapOk(w, ref);
    if id in w.byStream {
      assert !Orphan(w, id) && EntryOk(w, w.byStream[id].taskID);
    }
  }

  lemma {:induction false} TidyFinish(w: World, g: nat, ref: Ref, id: StreamId)
    requires Inv(w) && ref < |w.inner| && !Stale(w, ref)
    requires id in Finished(w, g).inner[ref].ids && id in Finished(w, g).chans
    ensures Finished(w, g).chans[id].Open()
  {
    assert StreamOk(w, id) && MapOk(w, ref);
    if g in w.gaps {
      assert GapOk(w, g) && MapOk(w, w.gaps[g].ref);
    }
  }

  /** Some `done` of the run finishes after its task's map was re-created. */
  predicate FinishesLate(ops: seq<GapOp>, n: nat)
    requires n < |ops|
  {
    ops[n].Finish? && Recreated(At(ops, n), ops[n].g)
  }

  predicate NoneLate(ops: seq<GapOp>)
  {
    forall n: nat :: n < |ops| ==> !FinishesLate(ops, n)
  }

  ghost predicate AgreesThroughout(ops: seq<GapOp>)
  {
    forall n: nat :: n <= |ops| ==> Agree(Abs(At(ops, n)))
  }

  lemma AtNext(ops: seq<GapOp>, n: nat)
    requires 0 < n <= |ops|
    ensures At(ops, n) == Apply(At(ops, n - 1), ops[n - 1])
  {
  }

  lemma RunInv(ops: seq<GapOp>, n: nat)
    requires n <= |ops|
    ensures Inv(At(ops, n))
  {
    NewInv();
    RunKeeps(NEW, ops, n);
  }

  lemma RunStream(ops: seq<GapOp>, n: nat, id: StreamId)
    requires n <= |ops|
    ensures StreamOk(At(ops, n), id)
  {
    RunInv(ops, n);
  }

  lemma {:induction false} TidyUntil(ops: seq<GapOp>, n: nat)
    requires n <= |ops| && forall k: nat :: k < n ==> !FinishesLate(ops, k)
    ensures Inv(At(ops, n)) && Tidy(At(ops, n)) && NoOrphans(At(ops, n)) && !At(ops, n).panicked
  {
    if n == 0 {
      NewInv();
    } else {
      TidyUntil(ops, n - 1);
      assert !FinishesLate(ops, n - 1);
      StepKeeps(At(ops, n - 1), ops[n - 1]);
      TidyKept(At(ops, n - 1), ops[n - 1]);
    }
  }

  /** A late finish after none orphans every stream of the new map. */
  lemma {:induction false} LateFinishBreaks(ops: seq<GapOp>, n: nat)
    requires n < |ops| && FinishesLate(ops, n) && forall k: nat :: k < n ==> !FinishesLate(ops, k)
    ensures !Agree(Abs(At(ops, n + 1)))
  {
    TidyUntil(ops, n);
    var w, g := At(ops, n), ops[n].g;
    var t := w.gaps[g].task;
    assert EntryOk(w, t) && GapOk(w, g) && MapOk(w, w.gaps[g].ref) && MapOk(w, w.byTask[t]);
    var id :| id in w.inner[w.byTask[t]].ids;
    assert id !in w.inner[w.gaps[g].ref].ids;
    FinishOrphans(w, g, id);
    StepKeeps(w, ops[n]);
    AgreeMeansNoOrphans(At(ops, n + 1));
  }

  lemma {:induction false} FirstLate(ops: seq<GapOp>, n: nat) returns (m: nat)
    requires n < |ops| && FinishesLate(ops, n)
    ensures m <= n && FinishesLate(ops, m) && forall k: nat :: k < m ==> !FinishesLate(ops, k)
  {
    if k: nat :| k < n && FinishesLate(ops, k) {
      m := FirstLate(ops, k);
    } else {
      m := n;
    }
  }

  /** Over all runs: the two indexes agree throughout if and only if no `done` finishes after
      its task's map was re-created inside its gap. Such a run never panics either. */
  lemma {:induction false} AgreesExactly(ops: seq<GapOp>)
    ensures AgreesThroughout(ops) <==> NoneLate(ops)
    ensures NoneLate(ops) ==> !At(ops, |ops|).panicked
  {
    if NoneLate(ops) {
      forall n: nat | n <= |ops| ensures Agree(Abs(At(ops, n))) && !At(ops, n).panicked {
        TidyUntil(ops, n);
        AgreeMeansNoOrphans(At(ops, n));
      }
    } else {
      var n: nat :| n < |ops| && FinishesLate(ops, n);
      var m := FirstLate(ops, n);
      LateFinishBreaks(ops, m);
    }
  }

  /** The operation makes a map for a task that has none. */
  predicate Makes(w: World, op: GapOp, task: TaskId)
  {
    op.Join? && op.task == task && task != "" && op.id !in w.chans && task !in w.byTask && !w.panicked
  }

  predicate MakesMap(ops: seq<GapOp>, k: nat, task: TaskId)
    requires k < |ops|
  {
    Makes(At(ops, k), ops[k], task)
  }

  /** Gap `g` is opened by operation `i` and not finished before `n`. */
  predicate GapOpen(ops: seq<GapOp>, i: nat, n: nat, g: nat)
    requires i < n <= |ops|
  {
    && g in At(ops, n).gaps
    && if n == i + 1 then ops[i].Begin? && ops[i].g == g && g !in At(ops, i).gaps else GapOpen(ops, i, n - 1, g)
  }

  lemma {:induction false} EntryMoves(w: World, op: GapOp, t: TaskId)
    requires !w.panicked && (t in w.byTask ==> w.byTask[t] < |w.inner|)
    ensures var w' := Apply(w, op);
      t in w'.byTask ==>
        if t in w.byTask then w'.byTask[t] == w.byTask[t] else Makes(w, op, t) && w'.byTask[t] == |w.inner|
    ensures |w.inner| <= |Apply(w, op).inner|
  {
  }

  /** What a gap opened before `w` still holds in the later `v`, where `made` says whether a map
      was made for its task meanwhile. */
  predicate Held(w: World, v: World, g: nat, made: bool)
  {
    && g in w.gaps && g in v.gaps && v.gaps[g] == w.gaps[g] && w.gaps[g].ref < |w.inner| <= |v.inner|
    && var t := w.gaps[g].task;
       t in v.byTask ==> if made then |w.inner| <= v.byTask[t] < |v.inner| else v.byTask[t] == w.gaps[g].ref
  }

  lemma {:induction false} HeldFirst(w: World, task: TaskId, ev: Event, g: nat)
    requires Inv(w) && g !in w.gaps && g in Apply(w, Begin(task, ev, g)).gaps
    ensures var v := Apply(w, Begin(task, ev, g)); Held(v, v, g, false)
  {
    assert EntryOk(w, task);
  }

  lemma {:induction false} HeldNext(w: World, v: World, op: GapOp, v': World, g: nat, made: bool)
    requires Held(w, v, g, made) && v' == Apply(v, op) && g in v'.gaps
    ensures Held(w, v', g, made || Makes(v, op, w.gaps[g].task))
  {
    GapStays(v, op, g);
    if !v.panicked {
      EntryMoves(v, op, w.gaps[g].task);
    }
  }

  lemma {:induction false} GapStays(w: World, op: GapOp, g: nat)
    requires g in w.gaps && g in Apply(w, op).gaps
    ensures Apply(w, op).gaps[g] == w.gaps[g]
  {
  }

  /** Some operation after `i` and before `n` makes a map for the task. */
  predicate MadeBetween(ops: seq<GapOp>, i: nat, n: nat, task: TaskId)
    requires n <= |ops|
  {
    i + 1 < n && (MadeBetween(ops, i, n - 1, task) || MakesMap(ops, n - 1, task))
  }

  lemma {:induction false} MadeBetweenMeans(ops: seq<GapOp>, i: nat, n: nat, task: TaskId)
    requires n <= |ops|
    ensures MadeBetween(ops, i, n, task) <==> exists k: nat :: i < k < n && MakesMap(ops, k, task)
  {
    if i + 1 < n {
      MadeBetweenMeans(ops, i, n - 1, task);
    }
  }

  /** The gap that operation `i` opened still holds what it read after `n` operations. */
  predicate HeldFrom(ops: seq<GapOp>, i: nat, n: nat, g: nat)
    requires i < n <= |ops|
  {
    var w := At(ops, i + 1);
    g in w.gaps && Held(w, At(ops, n), g, MadeBetween(ops, i, n, w.gaps[g].task))
  }

  lemma {:induction false} GapOpens(ops: seq<GapOp>, i: nat, g: nat)
    requires i < |ops| && GapOpen(ops, i, i + 1, g)
    ensures HeldFrom(ops, i, i + 1, g)
  {
    RunInv(ops, i);
    HeldFirst(At(ops, i), ops[i].task, ops[i].ev, g);
  }

  /** What a gap read, and which maps are made after it. */
  lemma {:induction false} InsideGap(ops: seq<GapOp>, i: nat, n: nat, g: nat)
    requires i < n <= |ops| && GapOpen(ops, i, n, g)
    ensures HeldFrom(ops, i, n, g)
    decreases n
  {
    if n == i + 1 {
      GapOpens(ops, i, g);
    } else {
      InsideGap(ops, i, n - 1, g);
      var w := At(ops, i + 1);
      AtNext(ops, n);
      HeldNext(w, At(ops, n - 1), ops[n - 1], At(ops, n), g, MadeBetween(ops, i, n - 1, w.gaps[g].task));
    }
  }

  /** What "re-created inside the gap" means: the task has a map at the finish, and some
      operation between the two halves made a map for it. */
  lemma {:induction false} RecreatedInside(ops: seq<GapOp>, i: nat, n: nat, g: nat)
    requires i < n <= |ops| && GapOpen(ops, i, n, g)
    ensures var t := At(ops, n).gaps[g].task;
      Recreated(At(ops, n), g) <==>
        t in At(ops, n).byTask && exists k: nat :: i < k < n && MakesMap(ops, k, t)
  {
    InsideGap(ops, i, n, g);
    MadeBetweenMeans(ops, i, n, At(ops, n).gaps[g].task);
  }

  // ---------------------------------------------------------------- what becomes of an orphan

  /** No task's map lists the stream. */
  predicate Unlisted(w: World, id: StreamId)
  {
    id in w.chans && forall t :: t in w.byTask && w.byTask[t] < |w.inner| ==> id !in w.inner[w.byTask[t]].ids
  }

  lemma {:induction false} OrphanUnlisted(w: World, id: StreamId)
    requires Inv(w) && id in w.byStream && Orphan(w, id)
    ensures Unlisted(w, id)
  {
    assert StreamOk(w, id);
    forall t | t in w.byTask && w.byTask[t] < |w.inner| ensures id !in w.inner[w.byTask[t]].ids {
      assert EntryOk(w, t) && MapOk(w, w.byTask[t]);
    }
  }

  lemma {:induction false} UnlistedJoined(w: World, task: TaskId, i: StreamId, id: StreamId)
    requires Unlisted(w, id)
    ensures Unlisted(Joined(w, task, i), id) && Joined(w, task, i).chans[id].sent == w.chans[id].sent
  {
  }

  lemma {:induction false} UnlistedBegun(w: World, task: TaskId, ev: Event, g: nat, id: StreamId)
    requires Unlisted(w, id)
    ensures Unlisted(Begun(w, task, ev, g), id) && Begun(w, task, ev, g).chans[id].sent == w.chans[id].sent
  {
  }

  lemma {:induction false} UnlistedFinished(w: World, g: nat, id: StreamId)
    requires Unlisted(w, id)
    ensures Unlisted(Finished(w, g), id) && Finished(w, g).chans[id].sent == w.chans[id].sent
  {
  }

  lemma {:induction false} UnlistedLeftBy(w: World, i: StreamId, id: StreamId)
    requires Unlisted(w, id)
    ensures Unlisted(LeftBy(w, i), id) && LeftBy(w, i).chans[id].sent == w.chans[id].sent
  {
  }

  lemma {:induction false} UnlistedNext(w: World, v: World, op: GapOp, v': World, id: StreamId)
    requires Unlisted(v, id) && id in w.chans && v.chans[id].sent == w.chans[id].sent && v' == Apply(v, op)
    ensures Unlisted(v', id) && v'.chans[id].sent == w.chans[id].sent
  {
    match op
    case Join(task, i) => UnlistedJoined(v, task, i, id);
    case Begin(task, ev, g) => UnlistedBegun(v, task, ev, g, id);
    case Finish(g) => UnlistedFinished(v, g, id);
    case Leave(i) => UnlistedLeftBy(v, i, id);
    case Take(_) =>
  }

  lemma {:induction false} StaysUnlisted(w: World, ops: seq<GapOp>, n: nat, id: StreamId)
    requires n <= |ops| && Unlisted(w, id)
    ensures Unlisted(After(w, ops, n), id) && After(w, ops, n).chans[id].sent == w.chans[id].sent
  {
    if n > 0 {
      StaysUnlisted(w, ops, n - 1, id);
      UnlistedNext(w, After(w, ops, n - 1), ops[n - 1], After(w, ops, n), id);
    }
  }

  /** An orphan is in the index by stream and not in the index by task, and whatever happens
      later it is never sent another event, also not a `done`. */
  lemma {:induction false} OrphanIsSilent(w: World, ops: seq<GapOp>, n: nat, id: StreamId)
    requires n <= |ops| && Inv(w) && id in w.byStream && Orphan(w, id)
    ensures forall t :: t in Abs(w).byTask ==> id !in Abs(w).byTask[t]
    ensures id in w.chans && id in After(w, ops, n).chans && After(w, ops, n).chans[id].sent == w.chans[id].sent
  {
    OrphanUnlisted(w, id);
    StaysUnlisted(w, ops, n, id);
  }

  /** The only panic: a `done` finishes on a map that lists a stream which has left since it was
      orphaned, and closes its channel again. */
  lemma {:induction false} PanicsExactly(ops: seq<GapOp>, n: nat, op: GapOp)
    requires n <= |ops| && !At(ops, n).panicked
    ensures var w := At(ops, n);
      Apply(w, op).panicked <==> op.Finish? && op.g in w.gaps && Stale(w, w.gaps[op.g].ref)
  {
    RunInv(ops, n);
    var w := At(ops, n);
    if op.Begin? {
      assert EntryOk(w, op.task);
      if op.task in w.byTask {
        forall id | id in w.inner[w.byTask[op.task]].ids ensures id in w.chans ==> w.chans[id].Open() {
          assert StreamOk(w, id);
        }
      }
    }
    if op.Finish? {
      assert GapOk(w, op.g);
    }
  }

  // ---------------------------------------------------------------- without a gap

  /** Back to back, the two halves are the one operation of the broker, and nothing panics. */
  lemma {:induction false} BackToBack(w: World, task: TaskId, ev: Event, g: nat)
    requires Inv(w) && !w.panicked && g !in w.gaps
    ensures var w' := Apply(w, Begin(task, ev, g));
      && !w'.panicked
      && (IsDone(ev) ==> !Apply(w', Finish(g)).panicked)
      && Abs(if IsDone(ev) then Apply(w', Finish(g)) else w') == Published(Abs(w), task, ev)
  {
    assert EntryOk(w, task);
    if task in w.byTask {
      NotStale(w, task);
      BeginKeeps(w, task, ev, g);
      BeginIsFanOut(w, task, ev, g);
      assert Abs(w).byTask[task].Keys == w.inner[w.byTask[task]].ids;
      if IsDone(ev) {
        NotStale(Begun(w, task, ev, g), task);
        FinishIsReap(Begun(w, task, ev, g), task, g);
      }
    }
  }

  lemma {:induction false} NotStale(w: World, task: TaskId)
    requires Inv(w) && task in w.byTask
    ensures w.byTask[task] < |w.inner| && !Stale(w, w.byTask[task])
    ensures forall id :: id in w.inner[w.byTask[task]].ids ==> id in w.byStream
  {
    assert EntryOk(w, task);
    forall id | id in w.inner[w.byTask[task]].ids ensures id in w.chans && w.chans[id].Open() {
      assert StreamOk(w, id);
    }
  }

  lemma {:induction false} BeginIsFanOut(w: World, task: TaskId, ev: Event, g: nat)
    requires Inv(w) && g !in w.gaps && task in w.byTask && !Stale(w, w.byTask[task])
    ensures EntryOk(w, task) && w.byTask[task] < |w.inner|
    ensures Abs(Begun(w, task, ev, g)) ==
      Abs(w).(chans := Offered(Abs(w).chans, w.inner[w.byTask[task]].ids, ev))
  {
    assert EntryOk(w, task);
  }

  lemma {:induction false} FinishIsReap(w: World, task: TaskId, g: nat)
    requires Inv(w) && g in w.gaps && task in w.byTask && w.gaps[g] == Gap(task, w.byTask[task])
    ensures EntryOk(w, task) && w.byTask[task] < |w.inner| && !Stale(w, w.byTask[task])
    ensures Abs(Finished(w, g)) == Reaped(Abs(w), task, w.inner[w.byTask[task]].ids)
  {
    NotStale(w, task);
    var ref := w.byTask[task];
    var ids := w.inner[ref].ids;
    var w' := Finished(w, g);
    forall t | t in w'.byTask
      ensures w.byTask[t] != ref && w.byTask[t] < |w.inner|
      ensures InnerMap(w', w'.inner[w'.byTask[t]].ids) == InnerMap(w, w.inner[w.byTask[t]].ids)
    {
      assert EntryOk(w, t) && EntryOk(w, task) && MapOk(w, w.byTask[t]) && MapOk(w, ref);
    }
    assert Abs(w').byTask == Reaped(Abs(w), task, ids).byTask;
  }

  // ---------------------------------------------------------------- what is delivered

  /** The operation publishes an event that is put in the stream's queue: the stream is live, of
      the event's task and no orphan, and its queue has room. */
  predicate Reaches(w: World, op: GapOp, id: StreamId)
  {
    && op.Begin? && !w.panicked && !(IsDone(op.ev) && op.g in w.gaps)
    && id in w.byStream && w.byStream[id].taskID == op.task && !Orphan(w, id)
    && id in w.chans && w.chans[id].HasRoom()
  }

  /** One operation sends a stream the event that reaches it, or nothing. */
  lemma {:induction false} SentByStep(w: World, op: GapOp, id: StreamId)
    requires Inv(w) && id in w.chans
    ensures id in Apply(w, op).chans
    ensures Apply(w, op).chans[id].sent == w.chans[id].sent + if Reaches(w, op, id) then [op.ev] else []
  {
    if op.Begin? {
      BeginSends(w, op.task, op.ev, op.g, id);
    }
  }

  lemma {:induction false} BeginSends(w: World, task: TaskId, ev: Event, g: nat, id: StreamId)
    requires Inv(w) && id in w.chans
    ensures var w' := Apply(w, Begin(task, ev, g));
      && id in w'.chans
      && w'.chans[id].sent == w.chans[id].sent + if Reaches(w, Begin(task, ev, g), id) then [ev] else []
  {
    assert StreamOk(w, id) && EntryOk(w, task);
    if task in w.byTask {
      assert MapOk(w, w.byTask[task]);
      NotStale(w, task);
    }
  }

  /** The events of the first `n` operations that reach a stream, in order. */
  function ReachedBy(ops: seq<GapOp>, n: nat, id: StreamId): (evs: seq<Event>)
    requires n <= |ops|
  {
    if n == 0 then []
    else
      ReachedBy(ops, n - 1, id) + if Reaches(At(ops, n - 1), ops[n - 1], id) then [ops[n - 1].ev] else []
  }

  /** Over all runs: a stream has been sent exactly the events of its task that were published
      while it was live and no orphan and had room, in that order. */
  lemma {:induction false} SentExactly(ops: seq<GapOp>, n: nat, id: StreamId)
    requires n <= |ops|
    ensures if id in At(ops, n).chans then At(ops, n).chans[id].sent == ReachedBy(ops, n, id)
            else ReachedBy(ops, n, id) == []
  {
    if n > 0 {
      SentExactly(ops, n - 1, id);
      RunInv(ops, n - 1);
      SentOrNew(At(ops, n - 1), ops[n - 1], id);
    }
  }

  lemma {:induction false} SentOrNew(w: World, op: GapOp, id: StreamId)
    requires Inv(w)
    ensures var w' := Apply(w, op);
      && (id in w.chans ==>
            && id in w'.chans
            && w'.chans[id].sent == w.chans[id].sent + if Reaches(w, op, id) then [op.ev] else [])
      && (id !in w.chans ==> !Reaches(w, op, id) && (id in w'.chans ==> w'.chans[id].sent == []))
  {
    if id in w.chans {
      SentByStep(w, op, id);
    } else if op.Begin? {
      assert EntryOk(w, op.task);
    }
  }

  /** A `done` that finishes has closed every stream its map lists by then, once. */
  lemma {:induction false} FinishCloses(w: World, g: nat, id: StreamId)
    requires Inv(w) && !w.panicked && Goes(w, g)
    ensures GapOk(w, g)
    ensures !Apply(w, Finish(g)).panicked
    ensures id in w.inner[w.gaps[g].ref].ids ==>
      var w' := Apply(w, Finish(g)); id in w'.chans && w'.chans[id].closes == 1 && id !in w'.byStream
  {
    assert GapOk(w, g) && MapOk(w, w.gaps[g].ref) && StreamOk(w, id);
  }

  /** A stream known in `w` has kept its map in the later `v`, and is only indexed if it was. */
  predicate Settled(w: World, v: World, id: StreamId)
  {
    && id in v.chans && id in w.home && id in v.home && v.home[id] == w.home[id]
    && (id in v.byStream ==> id in w.byStream && v.byStream[id] == w.byStream[id])
  }

  lemma {:induction false} SettledNext(w: World, v: World, op: GapOp, v': World, id: StreamId)
    requires Settled(w, v, id) && v' == Apply(v, op)
    ensures Settled(w, v', id)
  {
  }

  lemma {:induction false} StaysSettled(ops: seq<GapOp>, i: nat, n: nat, id: StreamId)
    requires i <= n <= |ops| && id in At(ops, i).chans
    ensures Settled(At(ops, i), At(ops, n), id)
    decreases n
  {
    if i == n {
      RunStream(ops, i, id);
    } else {
      StaysSettled(ops, i, n - 1, id);
      SettledNext(At(ops, i), At(ops, n - 1), ops[n - 1], At(ops, n), id);
    }
  }

  /** A stream live at a `done` of its task is open after the finish if and only if it was an
      orphan at the `done` and is live still, and if and only if it is an orphan after it. */
  lemma {:induction false} LiveAtDone(ops: seq<GapOp>, i: nat, n: nat, g: nat, id: StreamId)
    requires i < n < |ops| && GapOpen(ops, i, n, g) && ops[i].Begin? && ops[n] == Finish(g)
    requires !At(ops, n).panicked && Goes(At(ops, n), g)
    requires id in At(ops, i).byStream && At(ops, i).byStream[id].taskID == ops[i].task
    ensures id in At(ops, n + 1).chans
    ensures At(ops, n + 1).chans[id].Open() <==> Orphan(At(ops, i), id) && id in At(ops, n).byStream
    ensures At(ops, n + 1).chans[id].Open() <==> Orphan(At(ops, n + 1), id)
  {
    RunStream(ops, i, id);
    RunInv(ops, n);
    StaysSettled(ops, i, n, id);
    GapHolds(ops, i, n, g);
    OutWithItsMap(At(ops, n), g, id);
  }

  /** Until it finishes, a gap holds the map its task had when it was opened. */
  lemma {:induction false} GapHolds(ops: seq<GapOp>, i: nat, n: nat, g: nat)
    requires i < n <= |ops| && GapOpen(ops, i, n, g) && ops[i].Begin?
    ensures g in At(ops, n).gaps
    ensures ops[i].task in At(ops, i).byTask
    ensures At(ops, n).gaps[g] == Gap(ops[i].task, At(ops, i).byTask[ops[i].task])
  {
    InsideGap(ops, i, n, g);
    OpenedBy(ops, i, n, g);
  }

  lemma {:induction false} OpenedBy(ops: seq<GapOp>, i: nat, n: nat, g: nat)
    requires i < n <= |ops| && GapOpen(ops, i, n, g)
    ensures ops[i].Begin? && ops[i].g == g && g !in At(ops, i).gaps && g in At(ops, n).gaps
    decreases n
  {
    if n > i + 1 {
      OpenedBy(ops, i, n - 1, g);
    }
  }

  /** Which streams of its task a finishing `done` leaves open. */
  lemma {:induction false} OutWithItsMap(w: World, g: nat, id: StreamId)
    requires Inv(w) && !w.panicked && Goes(w, g) && id in w.chans
    requires id in w.byStream ==> w.byStream[id].taskID == w.gaps[g].task
    ensures var w' := Apply(w, Finish(g));
      && id in w.home && id in w'.chans
      && (w'.chans[id].Open() <==> id in w.byStream && w.home[id] != w.gaps[g].ref)
      && (w'.chans[id].Open() <==> Orphan(w', id))
  {
    assert StreamOk(w, id) && GapOk(w, g) && MapOk(w, w.gaps[g].ref);
  }

  // ---------------------------------------------------------------- runs that go wrong

  /** One stream has read its `done` and left; its map is empty and a gap still holds it. */
  function Emptied(task: TaskId, id: StreamId, ev: Event): (w: World)
  {
    World(map[], map[], [SubMap(task, {})], map[id := Chan([ev], 0, 1, true)], map[id := 0],
          map[0 := Gap(task, 0)], false)
  }

  /** The task has a second map, with one stream that was sent `sent`. */
  function Renewed(task: TaskId, id: StreamId, other: StreamId, ev: Event, sent: seq<Event>, gaps: map<nat, Gap>)
    : (w: World)
  {
    World(map[other := Sub(other, task)], map[task := 1], [SubMap(task, {}), SubMap(task, {other})],
          map[id := Chan([ev], 0, 1, true), other := Chan(sent, 0, 0, true)], map[id := 0, other := 1], gaps, false)
  }

  lemma {:induction false} EmptyingSteps(task: TaskId, id: StreamId, ev: Event)
    requires task != "" && IsDone(ev)
    ensures Apply(Apply(Apply(NEW, Join(task, id)), Begin(task, ev, 0)), Leave(id)) == Emptied(task, id, ev)
  {
    var a := World(map[id := Sub(id, task)], map[task := 0], [SubMap(task, {id})],
                   map[id := Chan([], 0, 0, true)], map[id := 0], map[], false);
    assert Joined(NEW, task, id) == a;
    var b := a.(chans := map[id := Chan([ev], 0, 0, true)], gaps := map[0 := Gap(task, 0)]);
    assert Begun(a, task, ev, 0) == b by {
      assert [] + [ev] == [ev];
    }
    assert LeftBy(b, id) == Emptied(task, id, ev) by {
      assert {id} - {id} == {};
    }
  }

  /** A run whose first four operations empty a map inside a gap and make another one. */
  predicate Renews(ops: seq<GapOp>, task: TaskId, id: StreamId, other: StreamId, ev: Event)
  {
    && task != "" && id != other && IsDone(ev) && |ops| >= 4
    && ops[0] == Join(task, id) && ops[1] == Begin(task, ev, 0) && ops[2] == Leave(id) && ops[3] == Join(task, other)
  }

  lemma {:induction false} RenewsInGap(ops: seq<GapOp>, task: TaskId, id: StreamId, other: StreamId, ev: Event)
    requires Renews(ops, task, id, other, ev)
    ensures At(ops, 4) == Renewed(task, id, other, ev, [], map[0 := Gap(task, 0)])
  {
    AtNext(ops, 1);
    AtNext(ops, 2);
    AtNext(ops, 3);
    AtNext(ops, 4);
    EmptyingSteps(task, id, ev);
    RenewingStep(task, id, other, ev);
  }

  lemma {:induction false} RenewingStep(task: TaskId, id: StreamId, other: StreamId, ev: Event)
    requires task != "" && id != other
    ensures Apply(Emptied(task, id, ev), Join(task, other)) == Renewed(task, id, other, ev, [], map[0 := Gap(task, 0)])
  {
    assert [SubMap(task, {})] + [SubMap(task, {other})] == [SubMap(task, {}), SubMap(task, {other})];
  }

  /** The last subscriber leaves inside the gap and another joins: it becomes an orphan. */
  lemma {:induction false} OrphanRun(task: TaskId, id: StreamId, other: StreamId, ev: Event)
    requires task != "" && id != other && IsDone(ev)
    ensures var w := At([Join(task, id), Begin(task, ev, 0), Leave(id), Join(task, other), Finish(0)], 5);
      && !w.panicked && other in w.byStream && Orphan(w, other) && task !in w.byTask && !Agree(Abs(w))
  {
    var ops := [Join(task, id), Begin(task, ev, 0), Leave(id), Join(task, other), Finish(0)];
    RenewsInGap(ops, task, id, other, ev);
    AtNext(ops, 5);
    OrphaningStep(task, id, other, ev);
    RunInv(ops, 5);
    AgreeMeansNoOrphans(At(ops, 5));
  }

  lemma {:induction false} OrphaningStep(task: TaskId, id: StreamId, other: StreamId, ev: Event)
    requires id != other
    ensures var w := Apply(Renewed(task, id, other, ev, [], map[0 := Gap(task, 0)]), Finish(0));
      !w.panicked && other in w.byStream && Orphan(w, other) && task !in w.byTask
  {
  }

  /** The state once the first of two `done`s has orphaned the stream the second has read. */
  lemma {:induction false} FirstOfTwo(ops: seq<GapOp>, task: TaskId, id: StreamId, other: StreamId, ev: Event)
    requires Renews(ops, task, id, other, ev) && |ops| >= 6 && ops[4] == Begin(task, ev, 1) && ops[5] == Finish(0)
    ensures At(ops, 6) == Renewed(task, id, other, ev, [ev], map[]).(byTask := map[], gaps := map[1 := Gap(task, 1)])
  {
    RenewsInGap(ops, task, id, other, ev);
    AtNext(ops, 5);
    AtNext(ops, 6);
    SecondGap(task, id, other, ev);
    FirstFinishes(task, id, other, ev);
  }

  /** Two `done`s at once: the orphaned stream leaves, and the second closes its channel again. */
  lemma {:induction false} DoubleCloseRun(task: TaskId, id: StreamId, other: StreamId, ev: Event)
    requires task != "" && id != other && IsDone(ev)
    ensures At([Join(task, id), Begin(task, ev, 0), Leave(id), Join(task, other),
                Begin(task, ev, 1), Finish(0), Leave(other), Finish(1)], 8).panicked
  {
    var ops := [Join(task, id), Begin(task, ev, 0), Leave(id), Join(task, other),
                Begin(task, ev, 1), Finish(0), Leave(other), Finish(1)];
    FirstOfTwo(ops, task, id, other, ev);
    RunInv(ops, 6);
    LeavesItsMap(At(ops, 6), other);
    AtNext(ops, 7);
    AtNext(ops, 8);
  }

  lemma {:induction false} SecondGap(task: TaskId, id: StreamId, other: StreamId, ev: Event)
    requires task != "" && id != other && IsDone(ev)
    ensures Begun(Renewed(task, id, other, ev, [], map[0 := Gap(task, 0)]), task, ev, 1)
      == Renewed(task, id, other, ev, [ev], map[0 := Gap(task, 0), 1 := Gap(task, 1)])
  {
    assert [] + [ev] == [ev];
  }

  lemma {:induction false} FirstFinishes(task: TaskId, id: StreamId, other: StreamId, ev: Event)
    requires task != "" && id != other
    ensures var a := Renewed(task, id, other, ev, [ev], map[0 := Gap(task, 0), 1 := Gap(task, 1)]);
      Finished(a, 0) == a.(byTask := map[], gaps := map[1 := Gap(task, 1)])
  {
    var a := Renewed(task, id, other, ev, [ev], map[0 := Gap(task, 0), 1 := Gap(task, 1)]);
    assert Finished(a, 0).chans == a.chans && Finished(a, 0).inner == a.inner;
  }

  /** An orphan that leaves stays listed in its own map. */
  lemma {:induction false} LeavesItsMap(w: World, id: StreamId)
    requires Inv(w) && id in w.byStream && Orphan(w, id)
    ensures id in LeftBy(w, id).chans && Stale(LeftBy(w, id), w.home[id])
  {
    var w' := LeftBy(w, id);
    assert StreamOk(w, id) && EntryOk(w, w.byStream[id].taskID);
    assert id in w'.inner[w.home[id]].ids && !w'.chans[id].Open();
  }
}
