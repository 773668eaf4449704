/** Child runners of the iogrid server (cmd/iogrid/main.go): a tracker per child, cancel calls,
    the auth timeout sweep and the shutdown, all changing the same records under one lock. */
module RunnerLifecycle {
  import opened Common

  type Id = string
  type Time = int

  datatype RunnerState = Running | Completed | Failed | Canceled | AuthRequired

  /** How the child ended, as `cmd.Wait` reports it: success, an exit error with a code (-1 when
      a signal ended it), or some other error. */
  datatype Outcome = Success | ExitError(code: int) | WaitError

  const AUTH_REQUIRED_EXIT: int := 4

  /** Ten minutes, in nanoseconds. */
  const AUTH_TIMEOUT: int := 600_000_000_000

  /** One runner: `completedAt` is None while it is Go's zero time, `doneCloses` counts the
      closes of its `done` channel. */
  datatype Info = Info(state: RunnerState, exitCode: Option<int>, completedAt: Option<Time>, doneCloses: nat)

  const STARTED := Info(Running, None, None, 0)

  // ---------------------------------------------------------------- the operations as functions

  function ExitCodeOf(outcome: Outcome): (r: int)
  {
    match outcome
    case Success => 0
    case ExitError(code) => code
    case WaitError => -1
  }

  function StateAfter(outcome: Outcome): (r: RunnerState)
  {
    if outcome.Success? then Completed
    else if ExitCodeOf(outcome) == AUTH_REQUIRED_EXIT then AuthRequired
    else Failed
  }

  function Tracked(info: Info, outcome: Outcome, now: Time): (r: Info)
  {
    var done := info.(completedAt := Some(now), doneCloses := info.doneCloses + 1);
    if info.state == Canceled then done
    else done.(state := StateAfter(outcome), exitCode := Some(ExitCodeOf(outcome)))
  }

  function CanceledNow(info: Info): (r: Info)
  {
    if info.state == Running then info.(state := Canceled) else info
  }

  predicate TimedOut(info: Info, now: Time)
  {
    info.state == AuthRequired && info.completedAt.Some? && info.completedAt.value <= now - AUTH_TIMEOUT
  }

  function SweptInfo(info: Info, now: Time): (r: Info)
  {
    if TimedOut(info, now) then info.(state := Failed) else info
  }

  function Swept(infos: map<Id, Info>, now: Time): (r: map<Id, Info>)
  {
    map id | id in infos :: SweptInfo(infos[id], now)
  }

  function RunningIds(infos: map<Id, Info>): (r: set<Id>)
  {
    set id | id in infos && infos[id].state == Running
  }

  // ---------------------------------------------------------------- the code

  class RunnerInfo {
    var state: RunnerState
    var exitCode: Option<int>
    var completedAt: Option<Time>
    var doneCloses: nat

    function Value(): (r: Info)
      reads this
    {
      Info(state, exitCode, completedAt, doneCloses)
    }

    constructor ()
      ensures Value() == STARTED
    {
      state := Running;
      exitCode := None;
      completedAt := None;
      doneCloses := 0;
    }

    /** The locked part of trackRunner, once the child has ended. A second close would panic. */
    method Track(outcome: Outcome, now: Time)
      requires doneCloses == 0
      modifies this
      ensures Value() == Tracked(old(Value()), outcome, now)
    {
      completedAt := Some(now);
      if state == Canceled {
        doneCloses := doneCloses + 1;
        return;
      }
      if outcome.Success? {
        state := Completed;
        exitCode := Some(0);
      } else {
        var code := -1;
        if outcome.ExitError? {
          code := outcome.code;
        }
        exitCode := Some(code);
        if code == AUTH_REQUIRED_EXIT {
          state := AuthRequired;
        } else {
          state := Failed;
        }
      }
      doneCloses := doneCloses + 1;
    }
  }

  class Server {
    var runners: map<Id, RunnerInfo>

    /** Every id has a record of its own. */
    ghost predicate Valid()
      reads this
    {
      forall i, j :: i in runners && j in runners && i != j ==> runners[i] != runners[j]
    }

    ghost function Value(): (r: map<Id, Info>)
      reads this, set id | id in runners :: runners[id]
    {
      map id | id in runners :: runners[id].Value()
    }

    constructor ()
      ensures Valid() && Value() == map[]
    {
      runners := map[];
    }

    /** Registration of a started child under a fresh id. */
    method SpawnRunner(id: Id) returns (info: RunnerInfo)
      requires Valid() && id !in runners
      modifies this
      ensures Valid() && fresh(info) && runners == old(runners)[id := info]
      ensures Value() == old(Value())[id := STARTED]
    {
      info := new RunnerInfo();
      runners := runners[id := info];
    }

    /** The locked part of cancelRunner. */
    method BeginCancel(id: Id) returns (found: bool)
      requires Valid()
      modifies if id in runners then {runners[id]} else {}
      ensures Valid() && runners == old(runners)
      ensures found <==> id in old(Value()) && old(Value())[id].state == Running
      ensures Value() == if found then old(Value())[id := CanceledNow(old(Value())[id])] else old(Value())
    {
      if id !in runners || runners[id].state != Running {
        return false;
      }
      runners[id].state := Canceled;
      return true;
    }

    method AuthTimeoutSweep(now: Time)
      requires Valid()
      modifies set id | id in runners :: runners[id]
      ensures Valid() && runners == old(runners) && Value() == Swept(old(Value()), now)
    {
      var ids := runners.Keys;
      while ids != {}
        invariant ids <= runners.Keys
        invariant forall id :: id in ids ==> runners[id].Value() == old(runners[id].Value())
        invariant forall id :: id in runners && id !in ids ==>
                    runners[id].Value() == SweptInfo(old(runners[id].Value()), now)
        decreases ids
      {
        var id :| id in ids;
        var info := runners[id];
        ids := ids - {id};
        if info.state != AuthRequired {
          continue;
        }
        if info.completedAt.None? || info.completedAt.value > now - AUTH_TIMEOUT {
          continue;
        }
        info.state := Failed;
      }
    }

    /** The snapshot killAll takes under the lock. */
    method SnapshotRunning() returns (ids: seq<Id>)
      requires Valid()
      ensures (set id | id in ids) == RunningIds(Value())
      ensures forall i, j :: 0 <= i < j < |ids| ==> ids[i] != ids[j]
    {
      ids := [];
      var left := runners.Keys;
      while left != {}
        invariant left <= runners.Keys
        invariant forall id :: id in ids <==> id in runners && id !in left && runners[id].state == Running
        invariant forall i, j :: 0 <= i < j < |ids| ==> ids[i] != ids[j]
        decreases left
      {
        var id :| id in left;
        if runners[id].state == Running {
          ids := ids + [id];
        }
        left := left - {id};
      }
    }
  }

  // ---------------------------------------------------------------- every interleaving

  /** A cancel call that found its runner running: it has marked it, and waits for `done`. */
  datatype Cancel = Cancel(id: Id, sigkill: bool, returned: bool)

  /** The shutdown: its snapshot of running ids, how many it is past, and the cancel call it
      is inside of. */
  datatype Shutdown = NotStarted | Killing(ids: seq<Id>, past: nat, inside: Option<nat>)
  {
    predicate Pending() { Killing? && past < |ids| }
  }

  /** `tracking` are the runners whose tracker has not finished, `exited` the children that
      ended. */
  datatype State = State(
    infos: map<Id, Info>, tracking: set<Id>, exited: map<Id, Outcome>, cancels: seq<Cancel>, shutdown: Shutdown)

  const INIT := State(map[], {}, map[], [], NotStarted)

  datatype Step =
    | Spawn(id: Id)
    | ChildExits(id: Id, outcome: Outcome)
    | Track(id: Id, now: Time)
    | CancelFinds(id: Id)
    | CancelMisses(id: Id)
    | GraceOver(c: nat)
    | CancelReturns(c: nat)
    | Sweep(now: Time)
    | KillAll(ids: seq<Id>)
    | KillNextFinds
    | KillNextMisses
    | KillReturns

  predicate DoneClosed(s: State, id: Id)
  {
    id in s.infos && s.infos[id].doneCloses > 0
  }

  predicate RunningNow(s: State, id: Id)
  {
    id in s.infos && s.infos[id].state == Running
  }

  predicate Enabled(s: State, step: Step)
  {
    match step
    case Spawn(id) => id !in s.infos
    case ChildExits(id, outcome) => id in s.infos && id !in s.exited && outcome != ExitError(0)
    case Track(id, _) => id in s.tracking && id in s.exited && id in s.infos
    case CancelFinds(id) => RunningNow(s, id)
    case CancelMisses(id) => !RunningNow(s, id)
    case GraceOver(c) => c < |s.cancels| && !s.cancels[c].returned && !DoneClosed(s, s.cancels[c].id)
    case CancelReturns(c) => c < |s.cancels| && !s.cancels[c].returned && DoneClosed(s, s.cancels[c].id)
    case Sweep(_) => true
    case KillAll(ids) =>
      && s.shutdown.NotStarted? && (set id | id in ids) == RunningIds(s.infos)
      && forall i, j :: 0 <= i < j < |ids| ==> ids[i] != ids[j]
    case KillNextFinds =>
      s.shutdown.Pending() && s.shutdown.inside.None? && RunningNow(s, s.shutdown.ids[s.shutdown.past])
    case KillNextMisses =>
      s.shutdown.Pending() && s.shutdown.inside.None? && !RunningNow(s, s.shutdown.ids[s.shutdown.past])
    case KillReturns =>
      && s.shutdown.Pending() && s.shutdown.inside.Some? && s.shutdown.inside.value < |s.cancels|
      && s.cancels[s.shutdown.inside.value].returned
  }

  /** A cancel call marks its runner and starts waiting. */
  function Marked(s: State, id: Id): (r: State)
    requires id in s.infos
  {
    s.(infos := s.infos[id := CanceledNow(s.infos[id])], cancels := s.cancels + [Cancel(id, false, false)])
  }

  function Next(s: State, step: Step): (r: State)
    requires Enabled(s, step)
  {
    match step
    case Spawn(id) => s.(infos := s.infos[id := STARTED], tracking := s.tracking + {id})
    case ChildExits(id, outcome) => s.(exited := s.exited[id := outcome])
    case Track(id, now) =>
      s.(infos := s.infos[id := Tracked(s.infos[id], s.exited[id], now)], tracking := s.tracking - {id})
    case CancelFinds(id) => Marked(s, id)
    case CancelMisses(id) => s
    case GraceOver(c) => s.(cancels := s.cancels[c := s.cancels[c].(sigkill := true)])
    case CancelReturns(c) => s.(cancels := s.cancels[c := s.cancels[c].(returned := true)])
    case Sweep(now) => s.(infos := Swept(s.infos, now))
    case KillAll(ids) => s.(shutdown := Killing(ids, 0, None))
    case KillNextFinds =>
      Marked(s, s.shutdown.ids[s.shutdown.past]).(shutdown := s.shutdown.(inside := Some(|s.cancels|)))
    case KillNextMisses => s.(shutdown := s.shutdown.(past := s.shutdown.past + 1))
    case KillReturns => s.(shutdown := s.shutdown.(past := s.shutdown.past + 1, inside := None))
  }

  predicate IsRun(s: State, steps: seq<Step>)
    decreases |steps|
  {
    steps == [] || (Enabled(s, steps[0]) && IsRun(Next(s, steps[0]), steps[1..]))
  }

  function After(s: State, steps: seq<Step>): (r: State)
    requires IsRun(s, steps)
    decreases |steps|
  {
    if steps == [] then s else After(Next(s, steps[0]), steps[1..])
  }

  // ---------------------------------------------------------------- what every step keeps

  /** A waiting cancel call for `id`. */
  predicate WaitedFor(s: State, id: Id)
  {
    exists c :: 0 <= c < |s.cancels| && s.cancels[c].id == id && !s.cancels[c].returned
  }

  /** One record. `done` is closed exactly once and exactly when the completion time is set;
      there is an exit code exactly when it is done and was not canceled, and the state is the
      one the code calls for. */
  predicate InfoOk(info: Info)
  {
    && info.doneCloses == (if info.completedAt.Some? then 1 else 0)
    && (info.exitCode.Some? <==> info.completedAt.Some? && info.state != Canceled)
    && match info.state
       case Running => info.completedAt.None?
       case Completed => info.exitCode == Some(0)
       case AuthRequired => info.exitCode == Some(AUTH_REQUIRED_EXIT)
       case Failed => info.exitCode.Some? && info.exitCode != Some(0)
       case Canceled => true
  }

  predicate RecordOk(s: State, id: Id)
    requires id in s.infos
  {
    && InfoOk(s.infos[id])
    && (id in s.tracking <==> s.infos[id].doneCloses == 0)
    && (id in s.exited ==> s.exited[id] != ExitError(0))
    && (s.infos[id].state == Canceled && s.infos[id].doneCloses == 0 ==> WaitedFor(s, id))
  }

  predicate CancelOk(s: State, c: nat)
    requires c < |s.cancels|
  {
    var cancel := s.cancels[c];
    && cancel.id in s.infos
    && s.infos[cancel.id].state == Canceled
    && (cancel.returned ==> s.infos[cancel.id].doneCloses == 1)
  }

  /** Runners the shutdown is past are not running. */
  ghost predicate ShutdownOk(s: State)
  {
    s.shutdown.Killing? ==>
      var k := s.shutdown;
      && k.past <= |k.ids|
      && (forall i :: 0 <= i < |k.ids| ==> k.ids[i] in s.infos)
      && (forall i :: 0 <= i < k.past ==> !RunningNow(s, k.ids[i]))
      && (k.inside.Some? ==>
            k.past < |k.ids| && k.inside.value < |s.cancels| && s.cancels[k.inside.value].id == k.ids[k.past])
  }

  ghost predicate Inv(s: State)
  {
    && s.tracking <= s.infos.Keys && s.exited.Keys <= s.infos.Keys
    && (forall id :: id in s.infos ==> RecordOk(s, id))
    && (forall c: nat :: c < |s.cancels| ==> CancelOk(s, c))
    && (forall c: nat, d: nat :: c < d < |s.cancels| ==> s.cancels[c].id != s.cancels[d].id)
    && ShutdownOk(s)
  }

  /** The moves a record may make: running ends in one of four ways, auth-required may fail. */
  predicate Allowed(from: RunnerState, to: RunnerState)
  {
    || from == to
    || from == Running
    || (from == AuthRequired && to == Failed)
  }

  lemma {:induction false} RecordKept(s: State, step: Step, id: Id)
    requires Inv(s) && Enabled(s, step) && id in Next(s, step).infos
    ensures RecordOk(Next(s, step), id)
    ensures id in s.infos ==> Allowed(s.infos[id].state, Next(s, step).infos[id].state)
  {
    var s' := Next(s, step);
    if id in s.infos {
      assert RecordOk(s, id);
      if s'.infos[id].state == Canceled && s'.infos[id].doneCloses == 0 {
        if s.infos[id].state == Canceled {
          var c :| 0 <= c < |s.cancels| && s.cancels[c].id == id && !s.cancels[c].returned;
          assert s'.cancels[c].id == id && !s'.cancels[c].returned;
        } else {
          assert s'.cancels[|s.cancels|].id == id;
        }
      }
    }
  }

  lemma {:induction false} CancelKept(s: State, step: Step, c: nat)
    requires Inv(s) && Enabled(s, step) && c < |Next(s, step).cancels|
    ensures CancelOk(Next(s, step), c)
  {
    if c < |s.cancels| {
      assert CancelOk(s, c) && RecordOk(s, s.cancels[c].id);
    }
  }

  lemma {:induction false} ShutdownKept(s: State, step: Step)
    requires Inv(s) && Enabled(s, step)
    ensures ShutdownOk(Next(s, step))
  {
    if step.KillAll? {
      forall i | 0 <= i < |step.ids|
        ensures step.ids[i] in s.infos
      {
        assert step.ids[i] in RunningIds(s.infos);
      }
    } else if s.shutdown.Killing? {
      var ids := s.shutdown.ids;
      if step.KillReturns? {
        assert CancelOk(s, s.shutdown.inside.value);
      }
      forall i | 0 <= i < |ids|
        ensures RunningNow(Next(s, step), ids[i]) ==> RunningNow(s, ids[i])
      {
        RecordKept(s, step, ids[i]);
      }
    }
  }

  lemma {:induction false} CancelsKeptApart(s: State, step: Step)
    requires Inv(s) && Enabled(s, step)
    ensures forall c: nat, d: nat :: c < d < |Next(s, step).cancels| ==>
      Next(s, step).cancels[c].id != Next(s, step).cancels[d].id
  {
    forall c: nat | c < |s.cancels|
      ensures s.cancels[c].id in s.infos && s.infos[s.cancels[c].id].state == Canceled
    {
      assert CancelOk(s, c);
    }
  }

  lemma {:induction false} StepKeeps(s: State, step: Step)
    requires Inv(s) && Enabled(s, step)
    ensures Inv(Next(s, step))
  {
    var s' := Next(s, step);
    forall id | id in s'.infos
      ensures RecordOk(s', id)
    {
      RecordKept(s, step, id);
    }
    forall c: nat | c < |s'.cancels|
      ensures CancelOk(s', c)
    {
      CancelKept(s, step, c);
    }
    CancelsKeptApart(s, step);
    ShutdownKept(s, step);
  }

  lemma {:induction false} RunKeeps(s: State, steps: seq<Step>)
    requires Inv(s) && IsRun(s, steps)
    ensures Inv(After(s, steps))
    decreases |steps|
  {
    if steps != [] {
      StepKeeps(s, steps[0]);
      RunKeeps(Next(s, steps[0]), steps[1..]);
    }
  }

  // ---------------------------------------------------------------- the promises

  /** Which step moves a record, and where to: the end of its child unless it was canceled, a
      cancel call that finds it running, and a sweep ten minutes or more after an
      auth-required completion; nothing else. */
  lemma {:induction false} WhoMoves(s: State, step: Step, id: Id)
    requires Inv(s) && Enabled(s, step) && id in s.infos
    ensures id in Next(s, step).infos
    ensures var was, now := s.infos[id], Next(s, step).infos[id];
      && (was.state != now.state <==>
            || (step.Track? && step.id == id && was.state == Running)
            || (was.state == Running
                && (step == CancelFinds(id) || (step.KillNextFinds? && s.shutdown.ids[s.shutdown.past] == id)))
            || (step.Sweep? && was.state == AuthRequired && step.now - was.completedAt.value >= AUTH_TIMEOUT))
      && (was.state != now.state ==>
            match step
            case Track(_, _) => now.state == StateAfter(s.exited[id]) && now.exitCode == Some(ExitCodeOf(s.exited[id]))
            case Sweep(_) => now.state == Failed && now.exitCode == was.exitCode
            case _ => now.state == Canceled)
      && (was.completedAt != now.completedAt <==> step.Track? && step.id == id)
  {
    assert RecordOk(s, id);
  }

  /** A record over a whole run: it moves only along the allowed moves, and once `done` is
      closed its completion time and exit code are final. */
  lemma {:induction false} RecordOverRun(s: State, steps: seq<Step>, id: Id)
    requires Inv(s) && IsRun(s, steps) && id in s.infos
    ensures id in After(s, steps).infos
    ensures var was, now := s.infos[id], After(s, steps).infos[id];
      && InfoOk(now) && Allowed(was.state, now.state)
      && (was.doneCloses == 1 ==> now == was.(state := now.state))
    decreases |steps|
  {
    if steps == [] {
      assert RecordOk(s, id);
    } else {
      var s' := Next(s, steps[0]);
      StepKeeps(s, steps[0]);
      RecordKept(s, steps[0], id);
      WhoMoves(s, steps[0], id);
      assert RecordOk(s, id);
      RecordOverRun(s', steps[1..], id);
    }
  }

  /** Every reachable record is in order: `done` closed once, exactly when the completion time
      is set; an exit code exactly when done and not canceled. */
  lemma {:induction false} RecordsInOrder(steps: seq<Step>)
    requires IsRun(INIT, steps)
    ensures forall id :: id in After(INIT, steps).infos ==> InfoOk(After(INIT, steps).infos[id])
  {
    RunKeeps(INIT, steps);
    var s := After(INIT, steps);
    forall id | id in s.infos ensures InfoOk(s.infos[id]) {
      assert RecordOk(s, id);
    }
  }

  /** A cancel that found the runner running returns only after `done`: then the runner is
      canceled for good, with a completion time and no exit code. A runner is canceled by one
      cancel call only, and until it is done that call is waiting. */
  lemma {:induction false} CancelJoins(steps: seq<Step>)
    requires IsRun(INIT, steps)
    ensures var s := After(INIT, steps);
      && (forall c: nat :: c < |s.cancels| ==>
            && s.cancels[c].id in s.infos
            && s.infos[s.cancels[c].id].state == Canceled && s.infos[s.cancels[c].id].exitCode.None?
            && (s.cancels[c].returned ==>
                  s.infos[s.cancels[c].id].completedAt.Some? && s.infos[s.cancels[c].id].doneCloses == 1))
      && (forall c: nat, d: nat :: c < d < |s.cancels| ==> s.cancels[c].id != s.cancels[d].id)
      && (forall id :: id in s.infos && s.infos[id].state == Canceled ==> DoneClosed(s, id) || WaitedFor(s, id))
  {
    RunKeeps(INIT, steps);
    var s := After(INIT, steps);
    forall c: nat | c < |s.cancels|
      ensures s.cancels[c].id in s.infos
      ensures s.infos[s.cancels[c].id].state == Canceled && s.infos[s.cancels[c].id].exitCode.None?
      ensures s.cancels[c].returned ==>
        s.infos[s.cancels[c].id].completedAt.Some? && s.infos[s.cancels[c].id].doneCloses == 1
    {
      assert CancelOk(s, c) && RecordOk(s, s.cancels[c].id);
    }
    forall id | id in s.infos && s.infos[id].state == Canceled
      ensures DoneClosed(s, id) || WaitedFor(s, id)
    {
      assert RecordOk(s, id);
    }
  }

  /** When the shutdown is over, no runner of its snapshot is still running: each is done, or
      was canceled by another caller whose call is still waiting for it. */
  lemma {:induction false} ShutdownLeavesNoneRunning(steps: seq<Step>)
    requires IsRun(INIT, steps)
    ensures var s := After(INIT, steps);
      s.shutdown.Killing? && s.shutdown.past == |s.shutdown.ids| ==>
        forall i :: 0 <= i < |s.shutdown.ids| ==>
          var id := s.shutdown.ids[i];
          && id in s.infos && s.infos[id].state != Running
          && (DoneClosed(s, id) || (s.infos[id].state == Canceled && WaitedFor(s, id)))
  {
    RunKeeps(INIT, steps);
    var s := After(INIT, steps);
    if s.shutdown.Killing? && s.shutdown.past == |s.shutdown.ids| {
      forall i | 0 <= i < |s.shutdown.ids|
        ensures var id := s.shutdown.ids[i];
          && id in s.infos && s.infos[id].state != Running
          && (DoneClosed(s, id) || (s.infos[id].state == Canceled && WaitedFor(s, id)))
      {
        assert !RunningNow(s, s.shutdown.ids[i]);
        assert RecordOk(s, s.shutdown.ids[i]);
      }
    }
  }
}
