/** Discovery fan-in and its shutdown (internal/federation/federation.go,
    internal/federation/discoverer_registry.go): discoverers spawn tracked one-shot goroutines
    that send on a shared channel, which is closed after everyone has been joined. */
module Federation {
  import opened Common

  type Sid = string
  type Time = int

  datatype Peer = Peer(sid: Sid, url: string)

  /** One registered discoverer: its registry (empty disables it) and its own id. */
  datatype Config = Config(registryURL: string, selfSID: Sid)

  const CAPACITY := 64

  /** Five minutes, in nanoseconds. */
  const REFRESH_AFTER: int := 300_000_000_000

  // ---------------------------------------------------------------- the orchestrator's deduplication

  /** An announcement taken off the channel, the two readings of the clock (for the check and
      for the record), and whether it started a fetch. */
  datatype Received = Received(peer: Peer, now: Time, stored: Time, fetched: bool)

  predicate Complete(p: Peer)
  {
    p.sid != "" && p.url != ""
  }

  predicate Fresh(seen: map<Sid, Time>, p: Peer, now: Time)
  {
    Complete(p) && !(p.sid in seen && now - seen[p.sid] < REFRESH_AFTER)
  }

  class Orchestrator {
    var seen: map<Sid, Time>

    constructor ()
      ensures seen == map[]
    {
      seen := map[];
    }

    /** One turn of the fan-in loop on an announcement. */
    method OnAnnouncement(ann: Peer, now: Time, later: Time) returns (fetch: bool)
      modifies this
      ensures fetch == Fresh(old(seen), ann, now)
      ensures seen == if fetch then old(seen)[ann.sid := later] else old(seen)
    {
      if ann.sid == "" || ann.url == "" {
        return false;
      }
      if ann.sid in seen && now - seen[ann.sid] < REFRESH_AFTER {
        return false;
      }
      seen := seen[ann.sid := later];
      return true;
    }
  }

  // ---------------------------------------------------------------- one poll, undisturbed

  predicate Eligible(p: Peer, selfSID: Sid)
  {
    Complete(p) && p.sid != selfSID
  }

  function Eligibles(peers: seq<Peer>, selfSID: Sid): (r: seq<Peer>)
  {
    if peers == [] then []
    else if Eligible(peers[0], selfSID) then [peers[0]] + Eligibles(peers[1..], selfSID)
    else Eligibles(peers[1..], selfSID)
  }

  class Channel {
    var queue: seq<Peer>

    constructor ()
      ensures queue == []
    {
      queue := [];
    }

    /** The fan-out loop of pollOnce while nobody else touches the channel and the context is
        live: the first eligible peers that fit are sent, the rest are dropped. */
    method SendPeers(peers: seq<Peer>, selfSID: Sid)
      requires |queue| <= CAPACITY
      modifies this
      ensures queue == old(queue) + FirstN(Eligibles(peers, selfSID), CAPACITY - |old(queue)|)
    {
      ghost var all := Eligibles(peers, selfSID);
      ghost var passed := 0;
      for i := 0 to |peers|
        invariant passed + |Eligibles(peers[i..], selfSID)| == |all|
        invariant all[passed..] == Eligibles(peers[i..], selfSID)
        invariant queue == old(queue) + FirstN(all[..passed], CAPACITY - |old(queue)|)
      {
        var p := peers[i];
        assert peers[i..][1..] == peers[i + 1..];
        if p.sid == "" || p.url == "" || p.sid == selfSID {
          continue;
        }
        assert all[passed..][0] == p;
        assert all[..passed + 1] == all[..passed] + [p];
        if |queue| < CAPACITY {
          queue := queue + [p];
        }
        passed := passed + 1;
      }
      assert all[..passed] == all;
    }
  }

  // ---------------------------------------------------------------- the goroutines as a step system

  datatype Body = Announcing | Polling | Sending(rest: seq<Peer>)

  datatype Goroutine = Goroutine(owner: nat, body: Body)

  /** A discoverer: not spawned, entered Run, spawned its first announce, in its ticker loop,
      waiting for its goroutines, returned. */
  datatype Phase = Unspawned | Entered | Announced | Looping | Joining | Returned

  type Gid = nat

  /** `wg` and `outer` are the WaitGroup counters of the discoverers and of Federation.Run. */
  datatype State = State(
    spawned: nat, phases: seq<Phase>, wg: seq<int>, outer: int, alive: map<Gid, Goroutine>,
    canceled: bool, queue: seq<Peer>, closed: bool, panicked: bool,
    listening: bool, seen: map<Sid, Time>, log: seq<Received>, clock: Time)

  function Init(ds: seq<Config>, start: Time): (r: State)
  {
    State(0, seq(|ds|, _ => Unspawned), seq(|ds|, _ => 0), 0, map[], false, [], false, false, true, map[], [], start)
  }

  datatype Step =
    | SpawnDiscoverer
    | NoRegistry(i: nat)
    | Spawn(i: nat, g: Gid, body: Body)
    | Cancel
    | LeaveLoop(i: nat)
    | Join(i: nat)
    | PollAnswered(g: Gid, peers: seq<Peer>)
    | Finish(g: Gid)
    | Quit(g: Gid)
    | Skip(g: Gid)
    | Send(g: Gid)
    | DropOne(g: Gid)
    | CloseChannel
    | Receive(now: Time, later: Time)
    | ReceiveZero
    | StopListening

  predicate SendingNext(ds: seq<Config>, s: State, g: Gid)
  {
    && g in s.alive && s.alive[g].owner < |ds|
    && s.alive[g].body.Sending? && s.alive[g].body.rest != []
  }

  predicate NextEligible(ds: seq<Config>, s: State, g: Gid)
    requires SendingNext(ds, s, g)
  {
    Eligible(s.alive[g].body.rest[0], ds[s.alive[g].owner].selfSID)
  }

  predicate Enabled(ds: seq<Config>, s: State, step: Step)
  {
    |s.phases| == |s.wg| == |ds| &&
    match step
    case SpawnDiscoverer => s.spawned < |ds|
    case NoRegistry(i) => i < |ds| && s.phases[i].Entered? && ds[i].registryURL == ""
    case Spawn(i, g, body) =>
      && i < |ds| && ds[i].registryURL != "" && g !in s.alive
      && (match s.phases[i]
          case Entered => body.Announcing?
          case Announced => body.Polling?
          case Looping => body.Announcing? || body.Polling?
          case _ => false)
    case Cancel => true
    case LeaveLoop(i) => i < |ds| && s.phases[i].Looping? && s.canceled
    case Join(i) => i < |ds| && s.phases[i].Joining? && s.wg[i] == 0
    case PollAnswered(g, peers) => g in s.alive && s.alive[g].body.Polling?
    case Finish(g) =>
      g in s.alive && s.alive[g].owner < |ds| && (s.alive[g].body.Sending? ==> s.alive[g].body.rest == [])
    case Quit(g) => SendingNext(ds, s, g) && NextEligible(ds, s, g) && s.canceled
    case Skip(g) => SendingNext(ds, s, g) && !NextEligible(ds, s, g)
    case Send(g) => SendingNext(ds, s, g) && NextEligible(ds, s, g) && (s.closed || |s.queue| < CAPACITY)
    case DropOne(g) =>
      SendingNext(ds, s, g) && NextEligible(ds, s, g) && !s.closed && |s.queue| >= CAPACITY && !s.canceled
    case CloseChannel => s.spawned == |ds| > 0 && s.outer == 0 && !s.closed
    case Receive(now, later) => s.listening && s.queue != [] && s.clock <= now <= later
    case ReceiveZero => s.listening && s.queue == [] && s.closed
    case StopListening => s.listening && s.canceled
  }

  /** A finished goroutine runs its deferred Done. */
  function Ended(s: State, g: Gid): (r: State)
    requires g in s.alive && s.alive[g].owner < |s.wg|
  {
    var i := s.alive[g].owner;
    s.(alive := s.alive - {g}, wg := s.wg[i := s.wg[i] - 1])
  }

  function Advanced(s: State, g: Gid): (r: State)
    requires g in s.alive && s.alive[g].body.Sending? && s.alive[g].body.rest != []
  {
    var go := s.alive[g];
    s.(alive := s.alive[g := go.(body := Sending(go.body.rest[1..]))])
  }

  function Next(ds: seq<Config>, s: State, step: Step): (r: State)
    requires Enabled(ds, s, step)
  {
    match step
    case SpawnDiscoverer =>
      s.(phases := s.phases[s.spawned := Entered], outer := s.outer + 1, spawned := s.spawned + 1)
    case NoRegistry(i) => s.(phases := s.phases[i := Returned], outer := s.outer - 1)
    case Spawn(i, g, body) =>
      s.(alive := s.alive[g := Goroutine(i, body)], wg := s.wg[i := s.wg[i] + 1],
         phases := s.phases[i := if s.phases[i].Entered? then Announced else Looping])
    case Cancel => s.(canceled := true)
    case LeaveLoop(i) => s.(phases := s.phases[i := Joining])
    case Join(i) => s.(phases := s.phases[i := Returned], outer := s.outer - 1)
    case PollAnswered(g, peers) => s.(alive := s.alive[g := s.alive[g].(body := Sending(peers))])
    case Finish(g) => Ended(s, g)
    case Quit(g) => Ended(s, g)
    case Skip(g) => Advanced(s, g)
    case Send(g) =>
      if s.closed then s.(panicked := true)
      else Advanced(s.(queue := s.queue + [s.alive[g].body.rest[0]]), g)
    case DropOne(g) => Advanced(s, g)
    case CloseChannel => s.(closed := true)
    case Receive(now, later) =>
      var p := s.queue[0];
      var fetched := Fresh(s.seen, p, now);
      s.(queue := s.queue[1..], clock := later, log := s.log + [Received(p, now, later, fetched)],
         seen := if fetched then s.seen[p.sid := later] else s.seen)
    case ReceiveZero => s
    case StopListening => s.(listening := false)
  }

  predicate IsRun(ds: seq<Config>, s: State, steps: seq<Step>)
    decreases |steps|
  {
    steps == [] || (Enabled(ds, s, steps[0]) && IsRun(ds, Next(ds, s, steps[0]), steps[1..]))
  }

  function After(ds: seq<Config>, s: State, steps: seq<Step>): (r: State)
    requires IsRun(ds, s, steps)
    decreases |steps|
  {
    if steps == [] then s else After(ds, Next(ds, s, steps[0]), steps[1..])
  }

  // ---------------------------------------------------------------- join before close

  function OwnedBy(alive: map<Gid, Goroutine>, i: nat): (r: set<Gid>)
  {
    set g | g in alive && alive[g].owner == i
  }

  predicate IsActive(p: Phase)
  {
    !p.Unspawned? && !p.Returned?
  }

  function Active(phases: seq<Phase>): (r: set<nat>)
  {
    set i: nat | i < |phases| && IsActive(phases[i])
  }

  predicate HasGoroutines(p: Phase)
  {
    p.Announced? || p.Looping? || p.Joining?
  }

  /** Each counter is the number of goroutines it tracks. */
  ghost predicate Counted(ds: seq<Config>, s: State)
  {
    && |s.phases| == |s.wg| == |ds| && s.spawned <= |ds|
    && (forall i: nat :: i < |ds| ==> (s.phases[i].Unspawned? <==> s.spawned <= i))
    && (forall i: nat :: i < |ds| ==> s.wg[i] == |OwnedBy(s.alive, i)|)
    && s.outer == |Active(s.phases)|
  }

  ghost predicate Joined(ds: seq<Config>, s: State)
    requires |s.phases| == |ds|
  {
    && (forall g :: g in s.alive ==> s.alive[g].owner < |ds| && HasGoroutines(s.phases[s.alive[g].owner]))
    && (s.closed ==> s.spawned == |ds| && Active(s.phases) == {})
    && !s.panicked
    && |s.queue| <= CAPACITY
  }

  ghost predicate Inv(ds: seq<Config>, s: State)
  {
    Counted(ds, s) && Joined(ds, s)
  }

  lemma ActiveUpdate(phases: seq<Phase>, i: nat, p: Phase)
    requires i < |phases|
    ensures var was, now := Active(phases), Active(phases[i := p]);
      && (IsActive(p) ==> now == was + {i})
      && (!IsActive(p) ==> now == was - {i})
      && (i in was <==> IsActive(phases[i]))
      && |now| == |was - {i}| + (if IsActive(p) then 1 else 0)
      && |was| == |was - {i}| + (if IsActive(phases[i]) then 1 else 0)
  {
    var was, now := Active(phases), Active(phases[i := p]);
    assert now == if IsActive(p) then (was - {i}) + {i} else was - {i};
    assert was == if IsActive(phases[i]) then (was - {i}) + {i} else was - {i};
  }

  lemma OwnedAdd(alive: map<Gid, Goroutine>, g: Gid, go: Goroutine, i: nat)
    requires g !in alive
    ensures OwnedBy(alive[g := go], i) == if go.owner == i then OwnedBy(alive, i) + {g} else OwnedBy(alive, i)
    ensures g !in OwnedBy(alive, i)
  {
  }

  lemma OwnedRemove(alive: map<Gid, Goroutine>, g: Gid, i: nat)
    requires g in alive
    ensures OwnedBy(alive - {g}, i) == if alive[g].owner == i then OwnedBy(alive, i) - {g} else OwnedBy(alive, i)
    ensures alive[g].owner == i ==> g in OwnedBy(alive, i)
  {
  }

  lemma OwnedKeep(alive: map<Gid, Goroutine>, g: Gid, body: Body, i: nat)
    requires g in alive
    ensures OwnedBy(alive[g := alive[g].(body := body)], i) == OwnedBy(alive, i)
  {
  }

  lemma {:induction false} EndedCounts(ds: seq<Config>, s: State, g: Gid)
    requires Inv(ds, s) && g in s.alive && s.alive[g].owner < |ds|
    ensures Inv(ds, Ended(s, g))
  {
    var s' := Ended(s, g);
    forall i: nat | i < |ds|
      ensures s'.wg[i] == |OwnedBy(s'.alive, i)|
    {
      OwnedRemove(s.alive, g, i);
    }
  }

  lemma {:induction false} BodyKeeps(ds: seq<Config>, s: State, g: Gid, body: Body)
    requires Inv(ds, s) && g in s.alive
    ensures Inv(ds, s.(alive := s.alive[g := s.alive[g].(body := body)]))
  {
    forall i: nat | i < |ds|
      ensures OwnedBy(s.alive[g := s.alive[g].(body := body)], i) == OwnedBy(s.alive, i)
    {
      OwnedKeep(s.alive, g, body, i);
    }
  }

  /** A spawn adds one goroutine and one count, for its discoverer. */
  lemma {:induction false} SpawnCount(ds: seq<Config>, s: State, step: Step, i: nat)
    requires Counted(ds, s) && Enabled(ds, s, step) && step.Spawn? && i < |ds|
    ensures Next(ds, s, step).wg[i] == |OwnedBy(Next(ds, s, step).alive, i)|
  {
    OwnedAdd(s.alive, step.g, Goroutine(step.i, step.body), i);
    assert s.wg[i] == |OwnedBy(s.alive, i)|;
  }

  lemma {:induction false} SpawnActive(ds: seq<Config>, s: State, step: Step)
    requires Counted(ds, s) && Enabled(ds, s, step) && step.Spawn?
    ensures Active(Next(ds, s, step).phases) == Active(s.phases)
  {
    ActiveUpdate(s.phases, step.i, Next(ds, s, step).phases[step.i]);
    assert step.i in Active(s.phases);
  }

  lemma {:induction false} SpawnCounted(ds: seq<Config>, s: State, step: Step)
    requires Counted(ds, s) && Enabled(ds, s, step) && step.Spawn?
    ensures Counted(ds, Next(ds, s, step)) && Active(Next(ds, s, step).phases) == Active(s.phases)
  {
    var s' := Next(ds, s, step);
    SpawnActive(ds, s, step);
    forall i: nat | i < |ds|
      ensures s'.wg[i] == |OwnedBy(s'.alive, i)|
    {
      SpawnCount(ds, s, step, i);
    }
  }

  lemma {:induction false} SpawnKeeps(ds: seq<Config>, s: State, step: Step)
    requires Inv(ds, s) && Enabled(ds, s, step) && step.Spawn?
    ensures Inv(ds, Next(ds, s, step))
  {
    SpawnCounted(ds, s, step);
    assert step.i in Active(s.phases);
  }

  predicate MovesPhase(step: Step)
  {
    step.SpawnDiscoverer? || step.NoRegistry? || step.LeaveLoop? || step.Join?
  }

  lemma {:induction false} PhaseCounted(ds: seq<Config>, s: State, step: Step)
    requires Counted(ds, s) && Enabled(ds, s, step) && MovesPhase(step)
    ensures Counted(ds, Next(ds, s, step))
    ensures s.closed && s.spawned == |ds| && Active(s.phases) == {} ==> Active(Next(ds, s, step).phases) == {}
  {
    var i := if step.SpawnDiscoverer? then s.spawned else step.i;
    var s' := Next(ds, s, step);
    assert s'.phases == s.phases[i := s'.phases[i]];
    ActiveUpdate(s.phases, i, s'.phases[i]);
    assert s.phases[i].Unspawned? <==> s.spawned <= i;
    forall k: nat | k < |ds|
      ensures s'.phases[k].Unspawned? <==> s'.spawned <= k
      ensures s'.wg[k] == |OwnedBy(s'.alive, k)|
    {
      assert s.phases[k].Unspawned? <==> s.spawned <= k;
      assert s.wg[k] == |OwnedBy(s.alive, k)|;
    }
  }

  lemma {:induction false} PhaseKeeps(ds: seq<Config>, s: State, step: Step)
    requires Inv(ds, s) && Enabled(ds, s, step) && MovesPhase(step)
    ensures Inv(ds, Next(ds, s, step))
  {
    var s' := Next(ds, s, step);
    PhaseCounted(ds, s, step);
    forall g | g in s'.alive
      ensures s'.alive[g].owner < |ds| && HasGoroutines(s'.phases[s'.alive[g].owner])
    {
      assert g in OwnedBy(s.alive, s.alive[g].owner);
    }
  }

  lemma {:induction false} StepKeeps(ds: seq<Config>, s: State, step: Step)
    requires Inv(ds, s) && Enabled(ds, s, step)
    ensures Inv(ds, Next(ds, s, step))
  {
    match step
    case Spawn(_, _, _) => SpawnKeeps(ds, s, step);
    case SpawnDiscoverer => PhaseKeeps(ds, s, step);
    case NoRegistry(_) => PhaseKeeps(ds, s, step);
    case LeaveLoop(_) => PhaseKeeps(ds, s, step);
    case Join(_) => PhaseKeeps(ds, s, step);
    case Finish(g) => EndedCounts(ds, s, g);
    case Quit(g) => EndedCounts(ds, s, g);
    case PollAnswered(g, peers) => BodyKeeps(ds, s, g, Sending(peers));
    case Skip(g) => BodyKeeps(ds, s, g, Sending(s.alive[g].body.rest[1..]));
    case DropOne(g) => BodyKeeps(ds, s, g, Sending(s.alive[g].body.rest[1..]));
    case Send(g) =>
      AliveMeansActive(ds, s);
      BodyKeeps(ds, s.(queue := s.queue + [s.alive[g].body.rest[0]]), g, Sending(s.alive[g].body.rest[1..]));
    case CloseChannel =>
    case Cancel =>
    case Receive(_, _) =>
    case ReceiveZero =>
    case StopListening =>
  }

  lemma AliveMeansActive(ds: seq<Config>, s: State)
    requires Inv(ds, s)
    ensures forall g :: g in s.alive ==> s.alive[g].owner in Active(s.phases)
  {
  }

  lemma NoSenderWhenClosed(ds: seq<Config>, s: State)
    requires Inv(ds, s) && s.closed
    ensures s.alive == map[]
  {
    AliveMeansActive(ds, s);
  }

  lemma {:induction false} InitInv(ds: seq<Config>, start: Time)
    ensures Inv(ds, Init(ds, start)) && DedupInv(Init(ds, start))
  {
    var s := Init(ds, start);
    assert Active(s.phases) == {};
    forall i: nat | i < |ds|
      ensures OwnedBy(s.alive, i) == {}
    {
    }
  }

  lemma {:induction false} RunKeeps(ds: seq<Config>, s: State, steps: seq<Step>)
    requires IsRun(ds, s, steps) && Inv(ds, s) && DedupInv(s)
    ensures Inv(ds, After(ds, s, steps)) && DedupInv(After(ds, s, steps))
    decreases |steps|
  {
    if steps != [] {
      StepKeeps(ds, s, steps[0]);
      DedupKept(ds, s, steps[0]);
      RunKeeps(ds, Next(ds, s, steps[0]), steps[1..]);
    }
  }

  /** Join before close, over every interleaving. A counter is zero exactly when nothing it
      tracks is alive, so the channel is closed only when every discoverer has returned and
      no one-shot goroutine is left; no send ever meets a closed channel; and the queue never
      holds more than 64 announcements. */
  lemma {:induction false} JoinBeforeClose(ds: seq<Config>, start: Time, steps: seq<Step>)
    requires IsRun(ds, Init(ds, start), steps)
    ensures var s := After(ds, Init(ds, start), steps);
      && |s.phases| == |s.wg| == |ds|
      && !s.panicked && |s.queue| <= CAPACITY
      && (forall i: nat :: i < |ds| ==> (s.wg[i] == 0 <==> forall g :: g in s.alive ==> s.alive[g].owner != i))
      && (s.spawned == |ds| && s.outer == 0 <==> forall i: nat :: i < |ds| ==> s.phases[i].Returned?)
      && (s.outer == 0 ==> s.alive == map[])
      && (s.closed ==> s.alive == map[] && forall i: nat :: i < |ds| ==> s.phases[i].Returned?)
  {
    var s := After(ds, Init(ds, start), steps);
    InitInv(ds, start);
    RunKeeps(ds, Init(ds, start), steps);
    AliveMeansActive(ds, s);
    if s.closed {
      NoSenderWhenClosed(ds, s);
    }
    forall i: nat | i < |ds|
      ensures s.wg[i] == 0 <==> forall g :: g in s.alive ==> s.alive[g].owner != i
    {
      assert s.wg[i] == |OwnedBy(s.alive, i)|;
      if g :| g in s.alive && s.alive[g].owner == i {
        assert g in OwnedBy(s.alive, i);
      } else {
        assert OwnedBy(s.alive, i) == {};
      }
    }
    AllReturned(ds, s);
  }

  lemma {:induction false} AllReturned(ds: seq<Config>, s: State)
    requires Inv(ds, s)
    ensures s.spawned == |ds| && Active(s.phases) == {} <==> forall i: nat :: i < |ds| ==> s.phases[i].Returned?
    ensures s.outer == 0 <==> Active(s.phases) == {}
  {
    if s.spawned == |ds| && Active(s.phases) == {} {
      forall i: nat | i < |ds|
        ensures s.phases[i].Returned?
      {
        assert i !in Active(s.phases);
      }
    }
    if s.spawned < |ds| {
      assert s.phases[s.spawned].Unspawned?;
    } else if forall i: nat :: i < |ds| ==> s.phases[i].Returned? {
      assert Active(s.phases) == {};
    }
  }

  // ---------------------------------------------------------------- how often a peer is fetched

  /** A fetch of `sid` was started at time `at`. */
  predicate FetchedAt(log: seq<Received>, sid: Sid, at: Time)
  {
    exists j :: 0 <= j < |log| && log[j].fetched && log[j].peer.sid == sid && log[j].stored == at
  }

  predicate Latest(log: seq<Received>, seen: map<Sid, Time>, j: nat)
    requires j < |log|
  {
    log[j].fetched ==> log[j].peer.sid in seen && log[j].stored <= seen[log[j].peer.sid]
  }

  /** Announcement `i` starts a fetch if and only if it is complete and every earlier fetch for
      its id is at least five minutes old. */
  predicate FetchedWhenDue(log: seq<Received>, i: nat)
    requires i < |log|
  {
    log[i].fetched <==>
      && Complete(log[i].peer)
      && forall j :: 0 <= j < i && log[j].fetched && log[j].peer.sid == log[i].peer.sid ==>
           log[i].now - log[j].stored >= REFRESH_AFTER
  }

  ghost predicate DedupInv(s: State)
  {
    && (forall sid :: sid in s.seen ==> FetchedAt(s.log, sid, s.seen[sid]))
    && (forall j: nat :: j < |s.log| ==> Latest(s.log, s.seen, j) && PastEntry(s, j))
    && (forall i: nat :: i < |s.log| ==> FetchedWhenDue(s.log, i))
  }

  predicate PastEntry(s: State, j: nat)
    requires j < |s.log|
  {
    s.log[j].now <= s.log[j].stored <= s.clock
  }

  lemma {:induction false} DedupKept(ds: seq<Config>, s: State, step: Step)
    requires Enabled(ds, s, step) && DedupInv(s)
    ensures DedupInv(Next(ds, s, step))
  {
    LogMoves(ds, s, step);
    if step.Receive? {
      var t := Logged(s, s.queue[0], step.now, step.later);
      ReceiveKeepsDedup(s, s.queue[0], step.now, step.later);
      SameLog(t, Next(ds, s, step));
    } else {
      SameLog(s, Next(ds, s, step));
    }
  }

  /** Only a receive touches the log, the times seen and the clock. */
  lemma {:induction false} LogMoves(ds: seq<Config>, s: State, step: Step)
    requires Enabled(ds, s, step)
    ensures var s' := Next(ds, s, step);
      var t := if step.Receive? then Logged(s, s.queue[0], step.now, step.later) else s;
      s'.log == t.log && s'.seen == t.seen && s'.clock == t.clock
  {
    match step
    case Receive(_, _) =>
    case Finish(g) =>
      assert Next(ds, s, step) == Ended(s, g);
    case Quit(g) =>
      assert Next(ds, s, step) == Ended(s, g);
    case _ =>
  }

  /** The deduplication looks at the log, the record and the clock only. */
  lemma SameLog(s: State, t: State)
    requires DedupInv(s) && t.log == s.log && t.seen == s.seen && t.clock == s.clock
    ensures DedupInv(t)
  {
    forall j: nat | j < |t.log|
      ensures Latest(t.log, t.seen, j) && PastEntry(t, j)
    {
      assert Latest(s.log, s.seen, j) && PastEntry(s, j);
    }
  }

  function Logged(s: State, p: Peer, now: Time, later: Time): (r: State)
  {
    var fetched := Fresh(s.seen, p, now);
    s.(clock := later, log := s.log + [Received(p, now, later, fetched)],
       seen := if fetched then s.seen[p.sid := later] else s.seen)
  }

  lemma {:induction false} ReceiveKeepsDedup(s: State, p: Peer, now: Time, later: Time)
    requires DedupInv(s) && s.clock <= now <= later
    ensures DedupInv(Logged(s, p, now, later))
  {
    var s' := Logged(s, p, now, later);
    var n := |s.log|;
    forall sid | sid in s'.seen
      ensures FetchedAt(s'.log, sid, s'.seen[sid])
    {
      if sid in s.seen && s'.seen[sid] == s.seen[sid] {
        var j :| 0 <= j < n && s.log[j].fetched && s.log[j].peer.sid == sid && s.log[j].stored == s.seen[sid];
        assert s'.log[j] == s.log[j];
      } else {
        assert s'.log[n].fetched;
      }
    }
    forall j: nat | j < n + 1
      ensures Latest(s'.log, s'.seen, j) && PastEntry(s', j)
    {
      if j < n {
        assert Latest(s.log, s.seen, j) && PastEntry(s, j);
      }
    }
    forall i: nat | i < n + 1
      ensures FetchedWhenDue(s'.log, i)
    {
      if i < n {
        assert FetchedWhenDue(s.log, i);
        assert forall j :: 0 <= j <= i ==> s'.log[j] == s.log[j];
      } else {
        DueWhenFresh(s, p, now, later);
      }
    }
  }

  lemma {:induction false} DueWhenFresh(s: State, p: Peer, now: Time, later: Time)
    requires DedupInv(s)
    ensures FetchedWhenDue(Logged(s, p, now, later).log, |s.log|)
  {
    var log := Logged(s, p, now, later).log;
    var n := |s.log|;
    if Complete(p) && !Fresh(s.seen, p, now) {
      var j :| 0 <= j < n && s.log[j].fetched && s.log[j].peer.sid == p.sid && s.log[j].stored == s.seen[p.sid];
      assert log[j] == s.log[j];
    }
    forall j | 0 <= j < n && log[j].fetched && log[j].peer.sid == p.sid
      ensures p.sid in s.seen && log[j].stored <= s.seen[p.sid]
    {
      assert log[j] == s.log[j] && Latest(s.log, s.seen, j);
    }
  }

  /** Over every run with a clock that does not go back: an announcement starts a fetch if and
      only if it is complete and every earlier fetch for its id is at least five minutes old.
      So two fetches for one id are at least five minutes apart, and none is skipped. */
  lemma {:induction false} FetchesFarApart(ds: seq<Config>, start: Time, steps: seq<Step>)
    requires IsRun(ds, Init(ds, start), steps)
    ensures var log := After(ds, Init(ds, start), steps).log;
      && (forall i: nat :: i < |log| ==> FetchedWhenDue(log, i))
      && (forall i: nat, j: nat ::
            i < j < |log| && log[i].fetched && log[j].fetched && log[i].peer.sid == log[j].peer.sid ==>
            log[j].now - log[i].stored >= REFRESH_AFTER)
  {
    InitInv(ds, start);
    RunKeeps(ds, Init(ds, start), steps);
    var log := After(ds, Init(ds, start), steps).log;
    forall i: nat, j: nat |
      i < j < |log| && log[i].fetched && log[j].fetched && log[i].peer.sid == log[j].peer.sid
      ensures log[j].now - log[i].stored >= REFRESH_AFTER
    {
      assert FetchedWhenDue(log, j);
    }
  }
}
