/** The hub's signaling mailbox (cmd/chepherd-hub/signaling.go): frames queued per
    recipient, drained by a poll, and swept in place when they are too old. */
module Mailbox {
  import opened Common

  type Org = string
  type Time = int

  /** Ten minutes, in nanoseconds. */
  const TTL: int := 600_000_000_000

  datatype Frame = Frame(kind: string, from: Org, to: Org, session: string, payload: seq<bv8>, createdAt: Time)

  datatype Rejection = NilFrame | EmptyRecipient | EmptySession | UnknownKind | EmptyPayload

  // ---------------------------------------------------------------- the queue as a value

  type Boxes = map<Org, seq<Frame>>

  function Box(boxes: Boxes, org: Org): (r: seq<Frame>)
  {
    if org in boxes then boxes[org] else []
  }

  function Rejected(frame: Option<Frame>): (r: Option<Rejection>)
  {
    if frame.None? then Some(NilFrame)
    else if frame.value.to == "" then Some(EmptyRecipient)
    else if frame.value.session == "" then Some(EmptySession)
    else if frame.value.kind !in {"offer", "answer", "ice"} then Some(UnknownKind)
    else if frame.value.payload == [] then Some(EmptyPayload)
    else None
  }

  function Enqueued(boxes: Boxes, frame: Option<Frame>, now: Time): (r: Boxes)
  {
    if Rejected(frame).Some? then boxes
    else boxes[frame.value.to := Box(boxes, frame.value.to) + [frame.value.(createdAt := now)]]
  }

  predicate Stale(frame: Frame, now: Time)
  {
    frame.createdAt <= now - TTL
  }

  function Kept(frames: seq<Frame>, now: Time): (r: seq<Frame>)
  {
    if frames == [] then []
    else
      var init, last := frames[..|frames| - 1], frames[|frames| - 1];
      if Stale(last, now) then Kept(init, now) else Kept(init, now) + [last]
  }

  function Swept(boxes: Boxes, now: Time): (r: Boxes)
  {
    map o | o in boxes && Kept(boxes[o], now) != [] :: Kept(boxes[o], now)
  }

  /** A sweep that has still to visit `orgs`. */
  function SweptBut(boxes: Boxes, orgs: set<Org>, now: Time): (r: Boxes)
  {
    map o | o in boxes && (o in orgs || Kept(boxes[o], now) != []) ::
      if o in orgs then boxes[o] else Kept(boxes[o], now)
  }

  lemma SweptOneMore(boxes: Boxes, orgs: set<Org>, org: Org, now: Time)
    requires org in orgs && org in boxes
    ensures org in SweptBut(boxes, orgs, now) && SweptBut(boxes, orgs, now)[org] == boxes[org]
    ensures SweptBut(boxes, orgs - {org}, now) ==
      var kept := Kept(boxes[org], now);
      if kept == [] then SweptBut(boxes, orgs, now) - {org} else SweptBut(boxes, orgs, now)[org := kept]
  {
  }

  lemma SweptAll(boxes: Boxes, now: Time)
    ensures SweptBut(boxes, {}, now) == Swept(boxes, now)
    ensures SweptBut(boxes, boxes.Keys, now) == boxes
  {
  }

  // ---------------------------------------------------------------- the queue over arrays

  /** A Go slice that starts at the beginning of its backing array. */
  datatype Slice = Slice(buf: array<Frame>, len: nat)
  {
    ghost predicate Valid()
    {
      len <= buf.Length
    }

    ghost function Items(): (r: seq<Frame>)
      requires Valid()
      reads buf
    {
      buf[..len]
    }
  }

  class SignalingQueue {
    var frames: map<Org, Slice>
    /** The queue as a value. */
    ghost var contents: Boxes
    /** The backing arrays the queue may write to, each with the recipient it serves. */
    ghost var owner: map<array<Frame>, Org>
    /** The backing arrays a drain has given out. */
    ghost var handed: set<array<Frame>>

    ghost predicate Valid()
      reads this, owner.Keys
    {
      && owner.Keys !! handed
      && frames.Keys == contents.Keys
      && forall o :: o in frames ==>
           && frames[o].buf in owner && owner[frames[o].buf] == o
           && frames[o].Valid() && frames[o].Items() == contents[o]
    }

    constructor ()
      ensures Valid() && contents == map[] && owner == map[] && handed == {}
    {
      frames := map[];
      contents := map[];
      owner := map[];
      handed := {};
    }

    method Enqueue(frame: Option<Frame>, now: Time) returns (err: Option<Rejection>)
      requires Valid()
      modifies this, owner.Keys
      ensures Valid() && fresh(owner.Keys - old(owner).Keys) && handed == old(handed)
      ensures err == Rejected(frame) && contents == Enqueued(old(contents), frame, now)
    {
      err := Rejected(frame);
      if err.Some? {
        return;
      }
      var stamped := frame.value.(createdAt := now);
      var slice: Slice;
      if stamped.to in frames {
        slice := WithRoom(frames[stamped.to], stamped);
      } else {
        var buf := new Frame[1](_ => stamped);
        slice := Slice(buf, 0);
      }
      Store(stamped.to, slice, stamped);
    }

    /** Writes one more frame into a slice that has room, and keeps the slice. */
    method Store(to: Org, slice: Slice, frame: Frame)
      requires Valid() && slice.len < slice.buf.Length && slice.Items() == Box(contents, to)
      requires slice.buf !in handed && (slice.buf in owner ==> owner[slice.buf] == to)
      modifies this, slice.buf
      ensures Valid() && owner == old(owner)[slice.buf := to] && handed == old(handed)
      ensures contents == old(contents)[to := Box(old(contents), to) + [frame]]
    {
      slice.buf[slice.len] := frame;
      assert slice.buf[..slice.len + 1] == old(slice.Items()) + [frame];
      owner := owner[slice.buf := to];
      frames := frames[to := Slice(slice.buf, slice.len + 1)];
      contents := contents[to := Box(contents, to) + [frame]];
    }

    /** Hands over the slice itself; the queue forgets it. */
    method DrainPending(org: Org) returns (slice: Option<Slice>)
      requires Valid()
      modifies this
      ensures Valid() && contents == old(contents) - {org}
      ensures slice.Some? <==> org in old(contents)
      ensures slice.Some? ==> slice.value.Valid() && slice.value.Items() == old(contents)[org]
      ensures slice.Some? ==> handed == old(handed) + {slice.value.buf} && owner == old(owner) - {slice.value.buf}
      ensures slice.None? ==> handed == old(handed) && owner == old(owner)
    {
      slice := None;
      if org in frames {
        slice := Some(frames[org]);
        handed := handed + {frames[org].buf};
        owner := owner - {frames[org].buf};
      }
      frames := frames - {org};
      contents := contents - {org};
    }

    /** Filters every slice in its own backing array, which no handed-out slice shares. */
    method GcOnce(now: Time)
      requires Valid()
      modifies this, owner.Keys
      ensures Valid() && owner == old(owner) && handed == old(handed)
      ensures contents == Swept(old(contents), now)
    {
      var orgs := frames.Keys;
      ghost var was := contents;
      SweptAll(was, now);
      while orgs != {}
        invariant Valid() && owner == old(owner) && handed == old(handed)
        invariant orgs <= was.Keys && contents == SweptBut(was, orgs, now)
        decreases orgs
      {
        var org :| org in orgs;
        SweepOne(org, now);
        SweptOneMore(was, orgs, org, now);
        orgs := orgs - {org};
      }
    }

    method SweepOne(org: Org, now: Time)
      requires Valid() && org in contents
      modifies this, frames[org].buf
      ensures Valid() && owner == old(owner) && handed == old(handed)
      ensures var kept := Kept(old(contents)[org], now);
        contents == if kept == [] then old(contents) - {org} else old(contents)[org := kept]
    {
      var buf := frames[org].buf;
      ghost var left := Kept(contents[org], now);
      var kept := SweepInPlace(buf, frames[org].len, now);
      if kept == 0 {
        frames := frames - {org};
        contents := contents - {org};
      } else {
        frames := frames[org := Slice(buf, kept)];
        contents := contents[org := left];
      }
    }
  }

  /** Go's append: the same array when it has room for one more, else a larger copy. */
  method WithRoom(slice: Slice, filler: Frame) returns (r: Slice)
    requires slice.Valid()
    ensures r.Valid() && r.len == slice.len < r.buf.Length && r.Items() == slice.Items()
    ensures r.buf == slice.buf || fresh(r.buf)
  {
    if slice.len < slice.buf.Length {
      return slice;
    }
    var larger := new Frame[2 * slice.len + 1](_ => filler);
    for i := 0 to slice.len
      invariant larger[..i] == slice.buf[..i]
    {
      larger[i] := slice.buf[i];
    }
    return Slice(larger, slice.len);
  }

  method SweepInPlace(buf: array<Frame>, len: nat, now: Time) returns (kept: nat)
    requires len <= buf.Length
    modifies buf
    ensures kept <= len && buf[..kept] == Kept(old(buf[..len]), now)
  {
    kept := 0;
    for i := 0 to len
      invariant kept <= i
      invariant buf[..kept] == Kept(old(buf[..i]), now)
      invariant forall k :: i <= k < buf.Length ==> buf[k] == old(buf[k])
    {
      assert old(buf[..i + 1])[..i] == old(buf[..i]);
      if !(buf[i].createdAt <= now - TTL) {
        buf[kept] := buf[i];
        kept := kept + 1;
      }
    }
  }

  // ---------------------------------------------------------------- whole runs

  datatype Op = Put(frame: Option<Frame>, now: Time) | Drain(org: Org) | Sweep(now: Time)

  function Apply(boxes: Boxes, op: Op): (r: Boxes)
  {
    match op
    case Put(frame, now) => Enqueued(boxes, frame, now)
    case Drain(org) => boxes - {org}
    case Sweep(now) => Swept(boxes, now)
  }

  function After(ops: seq<Op>): (r: Boxes)
  {
    if ops == [] then map[] else Apply(After(ops[..|ops| - 1]), ops[|ops| - 1])
  }

  /** What the drain at position `j` of a run gives its caller. */
  function Drained(ops: seq<Op>, j: nat): (r: seq<Frame>)
    requires j < |ops| && ops[j].Drain?
  {
    Box(After(ops[..j]), ops[j].org)
  }

  predicate AcceptedFor(op: Op, org: Org)
  {
    op.Put? && Rejected(op.frame).None? && op.frame.value.to == org
  }

  function Stamped(op: Op): (r: Frame)
    requires op.Put? && op.frame.Some?
  {
    op.frame.value.(createdAt := op.now)
  }

  /** Where a frame is: waiting, handed over by the drain at a position, or dropped by the
      sweep at a position. */
  datatype Fate = Pending | DeliveredBy(drain: nat) | DroppedBy(sweep: nat)

  /** The fate, after the first `n` operations, of the frame put at position `i`: it is
      decided by the first later drain of its recipient, or sweep that finds it at least ten
      minutes old, whichever comes first. */
  function FateOf(ops: seq<Op>, i: nat, n: nat): (r: Fate)
    requires i < n <= |ops| && ops[i].Put? && ops[i].frame.Some?
  {
    if n == i + 1 then Pending
    else
      var before := FateOf(ops, i, n - 1);
      if before != Pending then before
      else
        match ops[n - 1]
        case Put(_, _) => Pending
        case Drain(org) => if org == ops[i].frame.value.to then DeliveredBy(n - 1) else Pending
        case Sweep(now) => if now - ops[i].now >= TTL then DroppedBy(n - 1) else Pending
  }

  /** The frames for `org` among the first `m` operations that have this fate after the
      first `n`, in the order they were queued. */
  function WithFate(ops: seq<Op>, org: Org, fate: Fate, m: nat, n: nat): (r: seq<Frame>)
    requires m <= n <= |ops|
  {
    if m == 0 then []
    else
      var rest := WithFate(ops, org, fate, m - 1, n);
      if AcceptedFor(ops[m - 1], org) && FateOf(ops, m - 1, n) == fate then rest + [Stamped(ops[m - 1])] else rest
  }

  lemma FateAfterStep(ops: seq<Op>, i: nat, n: nat)
    requires i < n < |ops| && ops[i].Put? && ops[i].frame.Some?
    ensures FateOf(ops, i, n + 1) ==
      if FateOf(ops, i, n) != Pending then FateOf(ops, i, n) else match ops[n]
      case Put(_, _) => Pending
      case Drain(org) => if org == ops[i].frame.value.to then DeliveredBy(n) else Pending
      case Sweep(now) => if now - ops[i].now >= TTL then DroppedBy(n) else Pending
  {
  }

  function StillWaiting(frames: seq<Frame>, op: Op, org: Org): (r: seq<Frame>)
  {
    match op
    case Put(_, _) => frames
    case Drain(o) => if o == org then [] else frames
    case Sweep(now) => Kept(frames, now)
  }

  lemma {:induction false} PendingAfterSweep(ops: seq<Op>, org: Org, m: nat, n: nat)
    requires m <= n < |ops| && ops[n].Sweep?
    ensures WithFate(ops, org, Pending, m, n + 1) == Kept(WithFate(ops, org, Pending, m, n), ops[n].now)
  {
    if m > 0 {
      PendingAfterSweep(ops, org, m - 1, n);
      if AcceptedFor(ops[m - 1], org) {
        FateAfterStep(ops, m - 1, n);
        KeptAppend(WithFate(ops, org, Pending, m - 1, n), Stamped(ops[m - 1]), ops[n].now);
      }
    }
  }

  lemma {:induction false} PendingAfterOther(ops: seq<Op>, org: Org, m: nat, n: nat)
    requires m <= n < |ops| && !ops[n].Sweep?
    ensures WithFate(ops, org, Pending, m, n + 1) ==
      if ops[n] == Drain(org) then [] else WithFate(ops, org, Pending, m, n)
  {
    if m > 0 {
      PendingAfterOther(ops, org, m - 1, n);
      if AcceptedFor(ops[m - 1], org) {
        FateAfterStep(ops, m - 1, n);
      }
    }
  }

  /** What the next operation does to the frames still waiting. */
  lemma {:induction false} PendingAfterStep(ops: seq<Op>, org: Org, m: nat, n: nat)
    requires m <= n < |ops|
    ensures WithFate(ops, org, Pending, m, n + 1) == StillWaiting(WithFate(ops, org, Pending, m, n), ops[n], org)
  {
    if ops[n].Sweep? {
      PendingAfterSweep(ops, org, m, n);
    } else {
      PendingAfterOther(ops, org, m, n);
    }
  }

  lemma KeptAppend(frames: seq<Frame>, last: Frame, now: Time)
    ensures Kept(frames + [last], now) == if Stale(last, now) then Kept(frames, now) else Kept(frames, now) + [last]
  {
    assert (frames + [last])[..|frames|] == frames;
  }

  /** A fate once decided stays, and a drain decides exactly the frames then waiting. */
  lemma {:induction false} DeliveredAtStep(ops: seq<Op>, org: Org, m: nat, n: nat)
    requires m <= n < |ops| && ops[n] == Drain(org)
    ensures WithFate(ops, org, DeliveredBy(n), m, n + 1) == WithFate(ops, org, Pending, m, n)
  {
    if m > 0 {
      DeliveredAtStep(ops, org, m - 1, n);
      if AcceptedFor(ops[m - 1], org) {
        DecidedEarlier(ops, m - 1, n);
      }
    }
  }

  lemma {:induction false} DecidedEarlier(ops: seq<Op>, i: nat, n: nat)
    requires i < n <= |ops| && ops[i].Put? && ops[i].frame.Some?
    ensures FateOf(ops, i, n).DeliveredBy? ==> i < FateOf(ops, i, n).drain < n
    ensures FateOf(ops, i, n).DroppedBy? ==> i < FateOf(ops, i, n).sweep < n
  {
    if n > i + 1 {
      DecidedEarlier(ops, i, n - 1);
    }
  }

  lemma {:induction false} DeliveredStays(ops: seq<Op>, org: Org, j: nat, m: nat, n: nat)
    requires j < n < |ops| && m <= n
    ensures WithFate(ops, org, DeliveredBy(j), m, n + 1) == WithFate(ops, org, DeliveredBy(j), m, n)
  {
    if m > 0 {
      DeliveredStays(ops, org, j, m - 1, n);
    }
  }

  lemma {:induction false} PendingIsBox(ops: seq<Op>, org: Org, n: nat)
    requires n <= |ops|
    ensures Box(After(ops[..n]), org) == WithFate(ops, org, Pending, n, n)
    ensures org in After(ops[..n]) ==> Box(After(ops[..n]), org) != []
  {
    if n > 0 {
      PendingIsBox(ops, org, n - 1);
      PendingAfterStep(ops, org, n - 1, n - 1);
      assert ops[..n][..n - 1] == ops[..n - 1];
    }
  }

  lemma {:induction false} DrainedIsDelivered(ops: seq<Op>, j: nat, n: nat)
    requires j < n <= |ops| && ops[j].Drain?
    ensures Drained(ops, j) == WithFate(ops, ops[j].org, DeliveredBy(j), n, n)
    decreases n
  {
    if n == j + 1 {
      PendingIsBox(ops, ops[j].org, j);
      DeliveredAtStep(ops, ops[j].org, j, j);
    } else {
      DrainedIsDelivered(ops, j, n - 1);
      DeliveredStays(ops, ops[j].org, j, n - 1, n - 1);
    }
  }

  /** Conservation. After any run, the box of a recipient holds exactly the frames whose
      fate is undecided, and every drain gave out exactly the frames it decided, both in the
      order they were queued. A frame has one fate, so it is in one place. */
  lemma {:induction false} Conservation(ops: seq<Op>)
    ensures forall org :: Box(After(ops), org) == WithFate(ops, org, Pending, |ops|, |ops|)
    ensures forall org :: org in After(ops) <==> WithFate(ops, org, Pending, |ops|, |ops|) != []
    ensures forall j :: 0 <= j < |ops| && ops[j].Drain? ==>
      Drained(ops, j) == WithFate(ops, ops[j].org, DeliveredBy(j), |ops|, |ops|)
  {
    assert ops[..|ops|] == ops;
    forall org
      ensures Box(After(ops), org) == WithFate(ops, org, Pending, |ops|, |ops|)
      ensures org in After(ops) <==> WithFate(ops, org, Pending, |ops|, |ops|) != []
    {
      PendingIsBox(ops, org, |ops|);
    }
    forall j | 0 <= j < |ops| && ops[j].Drain?
      ensures Drained(ops, j) == WithFate(ops, ops[j].org, DeliveredBy(j), |ops|, |ops|)
    {
      DrainedIsDelivered(ops, j, |ops|);
    }
  }

  /** Nothing is dropped early and nothing is kept late: a frame is dropped if and only if a
      sweep finds it at least ten minutes old before any drain of its recipient, and delivered
      if and only if a drain of its recipient comes before any such sweep. */
  lemma {:induction false} DecidedByFirst(ops: seq<Op>, i: nat, n: nat)
    requires i < n <= |ops| && ops[i].Put? && ops[i].frame.Some?
    ensures var fate := FateOf(ops, i, n);
      && (fate.DroppedBy? <==>
            exists j :: i < j < n && ops[j].Sweep? && Undecided(ops, i, j) && ops[j].now - ops[i].now >= TTL)
      && (fate.DeliveredBy? <==>
            exists j :: i < j < n && ops[j].Drain? && Undecided(ops, i, j) && ops[j].org == ops[i].frame.value.to)
      && (fate == Pending <==> Undecided(ops, i, n))
  {
    if n > i + 1 {
      DecidedByFirst(ops, i, n - 1);
    }
  }

  /** No operation strictly between `i` and `n` drains the recipient or sweeps the frame. */
  predicate Undecided(ops: seq<Op>, i: nat, n: nat)
    requires i < n <= |ops| && ops[i].Put? && ops[i].frame.Some?
  {
    forall j :: i < j < n ==>
      && (ops[j].Drain? ==> ops[j].org != ops[i].frame.value.to)
      && (ops[j].Sweep? ==> ops[j].now - ops[i].now < TTL)
  }
}
