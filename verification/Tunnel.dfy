/**
 The hub half of the reverse-proxy tunnel (cmd/chepherd-hub/tunnel.go).

 `Hub` is the value of one tunnel object: the pending map (None is Go's nil map), the
 closed flag, and the channels roundTrip has made, by identity. Each function below is
 one critical section or one channel operation; class `Tunnel` performs it in place.
 */
module Tunnel {
  import opened Common

  type ReqId = string
  type ChanId = nat
  type Bytes = seq<bv8>

  datatype Direction = ToRunner | ToHub | OtherDirection

  datatype RelayFrame = RelayFrame(
    requestId: ReqId, direction: Direction, verb: string, path: string,
    headers: map<string, string>, status: int, body: Bytes)

  /** A channel of capacity one. */
  datatype Chan = Chan(buf: seq<RelayFrame>, open: bool)

  datatype Hub = Hub(pending: Option<map<ReqId, ChanId>>, closed: bool,
                     chans: map<ChanId, Chan>, nextChan: ChanId)

  const NewHub := Hub(Some(map[]), false, map[], 0)

  /** A Go program that writes to a nil map, or sends on or closes a closed channel,
      panics; these are the states in which the operations below do not. */
  ghost predicate HubOk(h: Hub)
  {
    && (h.closed <==> h.pending.None?)
    && (forall c :: c in h.chans ==> c < h.nextChan && |h.chans[c].buf| <= 1)
    && (h.pending.Some? ==>
          forall id :: id in h.pending.value ==>
            h.pending.value[id] in h.chans && h.chans[h.pending.value[id]].open)
  }

  /** roundTrip up to and including the registration of the slot. The channel is made
      before the closed flag is read. */
  function Register(h: Hub, id: ReqId): (r: (Hub, bool))
    requires h.closed || h.pending.Some?
  {
    var made := h.(chans := h.chans[h.nextChan := Chan([], true)], nextChan := h.nextChan + 1);
    if h.closed then (made, false)
    else (made.(pending := Some(h.pending.value[id := h.nextChan])), true)
  }

  /** The deferred delete of roundTrip. */
  function Forget(h: Hub, id: ReqId): (r: Hub)
  {
    if h.pending.None? then h else h.(pending := Some(h.pending.value - {id}))
  }

  /** The first half of dispatch. */
  function Lookup(h: Hub, id: ReqId): (r: Option<ChanId>)
  {
    if h.pending.Some? && id in h.pending.value then Some(h.pending.value[id]) else None
  }

  /** The second half of dispatch: a send that never blocks. */
  function Offer(h: Hub, c: ChanId, f: RelayFrame): (r: Hub)
    requires c in h.chans
  {
    if h.chans[c].buf == [] then h.(chans := h.chans[c := h.chans[c].(buf := [f])]) else h
  }

  function Dispatch(h: Hub, f: RelayFrame): (r: Hub)
    requires HubOk(h)
  {
    var c := Lookup(h, f.requestId);
    if c.None? then h else Offer(h, c.value, f)
  }

  /** The critical section of close. */
  function CloseBegin(h: Hub): (r: Hub)
  {
    h.(closed := true, pending := None)
  }

  function Registered(h: Hub): (cs: set<ChanId>)
  {
    if h.pending.None? then {} else h.pending.value.Values
  }

  function CloseChan(h: Hub, c: ChanId): (r: Hub)
    requires c in h.chans
  {
    h.(chans := h.chans[c := h.chans[c].(open := false)])
  }

  function CloseChans(h: Hub, cs: set<ChanId>): (r: Hub)
  {
    h.(chans := map c | c in h.chans ::
         if c in cs then h.chans[c].(open := false) else h.chans[c])
  }

  function Close(h: Hub): (r: Hub)
  {
    if h.closed then h else CloseChans(CloseBegin(h), Registered(h))
  }

  class Tunnel {
    const orgID: string
    var pending: Option<map<ReqId, ChanId>>
    var closed: bool
    var chans: map<ChanId, Chan>
    var nextChan: ChanId

    function Abs(): (h: Hub)
      reads this
    {
      Hub(pending, closed, chans, nextChan)
    }

    ghost predicate Valid()
      reads this
    {
      HubOk(Abs())
    }

    constructor (orgID: string)
      ensures Valid() && Abs() == NewHub && this.orgID == orgID
    {
      this.orgID := orgID;
      pending := Some(map[]);
      closed := false;
      chans := map[];
      nextChan := 0;
    }

    /** The part of roundTrip before the send; `ok` is false for "tunnel closed". */
    method BeginRoundTrip(frame: RelayFrame) returns (ch: ChanId, ok: bool)
      requires Valid()
      modifies this
      ensures Valid()
      ensures ch == old(nextChan) && (Abs(), ok) == Register(old(Abs()), frame.requestId)
      ensures ok == !old(closed)
    {
      ch := nextChan;
      chans := chans[ch := Chan([], true)];
      nextChan := nextChan + 1;
      if closed {
        return ch, false;
      }
      pending := Some(pending.value[frame.requestId := ch]);
      ok := true;
    }

    method EndRoundTrip(id: ReqId)
      requires Valid()
      modifies this
      ensures Valid() && Abs() == Forget(old(Abs()), id)
    {
      if pending.Some? {
        pending := Some(pending.value - {id});
      }
    }

    method DispatchFrame(frame: RelayFrame)
      requires Valid()
      modifies this
      ensures Valid() && Abs() == Dispatch(old(Abs()), frame)
    {
      if pending.None? || frame.requestId !in pending.value {
        return;
      }
      var ch := pending.value[frame.requestId];
      if chans[ch].buf == [] {
        chans := chans[ch := chans[ch].(buf := [frame])];
      }
    }

    method CloseTunnel()
      requires Valid()
      modifies this
      ensures Valid() && closed
      ensures Abs() == Close(old(Abs()))
    {
      if closed {
        return;
      }
      closed := true;
      var taken := pending.value;
      pending := None;
      ghost var begun := Abs();
      var todo := taken.Values;
      while todo != {}
        invariant closed && pending.None? && nextChan == old(nextChan)
        invariant todo <= taken.Values
        invariant Abs() == CloseChans(begun, taken.Values - todo)
        decreases |todo|
      {
        var ch :| ch in todo;
        assert ch in chans && chans[ch].open;
        chans := chans[ch := chans[ch].(open := false)];
        todo := todo - {ch};
      }
      assert taken.Values - todo == taken.Values;
    }
  }

  /** The per-org registry. A registered tunnel is never a closed one: eviction replaces
      it inside the same critical section, and the other two closers unregister first. */
  class TunnelManager {
    var tunnels: map<string, Tunnel>
    var total: nat

    ghost predicate Valid()
      reads this, tunnels.Values
    {
      forall org :: org in tunnels ==>
        tunnels[org].orgID == org && tunnels[org].Valid() && !tunnels[org].closed
    }

    constructor ()
      ensures Valid() && tunnels == map[] && total == 0
    {
      tunnels := map[];
      total := 0;
    }

    method RegisterOrg(orgID: string) returns (t: Tunnel)
      requires Valid()
      modifies this, tunnels.Values
      ensures Valid() && fresh(t) && t.Abs() == NewHub
      ensures tunnels == old(tunnels)[orgID := t] && total == old(total) + 1
      ensures forall org :: org in old(tunnels) && org != orgID ==>
        old(tunnels)[org].Abs() == old(tunnels[org].Abs())
      ensures orgID in old(tunnels) ==>
        old(tunnels)[orgID].Abs() == Close(old(tunnels[orgID].Abs()))
    {
      t := new Tunnel(orgID);
      if orgID in tunnels {
        tunnels[orgID].CloseTunnel();
      }
      tunnels := tunnels[orgID := t];
      total := total + 1;
    }

    /** What the read pump's deferred function does: deregister, then close. A tunnel
        that was evicted leaves its replacement registered and untouched. */
    method ReadPumpExit(orgID: string, t: Tunnel)
      requires Valid() && t.Valid() && t.orgID == orgID
      modifies this, t
      ensures Valid() && t.Valid() && t.Abs() == Close(old(t.Abs()))
      ensures total == old(total)
      ensures tunnels == if orgID in old(tunnels) && old(tunnels)[orgID] == t
                         then old(tunnels) - {orgID} else old(tunnels)
    {
      if orgID in tunnels && tunnels[orgID] == t {
        tunnels := tunnels - {orgID};
      }
      t.CloseTunnel();
    }

    method LookupOrg(orgID: string) returns (t: Tunnel?)
      requires Valid()
      ensures t == null <==> orgID !in tunnels
      ensures t != null ==> t == tunnels[orgID] && t.Valid() && !t.closed
    {
      t := if orgID in tunnels then tunnels[orgID] else null;
    }

    method CloseAll()
      requires Valid()
      modifies this, tunnels.Values
      ensures Valid() && tunnels == map[] && total == old(total)
      ensures forall t :: t in old(tunnels.Values) ==> t.Abs() == Close(old(t.Abs()))
    {
      var taken := tunnels.Values;
      tunnels := map[];
      var todo := taken;
      while todo != {}
        invariant todo <= taken && tunnels == map[] && total == old(total)
        invariant forall t :: t in todo ==> unchanged(t)
        invariant forall t :: t in taken - todo ==> t.Abs() == Close(old(t.Abs()))
        decreases |todo|
      {
        var t :| t in todo;
        assert old(t.Valid());
        t.CloseTunnel();
        todo := todo - {t};
      }
    }
  }
}
