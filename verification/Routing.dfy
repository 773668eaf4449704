/** Peer-prefixed routing (internal/federation/federated_deliverer.go,
    internal/federation/hub_deliverer.go): every instance strips its peer's prefix from the
    context id, forwards over HTTP or the hub, and restores the prefix on the answer. */
module Routing {
  import opened Common

  type Sid = string
  type ContextID = string
  type Url = string

  /** An instance in the network. */
  type Name = int

  // ---------------------------------------------------------------- prefixes

  /** "@<sid>/<rest>", when both parts are there. */
  function ParsePeer(ctx: ContextID): (r: Option<(Sid, ContextID)>)
  {
    if ctx == "" || ctx[0] != '@' then None
    else
      var slash := IndexOf(ctx, '/');
      if slash == |ctx| || slash < 2 || slash + 1 == |ctx| then None
      else Some((ctx[1..slash], ctx[slash + 1..]))
  }

  function Prefix(sid: Sid, ctx: ContextID): (r: ContextID)
  {
    "@" + sid + "/" + ctx
  }

  predicate ValidSid(sid: Sid)
  {
    sid != "" && '/' !in sid
  }

  /** A context id no instance takes a prefix from. */
  predicate Bare(ctx: ContextID)
  {
    ParsePeer(ctx).None?
  }

  lemma {:induction false} IndexOfIs(s: string, c: char, i: nat)
    requires i < |s| && s[i] == c && forall k :: 0 <= k < i ==> s[k] != c
    ensures IndexOf(s, c) == i
  {
    if i > 0 {
      assert s[0] != c;
      IndexOfIs(s[1..], c, i - 1);
    }
  }

  /** Stripping and restoring a prefix are inverse. */
  lemma {:induction false} ParseInvertsPrefix(sid: Sid, rest: ContextID)
    requires ValidSid(sid) && rest != ""
    ensures ParsePeer(Prefix(sid, rest)) == Some((sid, rest))
  {
    var ctx := Prefix(sid, rest);
    assert ctx[|sid| + 1] == '/';
    forall k | 0 <= k < |sid| + 1
      ensures ctx[k] != '/'
    {
      if k > 0 {
        assert ctx[k] == sid[k - 1];
        assert sid[k - 1] in sid;
      }
    }
    IndexOfIs(ctx, '/', |sid| + 1);
    assert ctx[1..|sid| + 1] == sid && ctx[|sid| + 2..] == rest;
  }

  lemma {:induction false} PrefixInvertsParse(ctx: ContextID)
    requires !Bare(ctx)
    ensures var (sid, rest) := ParsePeer(ctx).value;
      ValidSid(sid) && rest != "" && ctx == Prefix(sid, rest) && |rest| < |ctx|
  {
    var slash := IndexOf(ctx, '/');
    assert ctx == ctx[..1] + ctx[1..slash] + ctx[slash..slash + 1] + ctx[slash + 1..];
  }

  function Join(path: seq<Sid>, s: ContextID): (r: ContextID)
  {
    if path == [] then s else Prefix(path[0], Join(path[1..], s))
  }

  /** Every context id is a path of peers before a bare session, in one way only. */
  function Split(ctx: ContextID): (r: (seq<Sid>, ContextID))
    ensures Join(r.0, r.1) == ctx && Bare(r.1)
    ensures forall i :: 0 <= i < |r.0| ==> ValidSid(r.0[i])
    ensures r.0 != [] ==> r.1 != ""
    ensures |r.0| <= |ctx|
    decreases |ctx|
  {
    if Bare(ctx) then ([], ctx)
    else
      PrefixInvertsParse(ctx);
      var (sid, rest) := ParsePeer(ctx).value;
      var (path, s) := Split(rest);
      ([sid] + path, s)
  }

  lemma {:induction false} SplitInvertsJoin(path: seq<Sid>, s: ContextID)
    requires Bare(s) && (path != [] ==> s != "") && forall i :: 0 <= i < |path| ==> ValidSid(path[i])
    ensures Split(Join(path, s)) == (path, s)
    ensures path != [] ==> Join(path, s) != ""
    decreases |path|
  {
    if path != [] {
      SplitInvertsJoin(path[1..], s);
      ParseInvertsPrefix(path[0], Join(path[1..], s));
      assert Split(Join(path, s)) == ([path[0]] + Split(Join(path[1..], s)).0, s);
      assert [path[0]] + path[1..] == path;
    }
  }

  // ---------------------------------------------------------------- the hub's bounded retry

  const MAX_ATTEMPTS := 3

  /** One dial and send: a transport failure, after which the caller's context may turn out to
      be canceled, or a definitive answer of the peer, good or bad. */
  datatype Attempt<T> = Transport(canceled: bool) | Definitive(answer: T)

  datatype Retried<T> = Answered(answer: T) | CanceledWhileWaiting | Exhausted

  /** How the attempts end when the first `k` failed in transport. */
  function RetryFrom<T>(attempts: seq<Attempt<T>>, k: nat): (r: Retried<T>)
    requires |attempts| == MAX_ATTEMPTS && k <= MAX_ATTEMPTS
    decreases MAX_ATTEMPTS - k
  {
    if k == MAX_ATTEMPTS then Exhausted
    else
      match attempts[k]
      case Definitive(answer) => Answered(answer)
      case Transport(canceled) =>
        if k + 1 < MAX_ATTEMPTS && canceled then CanceledWhileWaiting else RetryFrom(attempts, k + 1)
  }

  /** deliverOverHub: the attempts are given, `used` of them are made, and after each transport
      failure the cached connection is closed, `dropped` times in all. Without a connection store
      there is no attempt and no result. */
  method DeliverOverHub<T>(hasStore: bool, attempts: seq<Attempt<T>>)
    returns (r: Option<Retried<T>>, used: nat, dropped: nat)
    requires |attempts| == MAX_ATTEMPTS
    ensures r.None? <==> !hasStore
    ensures !hasStore ==> used == dropped == 0
    ensures hasStore ==> 1 <= used <= MAX_ATTEMPTS && r == Some(RetryFrom(attempts, 0))
    ensures forall k :: 0 <= k < used - 1 ==> attempts[k] == Transport(false)
    ensures hasStore ==> match r.value
      case Answered(answer) => attempts[used - 1] == Definitive(answer) && dropped == used - 1
      case CanceledWhileWaiting => attempts[used - 1] == Transport(true) && dropped == used < MAX_ATTEMPTS
      case Exhausted => dropped == used == MAX_ATTEMPTS && attempts[used - 1].Transport?
  {
    used, dropped := 0, 0;
    if !hasStore {
      return None, used, dropped;
    }
    for attempt := 1 to MAX_ATTEMPTS + 1
      invariant used == dropped == attempt - 1
      invariant forall k :: 0 <= k < used ==>
        attempts[k].Transport? && (k + 1 < MAX_ATTEMPTS ==> !attempts[k].canceled)
      invariant RetryFrom(attempts, used) == RetryFrom(attempts, 0)
    {
      used := attempt;
      match attempts[attempt - 1] {
        case Definitive(answer) => return Some(Answered(answer)), used, dropped;
        case Transport(canceled) =>
          dropped := dropped + 1;
          if attempt < MAX_ATTEMPTS && canceled {
            return Some(CanceledWhileWaiting), used, dropped;
          }
      }
    }
    return Some(Exhausted), used, dropped;
  }

  // ---------------------------------------------------------------- the network

  datatype Task = Task(contextID: ContextID, failed: bool)

  /** What a deliverer returns, with two observations: the instance whose local deliverer ran
      and what it saw, and the number of forwards. */
  datatype Delivery = Delivery(task: Task, err: bool, seen: Option<(Name, ContextID)>, hops: nat)

  /** An instance: its id, its card cache (the url in each peer's card, empty when the card has
      none), and whether a hub deliverer is in front of the federated one. */
  datatype Node = Node(self: Sid, cards: map<Sid, Url>, hub: bool)

  /** The transports and the local deliverers are arbitrary: `http` gives the instance that
      answers a POST to a url, `relay` the hub attempts to reach an organisation. */
  datatype Net = Net(
    node: Name -> Node,
    http: (Name, Url) -> Option<Name>,
    relay: (Name, string) -> (Attempt<Name>, Attempt<Name>, Attempt<Name>),
    deliverLocally: (Name, ContextID) -> (Task, bool))

  function TrimRightSlash(s: string): (r: string)
  {
    if s != "" && s[|s| - 1] == '/' then TrimRightSlash(s[..|s| - 1]) else s
  }

  function TrimLeftSlash(s: string): (r: string)
  {
    if s != "" && s[0] == '/' then TrimLeftSlash(s[1..]) else s
  }

  const HUB_SCHEME := "hub://"

  /** The url of a cached card, or None for a missing card and for one without a url. */
  function PeerUrl(node: Node, sid: Sid): (r: Option<Url>)
  {
    if sid in node.cards && node.cards[sid] != "" then Some(TrimRightSlash(node.cards[sid])) else None
  }

  function HubPeerOrg(node: Node, sid: Sid): (r: Option<string>)
  {
    var url := PeerUrl(node, sid);
    if url.None? || !(HUB_SCHEME <= url.value) then None
    else
      var org := TrimRightSlash(TrimLeftSlash(url.value[|HUB_SCHEME|..]));
      if org == "" then None else Some(org)
  }

  function Local(net: Net, at: Name, ctx: ContextID): (r: Delivery)
  {
    var (task, err) := net.deliverLocally(at, ctx);
    Delivery(task, err, Some((at, ctx)), 0)
  }

  function Failed(ctx: ContextID): (r: Delivery)
  {
    Delivery(Task(ctx, true), true, None, 0)
  }

  /** What the caller of a forward makes of the peer's answer. */
  function Forwarded(sid: Sid, ctx: ContextID, d: Delivery): (r: Delivery)
  {
    if d.err then Delivery(Task(ctx, true), true, d.seen, d.hops + 1)
    else
      var task := if d.task.contextID != "" then d.task.(contextID := Prefix(sid, d.task.contextID)) else d.task;
      Delivery(task, false, d.seen, d.hops + 1)
  }

  /** FederatedDeliverer.Deliver. */
  function FederatedDeliver(net: Net, at: Name, ctx: ContextID): (r: Delivery)
    decreases |ctx|, 0
  {
    if Bare(ctx) then Local(net, at, ctx)
    else
      PrefixInvertsParse(ctx);
      var (sid, rest) := ParsePeer(ctx).value;
      if sid == net.node(at).self then Local(net, at, rest)
      else
        match PeerUrl(net.node(at), sid)
        case None => Failed(ctx)
        case Some(url) =>
          match net.http(at, url)
          case None => Failed(ctx)
          case Some(peer) => Forwarded(sid, ctx, Receive(net, peer, rest))
  }

  /** HubDeliverer.Deliver. */
  function HubDeliver(net: Net, at: Name, ctx: ContextID): (r: Delivery)
    decreases |ctx|, 1
  {
    if Bare(ctx) || ParsePeer(ctx).value.0 == net.node(at).self then FederatedDeliver(net, at, ctx)
    else
      PrefixInvertsParse(ctx);
      var (sid, rest) := ParsePeer(ctx).value;
      match HubPeerOrg(net.node(at), sid)
      case None => FederatedDeliver(net, at, ctx)
      case Some(org) =>
        var (a, b, c) := net.relay(at, org);
        match RetryFrom([a, b, c], 0)
        case Answered(peer) => Forwarded(sid, ctx, Receive(net, peer, rest))
        case _ => Failed(ctx)
  }

  /** What an instance does with an incoming message. */
  function Receive(net: Net, at: Name, ctx: ContextID): (r: Delivery)
    decreases |ctx|, 2
  {
    if net.node(at).hub then HubDeliver(net, at, ctx) else FederatedDeliver(net, at, ctx)
  }

  // ---------------------------------------------------------------- the route of a path

  /** The instance that the next hop to peer `sid` reaches, over whichever transport. */
  function NextHop(net: Net, at: Name, sid: Sid): (r: Option<Name>)
  {
    var node := net.node(at);
    var org := HubPeerOrg(node, sid);
    if node.hub && org.Some? then
      var (a, b, c) := net.relay(at, org.value);
      var r := RetryFrom([a, b, c], 0);
      if r.Answered? then Some(r.answer) else None
    else
      match PeerUrl(node, sid)
      case None => None
      case Some(url) => net.http(at, url)
  }

  /** Where a path leads: it ends where it is used up, where a segment names the instance that
      handles it, or where there is no way on. `at` is the last instance, after `hops`. */
  datatype Arrival = Arrival(reached: bool, at: Name, hops: nat, ownSegment: bool)

  function Walk(net: Net, at: Name, path: seq<Sid>): (a: Arrival)
    ensures a.hops <= |path|
    ensures a.ownSegment ==> a.hops < |path|
    ensures a.reached && !a.ownSegment ==> a.hops == |path|
    ensures !a.reached ==> a.hops < |path| && !a.ownSegment
    decreases |path|
  {
    if path == [] then Arrival(true, at, 0, false)
    else if path[0] == net.node(at).self then Arrival(true, at, 0, true)
    else
      match NextHop(net, at, path[0])
      case None => Arrival(false, at, 0, false)
      case Some(peer) =>
        var rest := Walk(net, peer, path[1..]);
        rest.(hops := rest.hops + 1)
  }

  /** The part of a path the last instance hands to its local deliverer. */
  function LeftOver(path: seq<Sid>, a: Arrival): (r: seq<Sid>)
    requires a.hops <= |path| && (a.ownSegment ==> a.hops < |path|)
  {
    path[a.hops + (if a.ownSegment then 1 else 0)..]
  }

  lemma {:induction false} ReceiveBare(net: Net, at: Name, ctx: ContextID)
    requires Bare(ctx)
    ensures Receive(net, at, ctx) == Local(net, at, ctx)
  {
    assert FederatedDeliver(net, at, ctx) == Local(net, at, ctx);
    assert HubDeliver(net, at, ctx) == FederatedDeliver(net, at, ctx);
  }

  lemma {:induction false} FederatedStep(net: Net, at: Name, sid: Sid, rest: ContextID)
    requires ValidSid(sid) && rest != ""
    ensures FederatedDeliver(net, at, Prefix(sid, rest)) ==
      if sid == net.node(at).self then Local(net, at, rest)
      else
        match PeerUrl(net.node(at), sid)
        case None => Failed(Prefix(sid, rest))
        case Some(url) =>
          match net.http(at, url)
          case None => Failed(Prefix(sid, rest))
          case Some(peer) => Forwarded(sid, Prefix(sid, rest), Receive(net, peer, rest))
  {
    ParseInvertsPrefix(sid, rest);
  }

  /** One step of routing, the same for both transports. */
  lemma {:induction false} ReceiveStep(net: Net, at: Name, sid: Sid, rest: ContextID)
    requires ValidSid(sid) && rest != ""
    ensures Receive(net, at, Prefix(sid, rest)) ==
      if sid == net.node(at).self then Local(net, at, rest)
      else
        match NextHop(net, at, sid)
        case None => Failed(Prefix(sid, rest))
        case Some(peer) => Forwarded(sid, Prefix(sid, rest), Receive(net, peer, rest))
  {
    ParseInvertsPrefix(sid, rest);
    FederatedStep(net, at, sid, rest);
    if net.node(at).hub {
      assert Receive(net, at, Prefix(sid, rest)) == HubDeliver(net, at, Prefix(sid, rest));
    }
  }

  /** The outcome of a message that goes along a path: one forward for each hop, the rest of the
      path seen at the end, and failure under its own context id when the end is not reached. */
  predicate Follows(net: Net, path: seq<Sid>, s: ContextID, d: Delivery, a: Arrival)
    requires a.hops <= |path| && (a.ownSegment ==> a.hops < |path|)
  {
    var rest := Join(LeftOver(path, a), s);
    && d.hops == a.hops
    && d.seen == (if a.reached then Some((a.at, rest)) else None)
    && d.err == (a.reached ==> net.deliverLocally(a.at, rest).1)
    && (d.err && (a.hops > 0 || !a.reached) ==> d.task == Task(Join(path, s), true))
  }

  lemma {:induction false} HopFollows(net: Net, path: seq<Sid>, s: ContextID, d: Delivery, a: Arrival)
    requires path != [] && a.hops <= |path| - 1 && (a.ownSegment ==> a.hops < |path| - 1)
    requires Follows(net, path[1..], s, d, a)
    ensures Follows(net, path, s, Forwarded(path[0], Join(path, s), d), a.(hops := a.hops + 1))
  {
    assert LeftOver(path[1..], a) == LeftOver(path, a.(hops := a.hops + 1));
  }

  /** Where any message goes, on any network, cycles included: along the walk of its path, one
      forward for each hop, and what the local deliverer at the end sees is the rest of the
      path. A message that does not get there comes back failed under its own context id. */
  lemma {:induction false} RoutingFollowsPath(net: Net, at: Name, path: seq<Sid>, s: ContextID)
    requires Bare(s) && (path != [] ==> s != "") && forall i :: 0 <= i < |path| ==> ValidSid(path[i])
    ensures Follows(net, path, s, Receive(net, at, Join(path, s)), Walk(net, at, path))
    decreases |path|
  {
    if path == [] {
      ReceiveBare(net, at, s);
    } else {
      JoinNonempty(path[1..], s);
      ReceiveStep(net, at, path[0], Join(path[1..], s));
      if path[0] != net.node(at).self && NextHop(net, at, path[0]).Some? {
        var peer := NextHop(net, at, path[0]).value;
        RoutingFollowsPath(net, peer, path[1..], s);
        HopFollows(net, path, s, Receive(net, peer, Join(path[1..], s)), Walk(net, peer, path[1..]));
      }
    }
  }

  /** Routing ends on any network: a context id crosses at most as many instances as it has
      peer prefixes. */
  lemma {:induction false} HopsBounded(net: Net, at: Name, ctx: ContextID)
    ensures Receive(net, at, ctx).hops <= |Split(ctx).0| <= |ctx|
  {
    RoutingFollowsPath(net, at, Split(ctx).0, Split(ctx).1);
  }

  /** Local deliverers that answer with the context id they were given. */
  ghost predicate Echoes(net: Net)
  {
    forall at, ctx :: net.deliverLocally(at, ctx) == (Task(ctx, false), false)
  }

  lemma JoinNonempty(path: seq<Sid>, s: ContextID)
    requires s != ""
    ensures Join(path, s) != ""
  {
  }

  /** The path that comes back with the answer: all of it, but for an own segment. */
  function Echoed(net: Net, at: Name, path: seq<Sid>): (r: seq<Sid>)
    ensures Walk(net, at, path).reached && Walk(net, at, path).ownSegment ==> |r| == |path| - 1
    ensures !Walk(net, at, path).ownSegment ==> r == path
    decreases |path|
  {
    if path == [] then []
    else if path[0] == net.node(at).self then path[1..]
    else
      match NextHop(net, at, path[0])
      case None => path
      case Some(peer) => [path[0]] + Echoed(net, peer, path[1..])
  }

  lemma {:induction false} EchoAlongPath(net: Net, at: Name, path: seq<Sid>, s: ContextID)
    requires Echoes(net) && Walk(net, at, path).reached
    requires Bare(s) && (path != [] ==> s != "") && forall i :: 0 <= i < |path| ==> ValidSid(path[i])
    ensures Receive(net, at, Join(path, s)).task == Task(Join(Echoed(net, at, path), s), false)
    ensures !Receive(net, at, Join(path, s)).err
    decreases |path|
  {
    if path == [] {
      ReceiveBare(net, at, s);
    } else {
      var rest := Join(path[1..], s);
      JoinNonempty(path[1..], s);
      ReceiveStep(net, at, path[0], rest);
      if path[0] != net.node(at).self {
        var peer := NextHop(net, at, path[0]).value;
        EchoAlongPath(net, peer, path[1..], s);
        var back := Echoed(net, peer, path[1..]);
        JoinNonempty(back, s);
        assert ([path[0]] + back)[1..] == back;
      }
    }
  }

  lemma {:induction false} EchoedSids(net: Net, at: Name, path: seq<Sid>)
    requires forall i :: 0 <= i < |path| ==> ValidSid(path[i])
    ensures forall i :: 0 <= i < |Echoed(net, at, path)| ==> ValidSid(Echoed(net, at, path)[i])
    decreases |path|
  {
    if path != [] && path[0] != net.node(at).self && NextHop(net, at, path[0]).Some? {
      EchoedSids(net, NextHop(net, at, path[0]).value, path[1..]);
    }
  }

  /** Strip and restore, for every context id. With echoing local deliverers and a way to the
      end of the path, the caller gets its own context id back if and only if no instance
      on the way is named by the segment it handles; then the last instance saw the bare
      session. An own segment is stripped and not restored. */
  lemma {:induction false} RoundTrip(net: Net, at: Name, ctx: ContextID)
    requires Echoes(net) && Walk(net, at, Split(ctx).0).reached
    ensures var d, a := Receive(net, at, ctx), Walk(net, at, Split(ctx).0);
      && !d.err && !d.task.failed
      && (d.task.contextID == ctx <==> !a.ownSegment)
      && (!a.ownSegment ==> d.seen == Some((a.at, Split(ctx).1)) && d.hops == |Split(ctx).0|)
  {
    var (path, s) := Split(ctx);
    var a := Walk(net, at, path);
    RoutingFollowsPath(net, at, path, s);
    EchoAlongPath(net, at, path, s);
    EchoedSids(net, at, path);
    if a.ownSegment {
      SplitInvertsJoin(Echoed(net, at, path), s);
    } else {
      assert LeftOver(path, a) == [];
    }
  }

  /** On any echoing network, an instance named by the message it gets strips its own prefix,
      and the caller does not get it back. */
  lemma {:induction false} OwnPrefixWitness(net: Net, at: Name, s: ContextID)
    requires Echoes(net) && ValidSid(net.node(at).self) && s != "" && Bare(s)
    ensures var ctx := Prefix(net.node(at).self, s);
      var d := Receive(net, at, ctx);
      !d.err && d.task.contextID == s && s != ctx && d.seen == Some((at, s))
  {
    ReceiveStep(net, at, net.node(at).self, s);
  }
}
