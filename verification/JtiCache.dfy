/** The runner's bearer-token checks and the replay cache behind them
    (internal/auth/jwt_runner_middleware.go). */
module JtiCache {
  import opened Common

  type Jti = string

  /** Nanoseconds since the Unix epoch. */
  type Time = int

  const SECOND: int := 1_000_000_000

  /** Go's zero time, 1 January of year 1: the initial `last`. */
  const ZERO_TIME: Time := -62_135_596_800 * SECOND

  // ---------------------------------------------------------------- the cache as a value

  datatype Cache = Cache(seen: map<Jti, Time>, last: Time)

  const EMPTY := Cache(map[], ZERO_TIME)

  /** The opportunistic sweep: only when the last one is more than a TTL ago. */
  function Collected(c: Cache, now: Time, ttl: int): (r: Cache)
  {
    if now - c.last > ttl then
      Cache(map k | k in c.seen && now - c.seen[k] <= ttl :: c.seen[k], now)
    else
      c
  }

  predicate Remembered(c: Cache, jti: Jti, now: Time, ttl: int)
  {
    jti in c.seen && now - c.seen[jti] < ttl
  }

  /** A new token id is stored with the current time; a remembered one leaves its time alone. */
  function Observed(c: Cache, jti: Jti, now: Time, ttl: int): (r: Cache)
  {
    var c' := Collected(c, now, ttl);
    if Remembered(c', jti, now, ttl) then c' else c'.(seen := c'.seen[jti := now])
  }

  predicate IsNew(c: Cache, jti: Jti, now: Time, ttl: int)
  {
    !Remembered(Collected(c, now, ttl), jti, now, ttl)
  }

  // ---------------------------------------------------------------- the token checks

  datatype Audience = One(name: string) | Several(names: seq<Option<string>>) | Malformed

  datatype Claims = Claims(iss: string, aud: Audience, sub: string, exp: int, jti: Jti)

  /** A request: its bearer token text and what the libraries find in it. `claims` is None
      when the header or the claims segment does not decode; `keyFound` and `signed` are the
      outcomes of the JWKS lookup and of the signature check. */
  datatype Request = Request(bearer: string, claims: Option<Claims>, keyFound: bool, signed: bool)

  datatype Refusal =
    | MissingBearer | MalformedToken | Undecodable | MissingIssuer | NoKey | BadSignature
    | Expired | WrongAudience | MissingJti | Replay

  function Dots(s: string): (r: nat)
  {
    if s == "" then 0 else (if s[0] == '.' then 1 else 0) + Dots(s[1..])
  }

  function UnixSeconds(now: Time): (r: int)
  {
    now / SECOND
  }

  predicate Past(exp: int, now: Time)
  {
    exp > 0 && UnixSeconds(now) > exp
  }

  predicate Expected(name: string, sid: string)
  {
    name == sid || name == "runner://" + sid
  }

  predicate AudienceOk(aud: Audience, sid: string)
  {
    match aud
    case One(name) => Expected(name, sid)
    case Several(names) => exists i :: 0 <= i < |names| && names[i].Some? && Expected(names[i].value, sid)
    case Malformed => false
  }

  /** The first check that fails before the replay cache is asked, in the order of the code. */
  function Screened(req: Request, sid: string, now: Time): (r: Result<Claims, Refusal>)
  {
    if req.bearer == "" then Err(MissingBearer)
    else if Dots(req.bearer) != 2 then Err(MalformedToken)
    else if req.claims.None? then Err(Undecodable)
    else
      var claims := req.claims.value;
      if claims.iss == "" then Err(MissingIssuer)
      else if !req.keyFound then Err(NoKey)
      else if !req.signed then Err(BadSignature)
      else if Past(claims.exp, now) then Err(Expired)
      else if !AudienceOk(claims.aud, sid) then Err(WrongAudience)
      else if claims.jti == "" then Err(MissingJti)
      else Ok(claims)
  }

  function Verdict(c: Cache, req: Request, sid: string, now: Time, ttl: int): (r: Result<string, Refusal>)
  {
    match Screened(req, sid, now)
    case Err(e) => Err(e)
    case Ok(claims) => if IsNew(c, claims.jti, now, ttl) then Ok(claims.sub) else Err(Replay)
  }

  function AfterVerify(c: Cache, req: Request, sid: string, now: Time, ttl: int): (r: Cache)
  {
    match Screened(req, sid, now)
    case Err(_) => c
    case Ok(claims) => Observed(c, claims.jti, now, ttl)
  }

  // ---------------------------------------------------------------- the code

  class JtiCache {
    const ttl: int
    var seen: map<Jti, Time>
    var last: Time

    function Value(): (r: Cache)
      reads this
    {
      Cache(seen, last)
    }

    constructor (ttl: int)
      ensures this.ttl == ttl && Value() == EMPTY
    {
      this.ttl := ttl;
      seen := map[];
      last := ZERO_TIME;
    }

    method ObserveAndCheck(jti: Jti, now: Time) returns (isNew: bool)
      modifies this
      ensures Value() == Observed(old(Value()), jti, now, ttl)
      ensures isNew <==> old(IsNew(Value(), jti, now, ttl))
    {
      if now - last > ttl {
        var keys := seen.Keys;
        while keys != {}
          invariant last == old(last)
          invariant seen.Keys <= old(seen).Keys
          invariant forall k :: k in seen ==> seen[k] == old(seen)[k]
          invariant forall k :: k in keys ==> k in seen
          invariant forall k :: k in old(seen) && k !in keys ==> (k in seen <==> now - old(seen)[k] <= ttl)
          decreases keys
        {
          var k :| k in keys;
          if now - seen[k] > ttl {
            seen := seen - {k};
          }
          keys := keys - {k};
        }
        last := now;
        assert Value() == Collected(old(Value()), now, ttl);
      }
      if jti in seen && now - seen[jti] < ttl {
        return false;
      }
      seen := seen[jti := now];
      return true;
    }
  }

  method AudienceMatches(aud: Audience, sid: string) returns (ok: bool)
    ensures ok <==> AudienceOk(aud, sid)
  {
    match aud
    case One(name) => return Expected(name, sid);
    case Several(names) =>
      for i := 0 to |names|
        invariant forall k :: 0 <= k < i ==> names[k].None? || !Expected(names[k].value, sid)
      {
        if names[i].Some? && Expected(names[i].value, sid) {
          return true;
        }
      }
      return false;
    case Malformed => return false;
  }

  method VerifyRunnerJWT(req: Request, sid: string, now: Time, jti: JtiCache) returns (r: Result<string, Refusal>)
    modifies jti
    ensures r == old(Verdict(jti.Value(), req, sid, now, jti.ttl))
    ensures jti.Value() == AfterVerify(old(jti.Value()), req, sid, now, jti.ttl)
  {
    if req.bearer == "" {
      return Err(MissingBearer);
    }
    if Dots(req.bearer) != 2 {
      return Err(MalformedToken);
    }
    if req.claims.None? {
      return Err(Undecodable);
    }
    var claims := req.claims.value;
    if claims.iss == "" {
      return Err(MissingIssuer);
    }
    if !req.keyFound {
      return Err(NoKey);
    }
    if !req.signed {
      return Err(BadSignature);
    }
    if claims.exp > 0 && UnixSeconds(now) > claims.exp {
      return Err(Expired);
    }
    var matches := AudienceMatches(claims.aud, sid);
    if !matches {
      return Err(WrongAudience);
    }
    if claims.jti == "" {
      return Err(MissingJti);
    }
    var isNew := jti.ObserveAndCheck(claims.jti, now);
    if !isNew {
      return Err(Replay);
    }
    return Ok(claims.sub);
  }

  // ---------------------------------------------------------------- whole runs

  datatype Call = Call(req: Request, now: Time)

  /** The clock a run sees never goes back. */
  predicate Clocked(calls: seq<Call>)
  {
    forall i, j :: 0 <= i <= j < |calls| ==> calls[i].now <= calls[j].now
  }

  function CacheAfter(calls: seq<Call>, sid: string, ttl: int): (r: Cache)
  {
    if calls == [] then EMPTY
    else
      var last := calls[|calls| - 1];
      AfterVerify(CacheAfter(calls[..|calls| - 1], sid, ttl), last.req, sid, last.now, ttl)
  }

  /** The answer given to call `i` of a run. */
  function Answer(calls: seq<Call>, i: nat, sid: string, ttl: int): (r: Result<string, Refusal>)
    requires i < |calls|
  {
    Verdict(CacheAfter(calls[..i], sid, ttl), calls[i].req, sid, calls[i].now, ttl)
  }

  /** Call `i` was accepted, for token id `jti`. */
  predicate AcceptedAs(calls: seq<Call>, i: nat, jti: Jti, sid: string, ttl: int)
  {
    && i < |calls|
    && Answer(calls, i, sid, ttl).Ok?
    && calls[i].req.claims.value.jti == jti
  }

  /** The cache that never forgets: some earlier call of the run with this id was accepted
      less than a TTL before `now`. */
  predicate Replayed(calls: seq<Call>, n: nat, jti: Jti, now: Time, sid: string, ttl: int)
  {
    exists i :: 0 <= i < n && AcceptedAs(calls, i, jti, sid, ttl) && now - calls[i].now < ttl
  }

  /** Some accepted call of the first `n` put `jti` in the cache at time `at`. */
  predicate Sourced(calls: seq<Call>, n: nat, jti: Jti, at: Time, sid: string, ttl: int)
    requires n <= |calls|
  {
    exists i :: 0 <= i < n && AcceptedAs(calls, i, jti, sid, ttl) && calls[i].now == at
  }

  /** An acceptance of `k` at time `at` is covered by a stored time at least as late, or is
      more than a TTL old. */
  predicate Covered(c: Cache, k: Jti, at: Time, now: Time, ttl: int)
  {
    (k in c.seen && at <= c.seen[k]) || now - at > ttl
  }

  /** What ties the cache to the first `n` calls at time `now`. */
  ghost predicate Tracks(c: Cache, calls: seq<Call>, n: nat, now: Time, sid: string, ttl: int)
    requires n <= |calls|
  {
    && (forall k :: k in c.seen ==> Sourced(calls, n, k, c.seen[k], sid, ttl))
    && (forall i, k :: 0 <= i < n && AcceptedAs(calls, i, k, sid, ttl) ==> Covered(c, k, calls[i].now, now, ttl))
  }

  lemma ObservedEntry(c: Cache, jti: Jti, now: Time, ttl: int, k: Jti)
    requires k in Observed(c, jti, now, ttl).seen
    ensures var at := Observed(c, jti, now, ttl).seen[k];
      || (k in c.seen && c.seen[k] == at)
      || (k == jti && at == now && IsNew(c, jti, now, ttl))
  {
  }

  lemma ObservedCovers(c: Cache, jti: Jti, now: Time, ttl: int, k: Jti, at: Time)
    requires at <= now
    requires Covered(c, k, at, now, ttl) || (k == jti && at == now && IsNew(c, jti, now, ttl))
    ensures Covered(Observed(c, jti, now, ttl), k, at, now, ttl)
  {
  }

  lemma {:induction false} EntrySourced(c: Cache, calls: seq<Call>, n: nat, k: Jti, sid: string, ttl: int)
    requires n < |calls| && c == CacheAfter(calls[..n], sid, ttl)
    requires k in c.seen ==> Sourced(calls, n, k, c.seen[k], sid, ttl)
    requires k in AfterVerify(c, calls[n].req, sid, calls[n].now, ttl).seen
    ensures Sourced(calls, n + 1, k, AfterVerify(c, calls[n].req, sid, calls[n].now, ttl).seen[k], sid, ttl)
  {
    var c' := AfterVerify(c, calls[n].req, sid, calls[n].now, ttl);
    var screened := Screened(calls[n].req, sid, calls[n].now);
    if screened.Ok? {
      ObservedEntry(c, screened.value.jti, calls[n].now, ttl, k);
    }
    if k in c.seen && c.seen[k] == c'.seen[k] {
      var i :| 0 <= i < n && AcceptedAs(calls, i, k, sid, ttl) && calls[i].now == c.seen[k];
    } else {
      assert AcceptedAs(calls, n, k, sid, ttl);
    }
  }

  lemma {:induction false} AcceptanceCovered(c: Cache, calls: seq<Call>, n: nat, i: nat, k: Jti, sid: string, ttl: int)
    requires i <= n < |calls| && c == CacheAfter(calls[..n], sid, ttl) && calls[i].now <= calls[n].now
    requires AcceptedAs(calls, i, k, sid, ttl) && (i < n ==> Covered(c, k, calls[i].now, calls[n].now, ttl))
    ensures Covered(AfterVerify(c, calls[n].req, sid, calls[n].now, ttl), k, calls[i].now, calls[n].now, ttl)
  {
    var screened := Screened(calls[n].req, sid, calls[n].now);
    if screened.Ok? {
      ObservedCovers(c, screened.value.jti, calls[n].now, ttl, k, calls[i].now);
    }
  }

  lemma {:induction false} StepTracks(c: Cache, calls: seq<Call>, n: nat, sid: string, ttl: int)
    requires n < |calls| && Clocked(calls) && c == CacheAfter(calls[..n], sid, ttl)
    requires Tracks(c, calls, n, calls[n].now, sid, ttl)
    ensures Tracks(AfterVerify(c, calls[n].req, sid, calls[n].now, ttl), calls, n + 1, calls[n].now, sid, ttl)
  {
    var c' := AfterVerify(c, calls[n].req, sid, calls[n].now, ttl);
    forall k | k in c'.seen
      ensures Sourced(calls, n + 1, k, c'.seen[k], sid, ttl)
    {
      EntrySourced(c, calls, n, k, sid, ttl);
    }
    forall i, k | 0 <= i < n + 1 && AcceptedAs(calls, i, k, sid, ttl)
      ensures Covered(c', k, calls[i].now, calls[n].now, ttl)
    {
      AcceptanceCovered(c, calls, n, i, k, sid, ttl);
    }
  }

  /** Time only makes coverage easier. */
  lemma {:induction false} RunTracks(calls: seq<Call>, n: nat, now: Time, sid: string, ttl: int)
    requires n <= |calls| && Clocked(calls) && (n > 0 ==> calls[n - 1].now <= now)
    ensures Tracks(CacheAfter(calls[..n], sid, ttl), calls, n, now, sid, ttl)
    decreases n
  {
    if n > 0 {
      RunTracks(calls, n - 1, calls[n - 1].now, sid, ttl);
      StepTracks(CacheAfter(calls[..n - 1], sid, ttl), calls, n - 1, sid, ttl);
      assert calls[..n][..n - 1] == calls[..n - 1];
    }
  }

  /** Lazy collection is invisible: a call is accepted if and only if it passes the token
      checks and no earlier call with its id was accepted less than a TTL ago, over the
      whole run and with nothing ever forgotten. */
  lemma {:induction false} CacheRefinesHistory(calls: seq<Call>, n: nat, sid: string, ttl: int)
    requires Clocked(calls) && n < |calls|
    ensures var s := Screened(calls[n].req, sid, calls[n].now);
      Answer(calls, n, sid, ttl) ==
        if s.Err? then Err(s.error)
        else if Replayed(calls, n, s.value.jti, calls[n].now, sid, ttl) then Err(Replay)
        else Ok(s.value.sub)
  {
    var s := Screened(calls[n].req, sid, calls[n].now);
    if s.Ok? {
      var now, k := calls[n].now, s.value.jti;
      RunTracks(calls, n, now, sid, ttl);
      RememberedIsReplayed(CacheAfter(calls[..n], sid, ttl), calls, n, k, now, sid, ttl);
    }
  }

  lemma {:induction false} RememberedIsReplayed(c: Cache, calls: seq<Call>, n: nat, k: Jti, now: Time, sid: string,
                                                ttl: int)
    requires n <= |calls| && Tracks(c, calls, n, now, sid, ttl)
    ensures IsNew(c, k, now, ttl) <==> !Replayed(calls, n, k, now, sid, ttl)
  {
    if !IsNew(c, k, now, ttl) {
      var i :| 0 <= i < n && AcceptedAs(calls, i, k, sid, ttl) && calls[i].now == c.seen[k];
    }
  }

  /** Nothing is kept long: after every call that reaches the cache, each stored entry is at
      most two TTLs old. */
  lemma {:induction false} MemoryBound(calls: seq<Call>, sid: string, ttl: int)
    requires Clocked(calls) && 0 <= ttl && forall i :: 0 <= i < |calls| ==> ZERO_TIME <= calls[i].now
    ensures var c := CacheAfter(calls, sid, ttl);
      && (forall k :: k in c.seen ==> c.last - c.seen[k] <= ttl)
      && (calls != [] ==> c.last <= calls[|calls| - 1].now)
      && (calls != [] && Screened(calls[|calls| - 1].req, sid, calls[|calls| - 1].now).Ok? ==>
            forall k :: k in c.seen ==> calls[|calls| - 1].now - c.seen[k] <= 2 * ttl)
    decreases |calls|
  {
    if calls != [] {
      MemoryBound(calls[..|calls| - 1], sid, ttl);
    }
  }

  /** The same token, presented again at `now`. */
  predicate Again(call: Call, first: Call)
  {
    && call.req.claims.Some? && first.req.claims.Some?
    && call.req.claims.value.jti == first.req.claims.value.jti
    && call.req.claims.value.exp == first.req.claims.value.exp
  }

  /** The expiry check and the replay window leave no time in between. */
  predicate WindowsMeet(exp: int, acceptedAt: Time, ttl: int)
  {
    exp > 0 && (exp + 1) * SECOND <= acceptedAt + ttl
  }

  lemma {:induction false} NotTwice(calls: seq<Call>, i: nat, j: nat, sid: string, ttl: int)
    requires Clocked(calls) && i < j < |calls| && Again(calls[j], calls[i])
    requires Answer(calls, i, sid, ttl).Ok? && WindowsMeet(calls[i].req.claims.value.exp, calls[i].now, ttl)
    ensures Answer(calls, j, sid, ttl).Err?
  {
    CacheRefinesHistory(calls, j, sid, ttl);
    var k := calls[i].req.claims.value.jti;
    assert AcceptedAs(calls, i, k, sid, ttl);
    if calls[i].now + ttl <= calls[j].now {
      assert Past(calls[j].req.claims.value.exp, calls[j].now);
    } else {
      assert Replayed(calls, j, k, calls[j].now, sid, ttl);
    }
  }

  /** The first moment the cache would take the token again. */
  function Reopens(acceptedAt: Time, ttl: int): (r: Time)
  {
    if ttl < 0 then acceptedAt else acceptedAt + ttl
  }

  lemma {:induction false} TwiceOtherwise(calls: seq<Call>, sid: string, ttl: int) returns (again: Call)
    requires calls != [] && Clocked(calls)
    requires Answer(calls, |calls| - 1, sid, ttl).Ok?
    requires !WindowsMeet(calls[|calls| - 1].req.claims.value.exp, calls[|calls| - 1].now, ttl)
    ensures again == Call(calls[|calls| - 1].req, Reopens(calls[|calls| - 1].now, ttl))
    ensures Clocked(calls + [again]) && Answer(calls + [again], |calls|, sid, ttl).Ok?
  {
    var n := |calls| - 1;
    var first := calls[n];
    again := Call(first.req, Reopens(first.now, ttl));
    var run := calls + [again];
    var exp, k := first.req.claims.value.exp, first.req.claims.value.jti;
    assert !Past(exp, again.now) by {
      if 0 <= ttl && exp > 0 {
        assert again.now < (exp + 1) * SECOND;
      }
    }
    forall i | 0 <= i < |run| - 1
      ensures again.now - run[i].now >= ttl
    {
      assert run[i] == calls[i];
    }
    CacheRefinesHistory(run, n + 1, sid, ttl);
  }

  /** Exactly when a token is good for one use. After a call accepted at `t`, every
      continuation of the run refuses the token if and only if `exp` is set and `exp` plus
      one second is no later than `t` plus the TTL. */
  lemma {:induction false} AcceptedOnce(calls: seq<Call>, sid: string, ttl: int)
    requires calls != [] && Clocked(calls) && Answer(calls, |calls| - 1, sid, ttl).Ok?
    ensures var first := calls[|calls| - 1];
      WindowsMeet(first.req.claims.value.exp, first.now, ttl)
      <==>
      forall later: seq<Call>, j: nat ::
        |calls| <= j < |calls + later| && Clocked(calls + later) && Again((calls + later)[j], first) ==>
          Answer(calls + later, j, sid, ttl).Err?
  {
    var n := |calls| - 1;
    var first := calls[n];
    if WindowsMeet(first.req.claims.value.exp, first.now, ttl) {
      forall later: seq<Call>, j: nat |
        |calls| <= j < |calls + later| && Clocked(calls + later) && Again((calls + later)[j], first)
        ensures Answer(calls + later, j, sid, ttl).Err?
      {
        assert (calls + later)[..n] == calls[..n];
        NotTwice(calls + later, n, j, sid, ttl);
      }
    } else {
      var again := TwiceOtherwise(calls, sid, ttl);
      assert Again((calls + [again])[|calls|], first);
    }
  }
}
