/**
 Signing-key rotation with an overlap window (internal/auth/keystore.go).

 Times are integers and the clock is an argument. A key id is the legacy constant or
 carries the mint time, which `%d` prints one-to-one. Signatures are ideal: a token
 records the key that signed it, and verifies under that key only. Persisting succeeds.
 */
module KeyStore {
  import opened Common

  type Time = int
  type Key = nat

  const DefaultOverlap: int := 24 * 3600 * 1_000_000_000

  datatype Kid = LegacyKid | Minted(at: Time)

  datatype KeyEntry = KeyEntry(kid: Kid, key: Key, createdAt: Time, retiredAt: Option<Time>)

  /** The archive row of the repository: absent or empty, unreadable, not JSON, or a
      document. */
  datatype ArchiveRow = NoRow | ReadError | BadJson | Archive(entries: seq<KeyEntry>)

  datatype LegacyRow = LegacyRow(key: Key, createdAt: Option<Time>)

  datatype Claim = Text(text: string) | Seconds(seconds: int) | Other(json: string)

  type Claims = map<string, Claim>

  /** Ideal signatures: a token is the key id it names, the key that signed it, and its claims. */
  datatype Token = MalformedToken | TokenWithoutKid | Token(kid: Kid, signer: Key, claims: Claims)

  datatype KeyError =
    | ReadArchive | ParseArchive | NoActiveKey | BadToken | UnknownKid | PastOverlap | BadSignature

  // -------------------------------------------------- the operations, on values

  predicate Expired(e: KeyEntry, now: Time, overlap: int)
  {
    e.retiredAt.Some? && now - e.retiredAt.value > overlap
  }

  function Retire(es: seq<KeyEntry>, now: Time): (r: seq<KeyEntry>)
    ensures |r| == |es|
    ensures forall i :: 0 <= i < |es| ==>
      r[i] == if es[i].retiredAt.None? then es[i].(retiredAt := Some(now)) else es[i]
  {
    seq(|es|, i requires 0 <= i < |es| =>
      if es[i].retiredAt.None? then es[i].(retiredAt := Some(now)) else es[i])
  }

  function Prune(es: seq<KeyEntry>, now: Time, overlap: int): (r: seq<KeyEntry>)
    ensures forall e :: e in r <==> e in es && !Expired(e, now, overlap)
  {
    if es == [] then []
    else
      var e := es[|es| - 1];
      Prune(es[..|es| - 1], now, overlap) + (if Expired(e, now, overlap) then [] else [e])
  }

  function Rotated(es: seq<KeyEntry>, now: Time, overlap: int, key: Key): (r: seq<KeyEntry>)
  {
    Prune(Retire(es, now), now, overlap) + [KeyEntry(Minted(now), key, now, None)]
  }

  /** The first entry with that key id, if it has not aged out. */
  function Find(es: seq<KeyEntry>, kid: Kid, now: Time, overlap: int): (r: Result<KeyEntry, KeyError>)
  {
    if es == [] then Err(UnknownKid)
    else if es[0].kid != kid then Find(es[1..], kid, now, overlap)
    else if Expired(es[0], now, overlap) then Err(PastOverlap)
    else Ok(es[0])
  }

  /** The newest unretired entry, the earliest of them on a tie. */
  function Newest(es: seq<KeyEntry>): (r: Option<KeyEntry>)
  {
    if es == [] then None
    else
      var before, e := Newest(es[..|es| - 1]), es[|es| - 1];
      if e.retiredAt.Some? then before
      else if before.None? || e.createdAt > before.value.createdAt then Some(e)
      else before
  }

  function Jwks(es: seq<KeyEntry>): (r: seq<(Kid, Key)>)
  {
    seq(|es|, i requires 0 <= i < |es| => (es[i].kid, es[i].key))
  }

  function Check(es: seq<KeyEntry>, t: Token, now: Time, overlap: int): (r: Result<Claims, KeyError>)
  {
    if !t.Token? then Err(BadToken)
    else
      match Find(es, t.kid, now, overlap)
      case Err(e) => Err(e)
      case Ok(e) => if t.signer == e.key then Ok(t.claims) else Err(BadSignature)
  }

  /** The claims as signed: an issue time in Unix seconds is added when there is none. */
  function Stamped(claims: Claims, now: Time): (r: Claims)
  {
    if "iat" in claims then claims else claims["iat" := Seconds(now / 1_000_000_000)]
  }

  // -------------------------------------------------------------- the store

  class Repository {
    var archive: ArchiveRow
    var legacy: Option<LegacyRow>

    constructor (legacy: Option<LegacyRow>)
      ensures archive == NoRow && this.legacy == legacy
    {
      archive := NoRow;
      this.legacy := legacy;
    }
  }

  class KeyStore {
    const overlap: int
    const repo: Repository
    var entries: seq<KeyEntry>

    constructor (repo: Repository, overlap: int)
      ensures this.repo == repo && entries == []
      ensures this.overlap == if overlap <= 0 then DefaultOverlap else overlap
    {
      this.repo := repo;
      this.overlap := if overlap <= 0 then DefaultOverlap else overlap;
      entries := [];
    }

    method PruneExpired(now: Time)
      modifies this
      ensures entries == Prune(old(entries), now, overlap)
    {
      var kept: seq<KeyEntry> := [];
      for i := 0 to |entries|
        invariant entries == old(entries) && kept == Prune(entries[..i], now, overlap)
      {
        assert entries[..i + 1][..i] == entries[..i];
        var e := entries[i];
        if e.retiredAt.Some? && now - e.retiredAt.value > overlap {
          continue;
        }
        kept := kept + [e];
      }
      assert entries[..|entries|] == entries;
      entries := kept;
    }

    /** `key` is the key pair ecdsa.GenerateKey returns. */
    method Rotate(now: Time, key: Key) returns (kid: Kid)
      modifies this, repo
      ensures kid == Minted(now) && entries == Rotated(old(entries), now, overlap, key)
      ensures repo.archive == Archive(entries) && repo.legacy == old(repo.legacy)
    {
      for i := 0 to |entries|
        invariant |entries| == |old(entries)| && repo.legacy == old(repo.legacy)
        invariant forall j :: 0 <= j < i ==> entries[j] == Retire(old(entries), now)[j]
        invariant forall j :: i <= j < |entries| ==> entries[j] == old(entries)[j]
      {
        if entries[i].retiredAt.None? {
          entries := entries[i := entries[i].(retiredAt := Some(now))];
        }
      }
      assert entries == Retire(old(entries), now);
      PruneExpired(now);
      kid := Minted(now);
      entries := entries + [KeyEntry(kid, key, now, None)];
      repo.archive := Archive(entries);
    }

    method Active() returns (newest: Option<KeyEntry>)
      ensures newest == Newest(entries)
    {
      newest := None;
      for i := 0 to |entries|
        invariant newest == Newest(entries[..i])
      {
        assert entries[..i + 1][..i] == entries[..i];
        var e := entries[i];
        if e.retiredAt.Some? {
          continue;
        }
        if newest.None? || e.createdAt > newest.value.createdAt {
          newest := Some(e);
        }
      }
      assert entries[..|entries|] == entries;
    }

    method ByKID(kid: Kid, now: Time) returns (r: Result<KeyEntry, KeyError>)
      ensures r == Find(entries, kid, now, overlap)
    {
      for i := 0 to |entries|
        invariant Find(entries, kid, now, overlap) == Find(entries[i..], kid, now, overlap)
      {
        assert entries[i..][1..] == entries[i + 1..];
        var e := entries[i];
        if e.kid != kid {
          continue;
        }
        if e.retiredAt.Some? && now - e.retiredAt.value > overlap {
          return Err(PastOverlap);
        }
        return Ok(e);
      }
      return Err(UnknownKid);
    }

    method JWKS() returns (keys: seq<(Kid, Key)>)
      ensures keys == Jwks(entries)
    {
      keys := [];
      for i := 0 to |entries|
        invariant keys == Jwks(entries)[..i]
      {
        keys := keys + [(entries[i].kid, entries[i].key)];
      }
    }

    method Sign(claims: Claims, now: Time) returns (r: Result<Token, KeyError>)
      ensures r == if Newest(entries).None? then Err(NoActiveKey)
                   else Ok(Token(Newest(entries).value.kid, Newest(entries).value.key, Stamped(claims, now)))
    {
      var entry := Active();
      if entry.None? {
        return Err(NoActiveKey);
      }
      var stamped := claims;
      if "iat" !in stamped {
        stamped := stamped["iat" := Seconds(now / 1_000_000_000)];
      }
      return Ok(Token(entry.value.kid, entry.value.key, stamped));
    }

    method Verify(token: Token, now: Time) returns (r: Result<Claims, KeyError>)
      ensures r == Check(entries, token, now, overlap)
    {
      if !token.Token? {
        return Err(BadToken);
      }
      var entry := ByKID(token.kid, now);
      if entry.Err? {
        return Err(entry.error);
      }
      if token.signer != entry.value.key {
        return Err(BadSignature);
      }
      return Ok(token.claims);
    }
  }

  /** What loading finds: the pruned archive, else the legacy key, else nothing yet. */
  function Loaded(row: ArchiveRow, legacy: Option<LegacyRow>, now: Time, overlap: int): (r: seq<KeyEntry>)
  {
    if row.Archive? && Prune(row.entries, now, overlap) != [] then Prune(row.entries, now, overlap)
    else if legacy.Some? then
      [KeyEntry(LegacyKid, legacy.value.key,
                if legacy.value.createdAt.Some? then legacy.value.createdAt.value else now, None)]
    else []
  }

  /** LoadOrCreateKeyStore. `key` is used only when a key has to be minted. */
  method LoadOrCreate(repo: Repository, overlap: int, now: Time, key: Key)
    returns (ks: KeyStore?, err: Option<KeyError>)
    modifies repo
    ensures ks == null <==> err.Some?
    ensures ks != null ==> fresh(ks) && ks.repo == repo
    ensures err == if old(repo.archive).ReadError? then Some(ReadArchive)
                   else if old(repo.archive).BadJson? then Some(ParseArchive) else None
    ensures ks != null ==>
      ks.overlap == (if overlap <= 0 then DefaultOverlap else overlap)
    ensures ks != null ==>
      var found := Loaded(old(repo.archive), old(repo.legacy), now, ks.overlap);
      ks.entries == if found == [] then Rotated([], now, ks.overlap, key) else found
    ensures old(repo.archive).NoRow? ==>
      && ks != null && repo.archive.Archive?
      && Daemon(ks.entries, repo.archive.entries) == FirstDaemon(old(repo.legacy), now, ks.overlap, key)
    ensures repo.legacy == old(repo.legacy)
    ensures repo.archive ==
      if ks == null || (old(repo.archive).Archive? && ks.entries == Prune(old(repo.archive).entries, now, ks.overlap))
      then old(repo.archive) else Archive(ks.entries)
  {
    var store := new KeyStore(repo, overlap);
    match repo.archive {
      case Archive(es) =>
        store.entries := es;
        store.PruneExpired(now);
        if |store.entries| > 0 {
          return store, None;
        }
      case BadJson => return null, Some(ParseArchive);
      case ReadError => return null, Some(ReadArchive);
      case NoRow =>
    }
    if repo.legacy.Some? {
      var row := repo.legacy.value;
      var createdAt := if row.createdAt.Some? then row.createdAt.value else now;
      store.entries := [KeyEntry(LegacyKid, row.key, createdAt, None)];
      repo.archive := Archive(store.entries);
      return store, None;
    }
    assert store.entries == [];
    var kid := store.Rotate(now, key);
    return store, None;
  }

  // ----------------------------------------------------------- whole runs

  /** The daemon's life after its first load: rotations, and restarts that load the
      archive again. Each event carries its time. */
  datatype Event = RotateAt(now: Time, key: Key) | ReloadAt(now: Time)

  /** Memory and the persisted archive. */
  datatype Daemon = Daemon(entries: seq<KeyEntry>, archive: seq<KeyEntry>)

  function Apply(d: Daemon, e: Event, overlap: int, legacy: Option<LegacyRow>): (r: Daemon)
  {
    match e
    case RotateAt(now, key) =>
      var es := Rotated(d.entries, now, overlap, key);
      Daemon(es, es)
    case ReloadAt(now) => d.(entries := Loaded(Archive(d.archive), legacy, now, overlap))
  }

  function Run(d: Daemon, es: seq<Event>, overlap: int, legacy: Option<LegacyRow>): (r: Daemon)
    decreases |es|
  {
    if es == [] then d else Run(Apply(d, es[0], overlap, legacy), es[1..], overlap, legacy)
  }

  /** Memory and archive after a first load: the legacy key, or a fresh one when there is none. */
  function FirstDaemon(legacy: Option<LegacyRow>, now: Time, overlap: int, key: Key): (d: Daemon)
  {
    var found := Loaded(NoRow, legacy, now, overlap);
    var es := if found == [] then Rotated([], now, overlap, key) else found;
    Daemon(es, es)
  }

  predicate DistinctKids(es: seq<KeyEntry>)
  {
    forall i, j :: 0 <= i < j < |es| ==> es[i].kid != es[j].kid
  }

  /** One unretired key, the last one; times are in the past. */
  predicate WellKept(es: seq<KeyEntry>, now: Time)
  {
    && es != [] && es[|es| - 1].retiredAt.None?
    && (forall i :: 0 <= i < |es| - 1 ==> es[i].retiredAt.Some? && es[i].retiredAt.value <= now)
    && (forall i :: 0 <= i < |es| && es[i].kid.Minted? ==> es[i].kid.at <= now)
    && DistinctKids(es)
  }

  /** Memory is the archive without entries that have aged out. */
  ghost predicate Inv(d: Daemon, now: Time, overlap: int)
  {
    && WellKept(d.archive, now) && WellKept(d.entries, now)
    && (forall e :: e in d.entries ==> e in d.archive)
    && (forall e :: e in d.archive && !Expired(e, now, overlap) ==> e in d.entries)
  }

  /** The clock does not go back, and it has moved since the last mint whenever a key is
      minted: the key ids stay distinct. */
  predicate Clocked(es: seq<Event>, now: Time, lastMint: Time)
    decreases |es|
  {
    es == [] ||
      (&& now <= es[0].now
       && (es[0].RotateAt? ==> lastMint < es[0].now)
       && Clocked(es[1..], es[0].now, if es[0].RotateAt? then es[0].now else lastMint))
  }

  predicate MintedBy(es: seq<KeyEntry>, t: Time)
  {
    forall i :: 0 <= i < |es| && es[i].kid.Minted? ==> es[i].kid.at <= t
  }

  lemma {:induction false} PruneShape(es: seq<KeyEntry>, now: Time, overlap: int)
    requires DistinctKids(es)
    ensures DistinctKids(Prune(es, now, overlap))
    ensures es != [] && !Expired(es[|es| - 1], now, overlap) ==>
      Prune(es, now, overlap) != []
      && Prune(es, now, overlap)[|Prune(es, now, overlap)| - 1] == es[|es| - 1]
    decreases |es|
  {
    if es != [] {
      var n := |es| - 1;
      PruneShape(es[..n], now, overlap);
      var before := Prune(es[..n], now, overlap);
      forall i | 0 <= i < |before| ensures before[i].kid != es[n].kid {
        assert before[i] in before;
        assert before[i] in es[..n];
      }
    }
  }

  lemma {:induction false} PruneKept(es: seq<KeyEntry>, was: Time, now: Time, overlap: int)
    requires WellKept(es, was) && was <= now
    ensures WellKept(Prune(es, now, overlap), now)
  {
    PruneShape(es, now, overlap);
    var r := Prune(es, now, overlap);
    forall i | 0 <= i < |r|
      ensures r[i] in es && (i < |r| - 1 ==> r[i].retiredAt.Some? && r[i].retiredAt.value <= now)
    {
      assert r[i] in r;
      if i < |r| - 1 {
        var j :| 0 <= j < |es| && es[j] == r[i];
        assert r[i].kid != r[|r| - 1].kid;
      }
    }
  }

  lemma {:induction false} RotateKept(es: seq<KeyEntry>, was: Time, lastMint: Time, now: Time, overlap: int, key: Key)
    requires WellKept(es, was) && was <= now && MintedBy(es, lastMint) && lastMint < now
    ensures WellKept(Rotated(es, now, overlap, key), now)
    ensures MintedBy(Rotated(es, now, overlap, key), now)
  {
    var old' := Retire(es, now);
    var r := Rotated(es, now, overlap, key);
    assert DistinctKids(old');
    PruneShape(old', now, overlap);
    var kept := Prune(old', now, overlap);
    forall i | 0 <= i < |kept|
      ensures kept[i].retiredAt.Some? && kept[i].retiredAt.value <= now
      ensures kept[i].kid.Minted? ==> kept[i].kid.at <= lastMint
    {
      assert kept[i] in kept;
      var j :| 0 <= j < |old'| && old'[j] == kept[i];
      assert es[j].kid == old'[j].kid;
    }
  }

  lemma {:induction false} EventKeepsInv(d: Daemon, e: Event, was: Time, lastMint: Time, overlap: int,
                                         legacy: Option<LegacyRow>)
    requires Inv(d, was, overlap) && MintedBy(d.archive, lastMint) && was <= e.now && 0 <= overlap
    requires e.RotateAt? ==> lastMint < e.now
    ensures var d' := Apply(d, e, overlap, legacy);
      && Inv(d', e.now, overlap)
      && MintedBy(d'.archive, if e.RotateAt? then e.now else lastMint)
  {
    match e
    case RotateAt(now, key) =>
      assert MintedBy(d.entries, lastMint) by {
        forall i | 0 <= i < |d.entries| && d.entries[i].kid.Minted? ensures d.entries[i].kid.at <= lastMint {
          assert d.entries[i] in d.archive;
        }
      }
      RotateKept(d.entries, was, lastMint, now, overlap, key);
    case ReloadAt(now) =>
      PruneKept(d.archive, was, now, overlap);
  }

  // --------------------------------------------------- what rotation promises

  predicate KidIn(es: seq<KeyEntry>, kid: Kid)
  {
    exists i :: 0 <= i < |es| && es[i].kid == kid
  }

  lemma {:induction false} FindIsLookup(es: seq<KeyEntry>, kid: Kid, now: Time, overlap: int)
    requires DistinctKids(es)
    ensures !KidIn(es, kid) ==> Find(es, kid, now, overlap) == Err(UnknownKid)
    ensures forall e :: e in es && e.kid == kid ==>
      Find(es, kid, now, overlap) == if Expired(e, now, overlap) then Err(PastOverlap) else Ok(e)
    decreases |es|
  {
    if es != [] {
      FindIsLookup(es[1..], kid, now, overlap);
      if es[0].kid != kid {
        assert KidIn(es[1..], kid) ==> KidIn(es, kid);
        assert forall e :: e in es && e.kid == kid ==> e in es[1..];
      } else {
        assert KidIn(es, kid);
        forall e | e in es && e.kid == kid ensures e == es[0] {
          var i :| 0 <= i < |es| && es[i] == e;
        }
      }
    }
  }

  /** In a well-kept store the key that signs is the last entry. */
  lemma {:induction false} LastSigns(es: seq<KeyEntry>, now: Time)
    requires WellKept(es, now)
    ensures Newest(es) == Some(es[|es| - 1])
  {
    NoneBefore(es[..|es| - 1]);
  }

  lemma {:induction false} NoneBefore(es: seq<KeyEntry>)
    requires forall i :: 0 <= i < |es| ==> es[i].retiredAt.Some?
    ensures Newest(es).None?
    decreases |es|
  {
    if es != [] {
      NoneBefore(es[..|es| - 1]);
    }
  }

  /** When the key that is active before these events is retired, if it is. */
  function RetiredBy(es: seq<Event>): (r: Option<Time>)
    decreases |es|
  {
    if es == [] then None
    else if es[0].RotateAt? then Some(es[0].now)
    else RetiredBy(es[1..])
  }

  /** The entry of one key, wherever it still is. */
  predicate Tracks(es: seq<KeyEntry>, entry: KeyEntry)
  {
    forall e :: e in es && e.kid == entry.kid ==> e == entry
  }

  /** `entry` is what the archive and memory hold of one key id, if anything; as long as it
      has not aged out both hold it. */
  ghost predicate Holds(d: Daemon, entry: KeyEntry, now: Time, overlap: int)
  {
    && Tracks(d.archive, entry) && Tracks(d.entries, entry)
    && (!Expired(entry, now, overlap) ==> entry in d.archive && entry in d.entries)
  }

  lemma {:induction false} EventHolds(d: Daemon, e: Event, entry: KeyEntry, was: Time, lastMint: Time,
                                      overlap: int, legacy: Option<LegacyRow>)
    requires Inv(d, was, overlap) && Holds(d, entry, was, overlap) && was <= e.now && 0 <= overlap
    requires MintedBy(d.archive, lastMint) && (e.RotateAt? ==> lastMint < e.now)
    requires entry.kid.Minted? ==> entry.kid.at <= lastMint
    requires entry.retiredAt.None? ==> entry in d.entries
    ensures var entry' := if e.RotateAt? && entry.retiredAt.None? then entry.(retiredAt := Some(e.now)) else entry;
      Holds(Apply(d, e, overlap, legacy), entry', e.now, overlap)
  {
    var d' := Apply(d, e, overlap, legacy);
    match e
    case RotateAt(now, key) =>
      var entry' := if entry.retiredAt.None? then entry.(retiredAt := Some(now)) else entry;
      var old' := Retire(d.entries, now);
      forall x | x in d'.entries && x.kid == entry'.kid ensures x == entry' {
        assert x in old' || x.kid == Minted(now);
        if x in old' {
          var j :| 0 <= j < |old'| && old'[j] == x;
          assert d.entries[j] in d.entries && d.entries[j].kid == entry.kid;
        }
      }
      if !Expired(entry', now, overlap) {
        var j :| 0 <= j < |d.entries| && d.entries[j] == entry;
        assert old'[j] == entry' && entry' in old';
      }
    case ReloadAt(now) =>
      PruneKept(d.archive, was, now, overlap);
  }

  lemma {:induction false} RunHolds(d: Daemon, es: seq<Event>, entry: KeyEntry, was: Time, lastMint: Time,
                                    end: Time, overlap: int, legacy: Option<LegacyRow>)
    requires Inv(d, was, overlap) && Holds(d, entry, was, overlap) && 0 <= overlap
    requires MintedBy(d.archive, lastMint) && Clocked(es, was, lastMint)
    requires entry.kid.Minted? ==> entry.kid.at <= lastMint
    requires entry.retiredAt.None? ==> entry in d.entries
    requires was <= end && forall i :: 0 <= i < |es| ==> es[i].now <= end
    ensures var entry' := if entry.retiredAt.None? then entry.(retiredAt := RetiredBy(es)) else entry;
      && Inv(Run(d, es, overlap, legacy), if es == [] then was else es[|es| - 1].now, overlap)
      && Holds(Run(d, es, overlap, legacy), entry', if es == [] then was else es[|es| - 1].now, overlap)
    decreases |es|
  {
    if es != [] {
      var e := es[0];
      var d' := Apply(d, e, overlap, legacy);
      var entry' := if e.RotateAt? && entry.retiredAt.None? then entry.(retiredAt := Some(e.now)) else entry;
      EventKeepsInv(d, e, was, lastMint, overlap, legacy);
      EventHolds(d, e, entry, was, lastMint, overlap, legacy);
      if entry'.retiredAt.None? {
        assert !Expired(entry', e.now, overlap);
      }
      RunHolds(d', es[1..], entry', e.now, if e.RotateAt? then e.now else lastMint, end, overlap, legacy);
    }
  }

  /** The promise, exactly. A token signed in any reachable store is accepted at a later
      time, after any rotations and restarts, if and only if its key has not been retired
      or was retired at most `overlap` ago, and then its claims come back. In particular a
      rotation never breaks a token younger than the overlap, and every key is refused once
      its window is over. */
  lemma {:induction false} TokenLifetime(d: Daemon, signedAt: Time, lastMint: Time, es: seq<Event>, now: Time,
                                         overlap: int, legacy: Option<LegacyRow>, claims: Claims)
    requires Inv(d, signedAt, overlap) && MintedBy(d.archive, lastMint) && 0 <= overlap
    requires lastMint <= signedAt && Clocked(es, signedAt, lastMint)
    requires signedAt <= now && forall i :: 0 <= i < |es| ==> es[i].now <= now
    ensures var signer := Newest(d.entries);
      && signer.Some?
      && var token := Token(signer.value.kid, signer.value.key, Stamped(claims, signedAt));
         var r := Check(Run(d, es, overlap, legacy).entries, token, now, overlap);
         && (r == Ok(token.claims) <==> RetiredBy(es).None? || now - RetiredBy(es).value <= overlap)
         && (r.Err? ==> r.error == PastOverlap || r.error == UnknownKid)
         && (now <= signedAt + overlap ==> r == Ok(token.claims))
  {
    LastSigns(d.entries, signedAt);
    var entry := d.entries[|d.entries| - 1];
    assert entry in d.entries && entry in d.archive;
    OnlyOne(d.archive, entry);
    OnlyOne(d.entries, entry);
    RunHolds(d, es, entry, signedAt, lastMint, now, overlap, legacy);
    var end := Run(d, es, overlap, legacy);
    var final := entry.(retiredAt := RetiredBy(es));
    FindIsLookup(end.entries, entry.kid, now, overlap);
    RetirementInRun(es, signedAt, lastMint);
    assert final in end.entries || Expired(final, now, overlap);
  }

  lemma OnlyOne(es: seq<KeyEntry>, entry: KeyEntry)
    requires DistinctKids(es) && entry in es
    ensures Tracks(es, entry)
  {
  }

  lemma {:induction false} RetirementInRun(es: seq<Event>, from: Time, lastMint: Time)
    requires Clocked(es, from, lastMint)
    ensures RetiredBy(es).Some? ==> from <= RetiredBy(es).value
    ensures RetiredBy(es).Some? ==> es != [] && RetiredBy(es).value <= es[|es| - 1].now
    ensures es != [] ==> from <= es[|es| - 1].now
    decreases |es|
  {
    if es != [] {
      RetirementInRun(es[1..], es[0].now, if es[0].RotateAt? then es[0].now else lastMint);
    }
  }

  /** A first load with no archive gives a store the promise starts from. */
  lemma {:induction false} FirstLoad(legacy: Option<LegacyRow>, now: Time, overlap: int, key: Key)
    requires 0 <= overlap
    ensures var d := FirstDaemon(legacy, now, overlap, key);
      Inv(d, now, overlap) && MintedBy(d.archive, now) && |d.entries| == 1
  {
    assert Retire([], now) == [];
  }

  /** When a key was last minted in a run, or `from` when none was. */
  function LastMint(es: seq<Event>, from: Time): (t: Time)
    decreases |es|
  {
    if es == [] then from else LastMint(es[1..], if es[0].RotateAt? then es[0].now else from)
  }

  lemma {:induction false} InvLater(d: Daemon, was: Time, now: Time, overlap: int)
    requires Inv(d, was, overlap) && was <= now
    ensures Inv(d, now, overlap)
  {
  }

  lemma {:induction false} RunKeepsInv(d: Daemon, es: seq<Event>, was: Time, lastMint: Time, end: Time,
                                       overlap: int, legacy: Option<LegacyRow>)
    requires Inv(d, was, overlap) && MintedBy(d.archive, lastMint) && 0 <= overlap && lastMint <= was <= end
    requires Clocked(es, was, lastMint) && forall i :: 0 <= i < |es| ==> es[i].now <= end
    ensures Inv(Run(d, es, overlap, legacy), end, overlap)
    ensures MintedBy(Run(d, es, overlap, legacy).archive, LastMint(es, lastMint)) && LastMint(es, lastMint) <= end
    decreases |es|
  {
    if es == [] {
      InvLater(d, was, end, overlap);
    } else {
      var e := es[0];
      EventKeepsInv(d, e, was, lastMint, overlap, legacy);
      RunKeepsInv(Apply(d, e, overlap, legacy), es[1..], e.now, if e.RotateAt? then e.now else lastMint, end,
                  overlap, legacy);
    }
  }

  /** The promise for a daemon's whole life: a first load, any rotations and restarts, a token
      signed, and any rotations and restarts after it. */
  lemma {:induction false} LifetimeFromFirstLoad(
    legacy: Option<LegacyRow>, loaded: Time, first: Key, before: seq<Event>, signedAt: Time, es: seq<Event>,
    now: Time, overlap: int, claims: Claims)
    requires 0 <= overlap && loaded <= signedAt <= now
    requires Clocked(before, loaded, loaded) && forall i :: 0 <= i < |before| ==> before[i].now <= signedAt
    requires Clocked(es, signedAt, LastMint(before, loaded)) && forall i :: 0 <= i < |es| ==> es[i].now <= now
    ensures var d := Run(FirstDaemon(legacy, loaded, overlap, first), before, overlap, legacy);
      var signer := Newest(d.entries);
      && signer.Some?
      && var token := Token(signer.value.kid, signer.value.key, Stamped(claims, signedAt));
         var r := Check(Run(d, es, overlap, legacy).entries, token, now, overlap);
         && (r == Ok(token.claims) <==> RetiredBy(es).None? || now - RetiredBy(es).value <= overlap)
         && (r.Err? ==> r.error == PastOverlap || r.error == UnknownKid)
         && (now <= signedAt + overlap ==> r == Ok(token.claims))
  {
    var d := FirstDaemon(legacy, loaded, overlap, first);
    FirstLoad(legacy, loaded, overlap, first);
    RunKeepsInv(d, before, loaded, loaded, signedAt, overlap, legacy);
    var d' := Run(d, before, overlap, legacy);
    TokenLifetime(d', signedAt, LastMint(before, loaded), es, now, overlap, legacy, claims);
  }

  /** Every key id that ByKID accepts is published. */
  lemma {:induction false} AcceptedIsPublished(es: seq<KeyEntry>, kid: Kid, now: Time, overlap: int)
    requires Find(es, kid, now, overlap).Ok?
    ensures (kid, Find(es, kid, now, overlap).value.key) in Jwks(es)
    decreases |es|
  {
    if es[0].kid == kid {
      assert Jwks(es)[0] == (kid, es[0].key);
    } else {
      AcceptedIsPublished(es[1..], kid, now, overlap);
      var i :| 0 <= i < |es| - 1 && Jwks(es[1..])[i] == (kid, Find(es, kid, now, overlap).value.key);
      assert Jwks(es)[i + 1] == Jwks(es[1..])[i];
    }
  }

  /** The documented converse, that only accepted keys are published, holds exactly when
      no entry has aged out since the last prune: JWKS does not look at the window. */
  lemma {:induction false} PublishedIsAccepted(es: seq<KeyEntry>, now: Time, overlap: int)
    requires DistinctKids(es)
    ensures (forall i :: 0 <= i < |es| ==> Find(es, Jwks(es)[i].0, now, overlap).Ok?)
      <==> forall i :: 0 <= i < |es| ==> !Expired(es[i], now, overlap)
  {
    forall i | 0 <= i < |es|
      ensures Find(es, Jwks(es)[i].0, now, overlap).Ok? <==> !Expired(es[i], now, overlap)
    {
      FindIsLookup(es, es[i].kid, now, overlap);
      assert es[i] in es;
    }
  }

  lemma OneEntry(e: KeyEntry, now: Time, overlap: int)
    ensures Retire([e], now) == [if e.retiredAt.None? then e.(retiredAt := Some(now)) else e]
    ensures Prune([e], now, overlap) == if Expired(e, now, overlap) then [] else [e]
  {
    assert [e][..0] == [];
  }

  lemma {:induction false} TwoKeys(loaded: Time, rotated: Time, overlap: int, first: Key, second: Key)
    requires 0 <= overlap
    ensures Rotated(Rotated([], loaded, overlap, first), rotated, overlap, second) ==
      [KeyEntry(Minted(loaded), first, loaded, Some(rotated)), KeyEntry(Minted(rotated), second, rotated, None)]
  {
    var a := KeyEntry(Minted(loaded), first, loaded, None);
    var b, c := a.(retiredAt := Some(rotated)), KeyEntry(Minted(rotated), second, rotated, None);
    assert Retire([], loaded) == [] && Prune([], loaded, overlap) == [];
    assert Rotated([], loaded, overlap, first) == [a];
    OneEntry(a, rotated, overlap);
    OneEntry(b, rotated, overlap);
    assert [b] + [c] == [b, c];
  }

  /** A first load, one rotation, and a time past the overlap: the first key is still published
      and no longer accepted. */
  lemma {:induction false} RetiredStillPublished(loaded: Time, rotated: Time, now: Time, overlap: int,
                                                 first: Key, second: Key)
    requires 0 <= overlap && loaded < rotated && rotated + overlap < now
    ensures var es := Rotated(Rotated([], loaded, overlap, first), rotated, overlap, second);
      && |es| == 2 && Jwks(es)[0] == (Minted(loaded), first)
      && Find(es, Minted(loaded), now, overlap) == Err(PastOverlap)
      && Find(es, Minted(loaded), rotated + overlap, overlap).Ok?
  {
    TwoKeys(loaded, rotated, overlap, first, second);
  }

  /** Why key ids must be distinct: after a rotation a fresh token verifies exactly when no
      retained entry already has the id of the new key, under another key. */
  lemma {:induction false} FreshTokenNeedsFreshKid(es: seq<KeyEntry>, was: Time, now: Time, overlap: int,
                                                   key: Key, claims: Claims)
    requires WellKept(es, was) && was <= now && 0 <= overlap
    ensures var es' := Rotated(es, now, overlap, key);
      Check(es', Token(Minted(now), key, claims), now, overlap) == Ok(claims)
      <==> forall e :: e in Prune(Retire(es, now), now, overlap) && e.kid == Minted(now) ==> e.key == key
  {
    var kept := Prune(Retire(es, now), now, overlap);
    assert DistinctKids(Retire(es, now));
    PruneShape(Retire(es, now), now, overlap);
    var minted := KeyEntry(Minted(now), key, now, None);
    FindInAppend(kept, minted, Minted(now), now, overlap);
    FindIsLookup(kept, Minted(now), now, overlap);
    if KidIn(kept, Minted(now)) {
      var i :| 0 <= i < |kept| && kept[i].kid == Minted(now);
      assert kept[i] in kept;
      OnlyOne(kept, kept[i]);
    }
  }

  lemma {:induction false} FindInAppend(es: seq<KeyEntry>, last: KeyEntry, kid: Kid, now: Time, overlap: int)
    ensures Find(es + [last], kid, now, overlap) ==
      if KidIn(es, kid) then Find(es, kid, now, overlap) else Find([last], kid, now, overlap)
    decreases |es|
  {
    if es == [] {
      assert es + [last] == [last];
    } else {
      FindInAppend(es[1..], last, kid, now, overlap);
      assert (es + [last])[1..] == es[1..] + [last];
      if es[0].kid == kid {
        assert KidIn(es, kid);
      } else {
        assert KidIn(es, kid) <==> KidIn(es[1..], kid) by {
          if KidIn(es, kid) {
            var i :| 0 <= i < |es| && es[i].kid == kid;
            assert es[1..][i - 1].kid == kid;
          }
          if KidIn(es[1..], kid) {
            var i :| 0 <= i < |es| - 1 && es[1..][i].kid == kid;
            assert es[i + 1].kid == kid;
          }
        }
      }
    }
  }
}
