/** The operator canon in file mode (internal/canon/canon.go): a current record, an archive of
    prior versions, and rollbacks that append. */
module Canon {
  import opened Common

  type Time = int

  /** Go's zero time. */
  const ZERO_TIME: Time := 0

  const DEFAULT_TITLE := "Operator Canon"

  datatype Canon = Canon(
    id: string, title: string, body: string, version: int, updatedBy: string, updatedAt: Time, createdAt: Time)

  datatype StoreError = VersionNotFound

  /** The files: current.json, and history/v<n>.json by n. */
  datatype Files = Files(current: Option<Canon>, history: map<int, Canon>)

  const EMPTY := Files(None, map[])

  // ---------------------------------------------------------------- the operations as functions

  /** The record read at time `readAt`: a blank one when nothing was saved yet. */
  function Loaded(f: Files, readAt: Time): (r: Canon)
  {
    match f.current
    case None => Canon("default", DEFAULT_TITLE, "", 0, "", readAt, readAt)
    case Some(c) => c
  }

  function Archived(f: Files, cur: Canon): (r: map<int, Canon>)
  {
    if cur.version > 0 then f.history[cur.version := cur] else f.history
  }

  function Successor(cur: Canon, title: string, body: string, actor: string, now: Time): (r: Canon)
  {
    Canon("default", title, body, cur.version + 1, actor, now,
          if cur.createdAt == ZERO_TIME then now else cur.createdAt)
  }

  function TitleFor(cur: Canon, title: string): (r: string)
  {
    if title != "" then title else if cur.title != "" then cur.title else DEFAULT_TITLE
  }

  function PutNext(f: Files, body: string, actor: string, title: string, readAt: Time, now: Time): (r: Canon)
  {
    var cur := Loaded(f, readAt);
    Successor(cur, TitleFor(cur, title), body, actor, now)
  }

  function AfterPut(f: Files, body: string, actor: string, title: string, readAt: Time, now: Time): (r: Files)
  {
    Files(Some(PutNext(f, body, actor, title, readAt, now)), Archived(f, Loaded(f, readAt)))
  }

  function AfterRollback(f: Files, to: int, actor: string, readAt: Time, now: Time): (r: Files)
  {
    if to !in f.history then f
    else
      var cur, prior := Loaded(f, readAt), f.history[to];
      Files(Some(Successor(cur, prior.title, prior.body, actor, now)), Archived(f, cur))
  }

  predicate Descending(out: seq<Canon>)
  {
    forall i, j :: 0 <= i < j < |out| ==> out[i].version > out[j].version
  }

  /** `out` is the newest part of the archive, newest version first, each record once: all of
      it, or at a positive limit that many records, with only older ones left out. */
  ghost predicate NewestFirst(history: map<int, Canon>, limit: int, out: seq<Canon>)
  {
    && Descending(out)
    && (limit > 0 ==> |out| <= limit)
    && (forall c :: c in out ==> c.version in history && history[c.version] == c)
    && (forall v :: v in history ==> history[v] in out || (limit > 0 && |out| == limit && AllNewer(out, v)))
  }

  predicate AllNewer(out: seq<Canon>, v: int)
  {
    forall c :: c in out ==> c.version > v
  }

  /** Archived records carry the version they are filed under. */
  predicate Filed(history: map<int, Canon>)
  {
    forall v :: v in history ==> history[v].version == v
  }

  // ---------------------------------------------------------------- the code

  class Store {
    var current: Option<Canon>
    var history: map<int, Canon>

    function Value(): (r: Files)
      reads this
    {
      Files(current, history)
    }

    constructor ()
      ensures Value() == EMPTY
    {
      current := None;
      history := map[];
    }

    method Get(readAt: Time) returns (c: Canon)
      ensures c == Loaded(Value(), readAt)
    {
      if current.None? {
        return Canon("default", DEFAULT_TITLE, "", 0, "", readAt, readAt);
      }
      return current.value;
    }

    /** `readAt` is the clock when the current record is read, `now` when the next is built. */
    method Put(body: string, actor: string, title: string, readAt: Time, now: Time) returns (next: Canon)
      modifies this
      ensures Value() == AfterPut(old(Value()), body, actor, title, readAt, now)
      ensures current == Some(next)
    {
      var cur := Get(readAt);
      if cur.version > 0 {
        history := history[cur.version := cur];
      }
      var t := title;
      if t == "" {
        t := cur.title;
      }
      if t == "" {
        t := DEFAULT_TITLE;
      }
      next := Canon("default", t, body, cur.version + 1, actor, now, cur.createdAt);
      if next.createdAt == ZERO_TIME {
        next := next.(createdAt := now);
      }
      current := Some(next);
    }

    method Rollback(to: int, actor: string, readAt: Time, now: Time) returns (r: Result<Canon, StoreError>)
      modifies this
      ensures Value() == AfterRollback(old(Value()), to, actor, readAt, now)
      ensures r.Ok? <==> to in old(history)
      ensures r.Ok? ==> current == Some(r.value)
    {
      if to !in history {
        return Err(VersionNotFound);
      }
      var prior := history[to];
      var cur := Get(readAt);
      if cur.version > 0 {
        history := history[cur.version := cur];
      }
      var next := Canon("default", prior.title, prior.body, cur.version + 1, actor, now, cur.createdAt);
      if next.createdAt == ZERO_TIME {
        next := next.(createdAt := now);
      }
      current := Some(next);
      return Ok(next);
    }

    /** Reads the archive files in the order `entries` of the directory listing, and sorts. */
    method History(limit: int, entries: seq<int>) returns (out: seq<Canon>)
      requires Filed(history) && forall v :: v in entries <==> v in history
      requires forall i, j :: 0 <= i < j < |entries| ==> entries[i] != entries[j]
      ensures NewestFirst(history, limit, out)
    {
      out := [];
      for i := 0 to |entries|
        invariant Descending(out)
        invariant forall k :: 0 <= k < i ==> entries[k] in history && history[entries[k]] in out
        invariant forall c :: c in out ==> c.version in entries[..i] && c.version in history && history[c.version] == c
      {
        var v := entries[i];
        assert v in entries;
        assert v !in entries[..i];
        InsertedDescending(out, history[v]);
        forall x ensures x in Inserted(out, history[v]) <==> x == history[v] || x in out {
          InsertedHas(out, history[v], x);
        }
        out := Inserted(out, history[v]);
        assert entries[..i + 1] == entries[..i] + [v];
      }
      if limit > 0 && |out| > limit {
        CutAtLimit(history, limit, out);
        out := out[..limit];
      }
    }
  }

  /** Sorted insertion, newest version first. */
  function Inserted(out: seq<Canon>, c: Canon): (r: seq<Canon>)
  {
    if out == [] || out[0].version < c.version then [c] + out else [out[0]] + Inserted(out[1..], c)
  }

  lemma {:induction false} InsertedHas(out: seq<Canon>, c: Canon, x: Canon)
    ensures x in Inserted(out, c) <==> x == c || x in out
  {
    if out != [] && out[0].version >= c.version {
      InsertedHas(out[1..], c, x);
      assert x in out <==> x == out[0] || x in out[1..];
    }
  }

  lemma ConsDescending(first: Canon, rest: seq<Canon>)
    requires Descending(rest) && forall x :: x in rest ==> x.version < first.version
    ensures Descending([first] + rest)
  {
    assert forall k :: 0 <= k < |rest| ==> rest[k] in rest;
  }

  lemma {:induction false} InsertedDescending(out: seq<Canon>, c: Canon)
    requires Descending(out) && forall x :: x in out ==> x.version != c.version
    ensures Descending(Inserted(out, c))
  {
    if out == [] || out[0].version < c.version {
      ConsDescending(c, out);
    } else {
      assert out[0] in out;
      InsertedDescending(out[1..], c);
      forall x | x in Inserted(out[1..], c)
        ensures x.version < out[0].version
      {
        InsertedHas(out[1..], c, x);
      }
      ConsDescending(out[0], Inserted(out[1..], c));
    }
  }

  /** The first records of a full listing are the newest. */
  lemma CutAtLimit(history: map<int, Canon>, limit: int, out: seq<Canon>)
    requires 0 < limit < |out| && Filed(history) && NewestFirst(history, 0, out)
    ensures NewestFirst(history, limit, out[..limit])
  {
    forall c | c in out[..limit] ensures c in out {
    }
    forall v | v in history && history[v] !in out[..limit] ensures AllNewer(out[..limit], v) {
      assert history[v] in out && history[v].version == v;
      NewerThanCut(out, limit, history[v]);
    }
  }

  lemma NewerThanCut(out: seq<Canon>, limit: nat, c: Canon)
    requires Descending(out) && limit <= |out| && c in out && c !in out[..limit]
    ensures AllNewer(out[..limit], c.version)
  {
    var i :| 0 <= i < |out| && out[i] == c;
    assert forall k :: 0 <= k < limit ==> out[..limit][k] == out[k];
  }

  // ---------------------------------------------------------------- an append-only log

  datatype Op =
    | Put(body: string, actor: string, title: string, readAt: Time, now: Time)
    | Rollback(to: int, actor: string, readAt: Time, now: Time)

  function After(ops: seq<Op>): (r: Files)
  {
    if ops == [] then EMPTY
    else
      Apply(After(ops[..|ops| - 1]), ops[|ops| - 1])
  }

  function Apply(f: Files, op: Op): (r: Files)
  {
    match op
    case Put(body, actor, title, readAt, now) => AfterPut(f, body, actor, title, readAt, now)
    case Rollback(to, actor, readAt, now) => AfterRollback(f, to, actor, readAt, now)
  }

  /** What should happen, told as a list of writes that only grows: a put appends the new body,
      a rollback to version k, for k before the current one, appends the body of write k. */
  function Logged(log: seq<Canon>, op: Op): (r: seq<Canon>)
  {
    var last := if log == [] then None else Some(log[|log| - 1]);
    var created := if last.Some? && last.value.createdAt != ZERO_TIME then last.value.createdAt
                   else if last.None? && op.readAt != ZERO_TIME then op.readAt
                   else op.now;
    match op
    case Put(body, actor, title, _, now) =>
      var t := if title != "" then title
               else if last.Some? && last.value.title != "" then last.value.title
               else DEFAULT_TITLE;
      log + [Canon("default", t, body, |log| + 1, actor, now, created)]
    case Rollback(to, actor, _, now) =>
      if 1 <= to < |log| then
        log + [Canon("default", log[to - 1].title, log[to - 1].body, |log| + 1, actor, now, created)]
      else log
  }

  function LogOf(ops: seq<Op>): (r: seq<Canon>)
  {
    if ops == [] then [] else Logged(LogOf(ops[..|ops| - 1]), ops[|ops| - 1])
  }

  /** The files that hold a log: the last write is current, all before it are archived. */
  function FilesOf(log: seq<Canon>): (r: Files)
  {
    Files(if log == [] then None else Some(log[|log| - 1]),
          map v: int | 1 <= v < |log| :: WriteNo(log, v))
  }

  function WriteNo(log: seq<Canon>, v: int): (r: Canon)
    requires 1 <= v <= |log|
  {
    log[v - 1]
  }

  predicate Numbered(log: seq<Canon>)
  {
    forall i :: 0 <= i < |log| ==> log[i].version == i + 1 && log[i].id == "default" && log[i].title != ""
  }

  lemma {:induction false} LogNumbered(ops: seq<Op>)
    ensures Numbered(LogOf(ops))
  {
    if ops != [] {
      LogNumbered(ops[..|ops| - 1]);
    }
  }

  /** The files are the log. After any run the version is the number of writes, the archive
      holds exactly the versions before it, each as it was when current; so a rollback
      succeeds exactly for those versions, and no archived record ever changes. */
  lemma {:induction false} FilesHoldLog(ops: seq<Op>)
    ensures After(ops) == FilesOf(LogOf(ops))
    ensures LogOf(ops) != [] ==> After(ops).current.Some? && After(ops).current.value.version == |LogOf(ops)|
    ensures forall k :: k in After(ops).history <==> 1 <= k < |LogOf(ops)|
    ensures Filed(After(ops).history)
  {
    LogNumbered(ops);
    if ops != [] {
      var before := ops[..|ops| - 1];
      FilesHoldLog(before);
      LogNumbered(before);
      StepHoldsLog(LogOf(before), ops[|ops| - 1]);
    }
  }

  lemma {:induction false} StepHoldsLog(log: seq<Canon>, op: Op)
    requires Numbered(log)
    ensures Apply(FilesOf(log), op) == FilesOf(Logged(log, op))
  {
    var log' := Logged(log, op);
    if log' != log {
      var c := log'[|log|];
      FilesAppend(log, c);
      assert log' == log + [c];
      assert Apply(FilesOf(log), op).current == Some(c);
    }
  }

  /** One more write: what was current is archived under its version. */
  lemma FilesAppend(log: seq<Canon>, c: Canon)
    ensures FilesOf(log + [c]).current == Some(c)
    ensures FilesOf(log + [c]).history ==
      if log == [] then map[] else FilesOf(log).history[|log| := log[|log| - 1]]
  {
    forall v: int | 1 <= v < |log|
      ensures WriteNo(log + [c], v) == WriteNo(log, v)
    {
    }
  }

  /** Over any later operations: archived records stay, what was current is archived, and the
      creation time is that of the first write. */
  lemma {:induction false} ArchiveOnlyGrows(ops: seq<Op>, later: seq<Op>)
    ensures LogOf(ops) <= LogOf(ops + later)
    ensures forall v :: v in After(ops).history ==>
      v in After(ops + later).history && After(ops + later).history[v] == After(ops).history[v]
    ensures var log := LogOf(ops + later);
      LogOf(ops) != [] && LogOf(ops)[0].createdAt != ZERO_TIME ==>
        forall i :: 0 <= i < |log| ==> log[i].createdAt == log[0].createdAt
  {
    LogGrows(ops, later);
    FilesHoldLog(ops);
    FilesHoldLog(ops + later);
    if LogOf(ops) != [] && LogOf(ops)[0].createdAt != ZERO_TIME {
      CreatedOnce(ops + later);
    }
  }

  lemma {:induction false} LogGrows(ops: seq<Op>, later: seq<Op>)
    ensures LogOf(ops) <= LogOf(ops + later)
    decreases |later|
  {
    if later == [] {
      assert ops + later == ops;
    } else {
      LogGrows(ops, later[..|later| - 1]);
      assert (ops + later)[..|ops + later| - 1] == ops + later[..|later| - 1];
    }
  }

  lemma {:induction false} CreatedOnce(ops: seq<Op>)
    requires LogOf(ops) != [] && LogOf(ops)[0].createdAt != ZERO_TIME
    ensures forall i :: 0 <= i < |LogOf(ops)| ==> LogOf(ops)[i].createdAt == LogOf(ops)[0].createdAt
  {
    var before := ops[..|ops| - 1];
    if LogOf(before) != [] {
      CreatedOnce(before);
    }
  }

  /** History lists the archive newest first: the log before its last write, reversed, and cut
      at a positive limit. */
  lemma {:induction false} HistoryIsReversedLog(ops: seq<Op>, limit: int, out: seq<Canon>)
    requires LogOf(ops) != [] && NewestFirst(After(ops).history, limit, out)
    ensures var all := Reverse(LogOf(ops)[..|LogOf(ops)| - 1]);
      out == if limit > 0 then FirstN(all, limit) else all
  {
    FilesHoldLog(ops);
    LogNumbered(ops);
    PageIsReversedLog(LogOf(ops), limit, out);
  }

  lemma {:induction false} PageIsReversedLog(log: seq<Canon>, limit: int, out: seq<Canon>)
    requires log != [] && Numbered(log) && NewestFirst(FilesOf(log).history, limit, out)
    ensures var all := Reverse(log[..|log| - 1]);
      out == if limit > 0 then FirstN(all, limit) else all
  {
    var all := Reverse(log[..|log| - 1]);
    PageLength(FilesOf(log).history, |log| - 1, limit, out);
    forall i: nat | i < |out|
      ensures out[i] == all[i]
    {
      PageAt(log, limit, out, i);
    }
    assert out == all[..|out|];
  }

  lemma {:induction false} PageAt(log: seq<Canon>, limit: int, out: seq<Canon>, i: nat)
    requires log != [] && Numbered(log) && NewestFirst(FilesOf(log).history, limit, out)
    requires i < |out|
    ensures i < |log| - 1 && out[i] == Reverse(log[..|log| - 1])[i]
  {
    VersionAt(FilesOf(log).history, |log| - 1, limit, out, i);
    assert out[i] in out;
    assert out[i] == WriteNo(log, |log| - 1 - i);
  }

  /** When versions 1 to n are archived, version n-i is at place i. */
  lemma {:induction false} VersionAt(history: map<int, Canon>, n: nat, limit: int, out: seq<Canon>, i: nat)
    requires NewestFirst(history, limit, out) && Filed(history) && (forall v :: v in history <==> 1 <= v <= n)
    requires i < |out|
    ensures i < n && out[i].version == n - i
    decreases i
  {
    assert out[i] in out;
    if i > 0 {
      VersionAt(history, n, limit, out, i - 1);
    }
    assert !AllNewer(out, n - i);
    assert history[n - i] in out;
    var j :| 0 <= j < |out| && out[j] == history[n - i];
  }

  lemma {:induction false} PageLength(history: map<int, Canon>, n: nat, limit: int, out: seq<Canon>)
    requires NewestFirst(history, limit, out) && Filed(history) && (forall v :: v in history <==> 1 <= v <= n)
    ensures |out| == if 0 < limit < n then limit else n
  {
    if out != [] {
      VersionAt(history, n, limit, out, |out| - 1);
    }
    if |out| < n && history[n - |out|] in out {
      var j :| 0 <= j < |out| && out[j] == history[n - |out|];
      VersionAt(history, n, limit, out, j);
    }
  }
}
