/** The PTY completion detector (internal/completion/detector.go): a state machine over output
    chunks, ticks and exits, with a bounded window on the output. */
module Detector {
  import opened Common

  type Bytes = seq<bv8>

  /** Nanoseconds. */
  type Time = int

  const MILLISECOND := 1_000_000

  const MAX_TAIL := 256

  datatype SessionState = Working | InputRequired | Completed | Failed

  datatype Config = Config(idle: int, short: int, markers: seq<Bytes>)

  // The prompt markers as UTF-8 bytes.
  const BOX_PROMPT: Bytes := [0xE2, 0x94, 0x82, 0x20, 0x3E, 0x20]
  const LINE_PROMPT: Bytes := [0x0A, 0x3E, 0x20]
  const AIDER_PROMPT: Bytes := [0x61, 0x69, 0x64, 0x65, 0x72, 0x3E, 0x20]
  const DOLLAR_PROMPT: Bytes := [0x0A, 0x24, 0x20]
  const HASH_PROMPT: Bytes := [0x0A, 0x23, 0x20]

  /** The per-flavour defaults. */
  function Preset(slug: string): (r: Config)
  {
    if slug in {"claude-code", "claude"} then
      Config(10_000 * MILLISECOND, 250 * MILLISECOND, [BOX_PROMPT, LINE_PROMPT])
    else if slug == "aider" then
      Config(15_000 * MILLISECOND, 250 * MILLISECOND, [LINE_PROMPT, AIDER_PROMPT])
    else if slug in {"qwen-code", "gemini-cli", "opencode", "cursor-agent", "little-coder"} then
      Config(20_000 * MILLISECOND, 500 * MILLISECOND, [LINE_PROMPT])
    else
      Config(30_000 * MILLISECOND, 500 * MILLISECOND, [DOLLAR_PROMPT, HASH_PROMPT])
  }

  /** The bytes end in one of the markers. */
  predicate Prompted(markers: seq<Bytes>, bytes: Bytes)
  {
    exists i :: 0 <= i < |markers| && HasSuffix(bytes, markers[i])
  }

  // ---------------------------------------------------------------- the detector as a value

  datatype State = State(state: SessionState, lastChunk: Time, tail: Bytes, promptMatched: bool, exitObserved: bool)

  function Initial(startedAt: Time): (r: State)
  {
    State(Working, startedAt, [], false, false)
  }

  function AfterChunk(cfg: Config, d: State, now: Time, chunk: Bytes): (r: State)
  {
    if d.exitObserved then d
    else
      var tail := LastN(d.tail + chunk, MAX_TAIL);
      var matched := Prompted(cfg.markers, tail);
      State(if !matched && d.state == InputRequired then Working else d.state, now, tail, matched, false)
  }

  function AfterExit(d: State, code: int): (r: State)
  {
    d.(exitObserved := true, state := if code == 0 then Completed else Failed)
  }

  function AfterTick(cfg: Config, d: State, now: Time): (r: State)
  {
    if d.exitObserved || d.state != Working then d
    else if now - d.lastChunk >= (if d.promptMatched then cfg.short else cfg.idle) then d.(state := InputRequired)
    else d
  }

  // ---------------------------------------------------------------- the code

  class Detector {
    var state: SessionState
    var lastChunk: Time
    var tail: Bytes
    var promptMatched: bool
    var exitObserved: bool
    const idleThresh: int
    const promptShortThresh: int
    const promptMarkers: seq<Bytes>

    function Value(): (r: State)
      reads this
    {
      State(state, lastChunk, tail, promptMatched, exitObserved)
    }

    function Settings(): (r: Config)
    {
      Config(idleThresh, promptShortThresh, promptMarkers)
    }

    constructor (slug: string, startedAt: Time)
      ensures Value() == Initial(startedAt) && Settings() == Preset(slug)
    {
      state, lastChunk, tail, promptMatched, exitObserved := Working, startedAt, [], false, false;
      if slug == "claude-code" || slug == "claude" {
        idleThresh := 10_000 * MILLISECOND;
        promptShortThresh := 250 * MILLISECOND;
        promptMarkers := [BOX_PROMPT, LINE_PROMPT];
      } else if slug == "aider" {
        idleThresh := 15_000 * MILLISECOND;
        promptShortThresh := 250 * MILLISECOND;
        promptMarkers := [LINE_PROMPT, AIDER_PROMPT];
      } else if slug == "qwen-code" || slug == "gemini-cli" || slug == "opencode" || slug == "cursor-agent"
             || slug == "little-coder" {
        idleThresh := 20_000 * MILLISECOND;
        promptShortThresh := 500 * MILLISECOND;
        promptMarkers := [LINE_PROMPT];
      } else {
        idleThresh := 30_000 * MILLISECOND;
        promptShortThresh := 500 * MILLISECOND;
        promptMarkers := [DOLLAR_PROMPT, HASH_PROMPT];
      }
    }

    method OnChunk(now: Time, chunk: Bytes)
      requires |tail| <= MAX_TAIL
      modifies this
      ensures Value() == AfterChunk(Settings(), old(Value()), now, chunk) && |tail| <= MAX_TAIL
    {
      if exitObserved {
        return;
      }
      lastChunk := now;
      AppendTail(chunk);
      RecomputeTail();
      if !promptMatched && state == InputRequired {
        state := Working;
      }
    }

    method OnExit(code: int)
      modifies this
      ensures Value() == AfterExit(old(Value()), code)
    {
      exitObserved := true;
      if code == 0 {
        state := Completed;
      } else {
        state := Failed;
      }
    }

    method Tick(now: Time)
      modifies this
      ensures Value() == AfterTick(Settings(), old(Value()), now)
    {
      if exitObserved {
        return;
      }
      if state != Working {
        return;
      }
      var idle := now - lastChunk;
      var thresh := idleThresh;
      if promptMatched {
        thresh := promptShortThresh;
      }
      if idle >= thresh {
        state := InputRequired;
      }
    }

    method AppendTail(chunk: Bytes)
      requires |tail| <= MAX_TAIL
      modifies this`tail
      ensures tail == LastN(old(tail) + chunk, MAX_TAIL)
    {
      if |chunk| >= MAX_TAIL {
        tail := chunk[|chunk| - MAX_TAIL..];
        return;
      }
      tail := tail + chunk;
      if |tail| > MAX_TAIL {
        var drop := |tail| - MAX_TAIL;
        tail := tail[drop..];
      }
    }

    method RecomputeTail()
      modifies this`promptMatched
      ensures promptMatched == Prompted(promptMarkers, tail)
    {
      promptMatched := false;
      for i := 0 to |promptMarkers|
        invariant !promptMatched && forall k :: 0 <= k < i ==> !HasSuffix(tail, promptMarkers[k])
      {
        if HasSuffix(tail, promptMarkers[i]) {
          promptMatched := true;
          return;
        }
      }
    }
  }

  // ---------------------------------------------------------------- the whole history

  datatype Event = Chunk(now: Time, bytes: Bytes) | Exit(code: int) | Tick(now: Time)

  function Apply(cfg: Config, d: State, e: Event): (r: State)
  {
    match e
    case Chunk(now, bytes) => AfterChunk(cfg, d, now, bytes)
    case Exit(code) => AfterExit(d, code)
    case Tick(now) => AfterTick(cfg, d, now)
  }

  function After(cfg: Config, startedAt: Time, es: seq<Event>): (r: State)
  {
    if es == [] then Initial(startedAt)
    else Apply(cfg, After(cfg, startedAt, es[..|es| - 1]), es[|es| - 1])
  }

  predicate Exited(es: seq<Event>)
  {
    exists i :: 0 <= i < |es| && es[i].Exit?
  }

  /** The code of the last exit. */
  function LastExit(es: seq<Event>): (r: int)
    requires Exited(es)
  {
    if es[|es| - 1].Exit? then es[|es| - 1].code
    else
      var i :| 0 <= i < |es| && es[i].Exit?;
      assert es[..|es| - 1][i].Exit?;
      LastExit(es[..|es| - 1])
  }

  /** Every byte of output, unbounded. */
  function Output(es: seq<Event>): (r: Bytes)
  {
    if es == [] then []
    else
      var before := Output(es[..|es| - 1]);
      if es[|es| - 1].Chunk? then before + es[|es| - 1].bytes else before
  }

  /** When output last arrived, or the session start. */
  function LastOutputAt(startedAt: Time, es: seq<Event>): (r: Time)
  {
    if es == [] then startedAt
    else if es[|es| - 1].Chunk? then es[|es| - 1].now
    else LastOutputAt(startedAt, es[..|es| - 1])
  }

  /** Event `i` is a tick at which the output had been quiet for long enough: the short
      threshold when all output so far ends in a marker, else the idle one. */
  predicate QuietTick(cfg: Config, startedAt: Time, es: seq<Event>, i: nat)
    requires i < |es|
  {
    && es[i].Tick?
    && es[i].now - LastOutputAt(startedAt, es[..i])
       >= (if Prompted(cfg.markers, Output(es[..i])) then cfg.short else cfg.idle)
  }

  /** All output up to and including event `j` ends in a marker, if `j` is output at all. */
  predicate StillAtPrompt(cfg: Config, es: seq<Event>, j: nat)
    requires j < |es|
  {
    es[j].Chunk? ==> Prompted(cfg.markers, Output(es[..j + 1]))
  }

  /** Some quiet tick was followed only by output that left a marker at the end. */
  predicate AwaitsInput(cfg: Config, startedAt: Time, es: seq<Event>)
  {
    exists i: nat :: i < |es| && QuietTick(cfg, startedAt, es, i) && AtPromptSince(cfg, es, i)
  }

  predicate AtPromptSince(cfg: Config, es: seq<Event>, i: nat)
    requires i < |es|
  {
    forall j: nat :: i < j < |es| ==> StillAtPrompt(cfg, es, j)
  }

  /** Markers that fit the window, and are not empty. */
  predicate Usable(cfg: Config)
  {
    forall i :: 0 <= i < |cfg.markers| ==> 0 < |cfg.markers[i]| <= MAX_TAIL
  }

  lemma PresetsUsable(slug: string)
    ensures Usable(Preset(slug))
  {
  }

  lemma LastNAppend(a: Bytes, b: Bytes)
    ensures LastN(LastN(a, MAX_TAIL) + b, MAX_TAIL) == LastN(a + b, MAX_TAIL)
  {
    var x, y := LastN(LastN(a, MAX_TAIL) + b, MAX_TAIL), LastN(a + b, MAX_TAIL);
    assert |x| == |y|;
    forall k | 0 <= k < |x|
      ensures x[k] == y[k]
    {
    }
  }

  /** A marker no longer than the window ends the window exactly when it ends everything. */
  lemma SuffixOfWindow(bytes: Bytes, marker: Bytes)
    requires |marker| <= MAX_TAIL
    ensures HasSuffix(LastN(bytes, MAX_TAIL), marker) <==> HasSuffix(bytes, marker)
  {
    var w := LastN(bytes, MAX_TAIL);
    if |marker| <= |w| {
      assert w[|w| - |marker|..] == bytes[|bytes| - |marker|..];
    }
  }

  lemma PromptedInWindow(cfg: Config, bytes: Bytes)
    requires Usable(cfg)
    ensures Prompted(cfg.markers, LastN(bytes, MAX_TAIL)) <==> Prompted(cfg.markers, bytes)
  {
    forall i | 0 <= i < |cfg.markers|
      ensures HasSuffix(LastN(bytes, MAX_TAIL), cfg.markers[i]) <==> HasSuffix(bytes, cfg.markers[i])
    {
      SuffixOfWindow(bytes, cfg.markers[i]);
    }
  }

  /** The bounded window shows what the unbounded output would: until an exit, the tail is its
      last 256 bytes and the prompt flag tells whether all of it ends in a marker, however it
      was cut into chunks. */
  lemma {:induction false} WindowIsOutput(cfg: Config, startedAt: Time, es: seq<Event>)
    requires Usable(cfg)
    ensures After(cfg, startedAt, es).exitObserved <==> Exited(es)
    ensures var d := After(cfg, startedAt, es);
      !Exited(es) ==>
        && d.tail == LastN(Output(es), MAX_TAIL)
        && (d.promptMatched <==> Prompted(cfg.markers, Output(es)))
        && d.lastChunk == LastOutputAt(startedAt, es)
        && (d.state == Working || d.state == InputRequired)
  {
    if es != [] {
      var n := |es| - 1;
      var before := es[..n];
      WindowIsOutput(cfg, startedAt, before);
      ExitedStep(es);
      if es[n].Chunk? {
        LastNAppend(Output(before), es[n].bytes);
        PromptedInWindow(cfg, Output(es));
      }
    }
  }

  lemma ExitedStep(es: seq<Event>)
    requires es != []
    ensures Exited(es) <==> es[|es| - 1].Exit? || Exited(es[..|es| - 1])
  {
    var n := |es| - 1;
    if Exited(es) && !es[n].Exit? {
      var i :| 0 <= i < |es| && es[i].Exit?;
      assert es[..n][i].Exit?;
    }
    if Exited(es[..n]) {
      var i :| 0 <= i < n && es[..n][i].Exit?;
      assert es[i].Exit?;
    }
  }

  lemma QuietTickInPrefix(cfg: Config, startedAt: Time, es: seq<Event>, n: nat, i: nat)
    requires i < n <= |es|
    ensures QuietTick(cfg, startedAt, es[..n], i) <==> QuietTick(cfg, startedAt, es, i)
  {
    assert es[..n][..i] == es[..i];
  }

  lemma StillAtPromptInPrefix(cfg: Config, es: seq<Event>, n: nat, j: nat)
    requires j < n <= |es|
    ensures StillAtPrompt(cfg, es[..n], j) <==> StillAtPrompt(cfg, es, j)
  {
    assert es[..n][..j + 1] == es[..j + 1];
  }

  /** What one more event does to the waiting condition. */
  lemma {:induction false} AwaitsInputStep(cfg: Config, startedAt: Time, es: seq<Event>)
    requires es != []
    ensures var n := |es| - 1;
      AwaitsInput(cfg, startedAt, es) <==>
        QuietTick(cfg, startedAt, es, n) || (AwaitsInput(cfg, startedAt, es[..n]) && StillAtPrompt(cfg, es, n))
  {
    var n := |es| - 1;
    var before := es[..n];
    forall j: nat | j < n
      ensures QuietTick(cfg, startedAt, before, j) <==> QuietTick(cfg, startedAt, es, j)
      ensures StillAtPrompt(cfg, before, j) <==> StillAtPrompt(cfg, es, j)
    {
      QuietTickInPrefix(cfg, startedAt, es, n, j);
      StillAtPromptInPrefix(cfg, es, n, j);
    }
    if AwaitsInput(cfg, startedAt, es) {
      var i: nat :| i < |es| && QuietTick(cfg, startedAt, es, i) && AtPromptSince(cfg, es, i);
      if i < n {
        assert StillAtPrompt(cfg, es, n);
        assert forall j: nat :: i < j < n ==> StillAtPrompt(cfg, es, j);
        assert QuietTick(cfg, startedAt, before, i) && AtPromptSince(cfg, before, i);
      }
    }
    if QuietTick(cfg, startedAt, es, n) {
      assert AtPromptSince(cfg, es, n);
    } else if AwaitsInput(cfg, startedAt, before) && StillAtPrompt(cfg, es, n) {
      var i: nat :| i < n && QuietTick(cfg, startedAt, before, i) && AtPromptSince(cfg, before, i);
      assert AtPromptSince(cfg, es, i);
    }
  }

  /** The state, told by the history alone. After an exit it is the terminal state of the last
      exit and nothing else moves it; before any exit, the session is waiting for input if and
      only if some tick found it quiet and every later chunk left a marker at the end. */
  lemma {:induction false} StateTellsHistory(cfg: Config, startedAt: Time, es: seq<Event>)
    requires Usable(cfg)
    ensures After(cfg, startedAt, es).state ==
      if Exited(es) then (if LastExit(es) == 0 then Completed else Failed)
      else if AwaitsInput(cfg, startedAt, es) then InputRequired
      else Working
  {
    if es != [] {
      var n := |es| - 1;
      var before := es[..n];
      StateTellsHistory(cfg, startedAt, before);
      WindowIsOutput(cfg, startedAt, before);
      WindowIsOutput(cfg, startedAt, es);
      ExitedStep(es);
      AwaitsInputStep(cfg, startedAt, es);
      assert es[..n + 1] == es;
    }
  }
}
