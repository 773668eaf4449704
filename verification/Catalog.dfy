/**
 The hand-written TeamProfile parser (internal/catalog/catalog.go): a state machine over
 lines, steered by indentation. `Step` is one turn of the line loop as a function; the
 method `Parse` is the loop.
 */
module Catalog {
  import opened Common

  /** The numeric fields hold the text given to fmt.Sscanf. */
  datatype StatSheet = StatSheet(modelTier: string, contextBudget: string, disciplineWeight: string,
                                 velocityExpect: string, tokenBudgetUSD: string)

  datatype MemberSpec = MemberSpec(
    name: string, agent: string, role: string, useDefaultPrompt: bool,
    prompt: string, briefOverride: string, statSheet: StatSheet, cwd: string)

  datatype TeamProfile = TeamProfile(
    apiVersion: string, kind: string, name: string, description: string,
    topology: string, members: seq<MemberSpec>)

  datatype ParseError = InvalidManifest(apiVersion: string, kind: string)

  const EmptySheet := StatSheet("", "", "", "", "")
  const EmptyMember := MemberSpec("", "", "", false, "", "", EmptySheet, "")

  // ---------------------------------------------------------------- strings

  /** unicode.IsSpace. */
  predicate IsSpace(c: char)
  {
    var u := c as int;
    || 9 <= u <= 13 || u == 32 || u == 0x85 || u == 0xA0 || u == 0x1680
    || 0x2000 <= u <= 0x200A || u == 0x2028 || u == 0x2029 || u == 0x202F || u == 0x205F || u == 0x3000
  }

  function TrimStart(s: string): (r: string)
  {
    if s != "" && IsSpace(s[0]) then TrimStart(s[1..]) else s
  }

  function TrimEnd(s: string): (r: string)
  {
    if s != "" && IsSpace(s[|s| - 1]) then TrimEnd(s[..|s| - 1]) else s
  }

  function TrimSpace(s: string): (r: string)
  {
    TrimEnd(TrimStart(s))
  }

  /** The number of leading blanks. */
  function Indent(raw: string): (n: nat)
    ensures n <= |raw|
    ensures forall i :: 0 <= i < n ==> raw[i] == ' '
    ensures n < |raw| ==> raw[n] != ' '
  {
    if raw != "" && raw[0] == ' ' then 1 + Indent(raw[1..]) else 0
  }

  /** strings.TrimLeft(raw, " "). */
  function TrimBlanks(raw: string): (r: string)
  {
    raw[Indent(raw)..]
  }

  /** strings.Split(s, "\n"). */
  function SplitLines(s: string): (r: seq<string>)
    ensures |r| >= 1
    decreases |s|
  {
    var n := IndexOf(s, '\n');
    if n == |s| then [s] else [s[..n]] + SplitLines(s[n + 1..])
  }

  function Unquote(v: string): (r: string)
  {
    if |v| >= 2 && v[0] == '"' && v[|v| - 1] == '"' then v[1..|v| - 1] else v
  }

  /** What the parser makes of the text after the colon. */
  function Clean(v: string): (r: string)
  {
    Unquote(TrimSpace(v))
  }

  function SplitKV(line: string): (r: (string, string))
  {
    var idx := IndexOf(line, ':');
    if idx == |line| then (TrimSpace(line), "")
    else (TrimSpace(line[..idx]), Clean(line[idx + 1..]))
  }

  // ---------------------------------------------------------- parser states

  datatype FoldedKey = NoKey | PromptKey | BriefKey

  datatype Parser = Parser(
    p: TeamProfile, inMembers: bool, inStatSheet: bool, inDescription: bool,
    inBriefOverride: bool, foldedKey: FoldedKey, descIndent: nat, cur: Option<MemberSpec>)

  const Start := Parser(TeamProfile("", "", "", "", "hub", []), false, false, false, false, NoKey, 0, None)

  /** The dereferences of `cur` in the folded branches are safe in these states. */
  predicate Safe(st: Parser)
  {
    st.inBriefOverride ==> st.cur.Some?
  }

  function Backfill(m: MemberSpec): (r: MemberSpec)
  {
    if m.prompt == "" && m.briefOverride != "" then m.(prompt := m.briefOverride) else m
  }

  function Flush(st: Parser): (r: Parser)
  {
    var st' := if st.cur.Some?
               then st.(p := st.p.(members := st.p.members + [Backfill(st.cur.value)]), cur := None)
               else st;
    st'.(inStatSheet := false, foldedKey := NoKey)
  }

  /** A member field; `|` opens a folded block. */
  function SetMemberKV(st: Parser, k: string, v: string, indent: nat): (r: Parser)
    requires st.cur.Some?
    ensures r.cur.Some?
  {
    var m := st.cur.value;
    if k == "name" then st.(cur := Some(m.(name := v)))
    else if k == "agent" then st.(cur := Some(m.(agent := v)))
    else if k == "role" then st.(cur := Some(m.(role := v)))
    else if k == "use_default_prompt" then st.(cur := Some(m.(useDefaultPrompt := v == "true")))
    else if k == "cwd" then st.(cur := Some(m.(cwd := v)))
    else if k == "prompt" then
      if v == "|" then st.(inBriefOverride := true, foldedKey := PromptKey, descIndent := indent)
      else st.(cur := Some(m.(prompt := v)))
    else if k == "brief_override" then
      if v == "|" then st.(inBriefOverride := true, foldedKey := BriefKey, descIndent := indent)
      else st.(cur := Some(m.(briefOverride := v)))
    else st
  }

  function SetStatSheetKV(s: StatSheet, k: string, v: string): (r: StatSheet)
  {
    if k == "model_tier" then s.(modelTier := v)
    else if k == "context_budget" then s.(contextBudget := v)
    else if k == "discipline_weight" then s.(disciplineWeight := v)
    else if k == "velocity_expect" then s.(velocityExpect := v)
    else if k == "token_budget_usd" then s.(tokenBudgetUSD := v)
    else s
  }

  function TopLevel(st: Parser, k: string, v: string): (r: Parser)
    ensures r.inBriefOverride == st.inBriefOverride
  {
    if k == "apiVersion" then st.(p := st.p.(apiVersion := v))
    else if k == "kind" then st.(p := st.p.(kind := v))
    else if k == "name" then st.(p := st.p.(name := v))
    else if k == "description" then
      if v == "|" then st.(inDescription := true, descIndent := 0)
      else st.(p := st.p.(description := v))
    else if k == "topology" then st.(p := st.p.(topology := v))
    else if k == "members" then st.(inMembers := true)
    else st
  }

  function AppendFolded(st: Parser, text: string): (r: Parser)
    requires st.cur.Some?
  {
    var m := st.cur.value;
    if st.foldedKey.PromptKey? then st.(cur := Some(m.(prompt := m.prompt + text)))
    else st.(cur := Some(m.(briefOverride := m.briefOverride + text)))
  }

  function CloseFolded(st: Parser): (r: Parser)
    requires st.cur.Some?
  {
    var m := st.cur.value;
    var m' := if st.foldedKey.PromptKey? then m.(prompt := TrimSpace(m.prompt))
              else m.(briefOverride := TrimSpace(m.briefOverride));
    st.(cur := Some(m'), inBriefOverride := false, foldedKey := NoKey)
  }

  function CloseDescription(st: Parser): (r: Parser)
  {
    st.(p := st.p.(description := TrimSpace(st.p.description)), inDescription := false)
  }

  /** A line that does not belong to a folded block. */
  function PlainLine(st: Parser, indent: nat, line: string): (r: Parser)
    requires !st.inBriefOverride
    ensures Safe(r)
  {
    if line == "" || line[0] == '#' then st
    else if indent == 0 then
      var (k, v) := SplitKV(line);
      TopLevel(Flush(st).(inMembers := false), k, v)
    else if st.inMembers then
      if indent == 2 && "- " <= line then
        var (k, v) := SplitKV(line[2..]);
        SetMemberKV(Flush(st).(cur := Some(EmptyMember), inStatSheet := false), k, v, indent)
      else if st.cur.None? then st
      else if indent == 4 then
        var (k, v) := SplitKV(line);
        if k == "stat_sheet" then st.(inStatSheet := true)
        else SetMemberKV(st.(inStatSheet := false), k, v, indent)
      else if indent == 6 && st.inStatSheet then
        var (k, v) := SplitKV(line);
        st.(cur := Some(st.cur.value.(statSheet := SetStatSheetKV(st.cur.value.statSheet, k, v))))
      else st
    else st
  }

  predicate Continues(st: Parser, indent: nat, line: string)
  {
    indent > st.descIndent || TrimSpace(line) == ""
  }

  /** One turn of the loop over lines. */
  function Step(st: Parser, raw: string): (r: Parser)
    requires Safe(st)
    ensures Safe(r)
  {
    var indent, line := Indent(raw), TrimBlanks(raw);
    if st.inDescription && Continues(st, indent, line) then
      st.(p := st.p.(description := st.p.description + line + "\n"))
    else
      var st1 := if st.inDescription then CloseDescription(st) else st;
      if st1.inBriefOverride && Continues(st1, indent, line) then AppendFolded(st1, line + "\n")
      else
        var st2 := if st1.inBriefOverride then CloseFolded(st1) else st1;
        PlainLine(st2, indent, line)
  }

  function Run(st: Parser, lines: seq<string>): (r: Parser)
    requires Safe(st)
    ensures Safe(r)
    decreases |lines|
  {
    if lines == [] then st else Run(Step(st, lines[0]), lines[1..])
  }

  function Finish(st: Parser): (r: Result<TeamProfile, ParseError>)
  {
    var p := Flush(st).p;
    if p.apiVersion == "" || p.kind != "TeamProfile" then Err(InvalidManifest(p.apiVersion, p.kind))
    else Ok(p)
  }

  function ParseSpec(text: string): (r: Result<TeamProfile, ParseError>)
  {
    Finish(Run(Start, SplitLines(text)))
  }

  lemma {:induction false} RunAppend(st: Parser, a: seq<string>, b: seq<string>)
    requires Safe(st)
    ensures Run(st, a + b) == Run(Run(st, a), b)
    decreases |a|
  {
    if a == [] {
      assert a + b == b;
    } else {
      RunAppend(Step(st, a[0]), a[1..], b);
      assert (a + b)[1..] == a[1..] + b;
    }
  }

  // --------------------------------------------------------------- the loop

  /** The variables of Parse, which its closure and setMemberKV's pointers update. */
  class LineLoop {
    var p: TeamProfile
    var inMembers: bool
    var inMemberStatSheet: bool
    var inDescription: bool
    var inBriefOverride: bool
    var foldedKey: FoldedKey
    var descIndent: nat
    var cur: Option<MemberSpec>

    function Abs(): (st: Parser)
      reads this
    {
      Parser(p, inMembers, inMemberStatSheet, inDescription, inBriefOverride, foldedKey, descIndent, cur)
    }

    constructor ()
      ensures Abs() == Start
    {
      p := TeamProfile("", "", "", "", "hub", []);
      inMembers, inMemberStatSheet, inDescription, inBriefOverride := false, false, false, false;
      foldedKey, descIndent, cur := NoKey, 0, None;
    }

    method FlushCur()
      modifies this
      ensures Abs() == Flush(old(Abs()))
    {
      if cur.Some? {
        var m := cur.value;
        if m.prompt == "" && m.briefOverride != "" {
          m := m.(prompt := m.briefOverride);
        }
        p := p.(members := p.members + [m]);
        cur := None;
      }
      inMemberStatSheet := false;
      foldedKey := NoKey;
    }

    method SetMember(k: string, v: string, indent: nat)
      requires cur.Some?
      modifies this
      ensures Abs() == SetMemberKV(old(Abs()), k, v, indent)
    {
      var m := cur.value;
      if k == "name" {
        cur := Some(m.(name := v));
      } else if k == "agent" {
        cur := Some(m.(agent := v));
      } else if k == "role" {
        cur := Some(m.(role := v));
      } else if k == "use_default_prompt" {
        cur := Some(m.(useDefaultPrompt := v == "true"));
      } else if k == "cwd" {
        cur := Some(m.(cwd := v));
      } else if k == "prompt" {
        if v == "|" {
          inBriefOverride, foldedKey, descIndent := true, PromptKey, indent;
        } else {
          cur := Some(m.(prompt := v));
        }
      } else if k == "brief_override" {
        if v == "|" {
          inBriefOverride, foldedKey, descIndent := true, BriefKey, indent;
        } else {
          cur := Some(m.(briefOverride := v));
        }
      }
    }

    method TopLevelLine(line: string)
      modifies this
      ensures var (k, v) := SplitKV(line);
        Abs() == TopLevel(Flush(old(Abs())).(inMembers := false), k, v)
    {
      FlushCur();
      inMembers := false;
      var (k, v) := SplitKV(line);
      if k == "apiVersion" {
        p := p.(apiVersion := v);
      } else if k == "kind" {
        p := p.(kind := v);
      } else if k == "name" {
        p := p.(name := v);
      } else if k == "description" {
        if v == "|" {
          inDescription, descIndent := true, 0;
        } else {
          p := p.(description := v);
        }
      } else if k == "topology" {
        p := p.(topology := v);
      } else if k == "members" {
        inMembers := true;
      }
    }

    method Plain(indent: nat, line: string)
      requires !inBriefOverride
      modifies this
      ensures Abs() == PlainLine(old(Abs()), indent, line)
    {
      if line == "" || line[0] == '#' {
        return;
      }
      if indent == 0 {
        TopLevelLine(line);
        return;
      }
      if inMembers {
        if indent == 2 && "- " <= line {
          FlushCur();
          cur := Some(EmptyMember);
          inMemberStatSheet := false;
          var (k, v) := SplitKV(line[2..]);
          SetMember(k, v, indent);
          return;
        }
        if cur.None? {
          return;
        }
        if indent == 4 {
          inMemberStatSheet := false;
          var (k, v) := SplitKV(line);
          if k == "stat_sheet" {
            inMemberStatSheet := true;
          } else {
            SetMember(k, v, indent);
          }
          return;
        }
        if indent == 6 && inMemberStatSheet {
          var (k, v) := SplitKV(line);
          cur := Some(cur.value.(statSheet := SetStatSheetKV(cur.value.statSheet, k, v)));
        }
      }
    }

    method Turn(raw: string)
      requires Safe(Abs())
      modifies this
      ensures Safe(Abs()) && Abs() == Step(old(Abs()), raw)
    {
      var indent: nat := 0;
      while indent < |raw| && raw[indent] == ' '
        invariant indent <= |raw| && forall j :: 0 <= j < indent ==> raw[j] == ' '
      {
        indent := indent + 1;
      }
      assert indent == Indent(raw);
      var line := raw[indent..];
      if inDescription {
        if indent > descIndent || TrimSpace(line) == "" {
          p := p.(description := p.description + line + "\n");
          return;
        }
        p := p.(description := TrimSpace(p.description));
        inDescription := false;
      }
      if inBriefOverride {
        var m := cur.value;
        if indent > descIndent || TrimSpace(line) == "" {
          if foldedKey == PromptKey {
            cur := Some(m.(prompt := m.prompt + (line + "\n")));
          } else {
            cur := Some(m.(briefOverride := m.briefOverride + (line + "\n")));
          }
          return;
        }
        if foldedKey == PromptKey {
          cur := Some(m.(prompt := TrimSpace(m.prompt)));
        } else {
          cur := Some(m.(briefOverride := TrimSpace(m.briefOverride)));
        }
        inBriefOverride := false;
        foldedKey := NoKey;
      }
      Plain(indent, line);
    }
  }

  method Parse(text: string) returns (r: Result<TeamProfile, ParseError>)
    ensures r == ParseSpec(text)
  {
    var loop := new LineLoop();
    var lines := SplitLines(text);
    for i := 0 to |lines|
      invariant Safe(loop.Abs()) && loop.Abs() == Run(Start, lines[..i])
    {
      loop.Turn(lines[i]);
      RunAppend(Start, lines[..i], [lines[i]]);
      assert lines[..i + 1] == lines[..i] + [lines[i]];
    }
    assert lines[..|lines|] == lines;
    loop.FlushCur();
    if loop.p.apiVersion == "" || loop.p.kind != "TeamProfile" {
      return Err(InvalidManifest(loop.p.apiVersion, loop.p.kind));
    }
    return Ok(loop.p);
  }
}
