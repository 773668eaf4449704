/**
 The documented layout of a TeamProfile file, and the proof that the parser of module
 Catalog inverts it (internal/catalog/catalog.go). Top-level keys stand at column 0, a
 member's dash at 2, its fields at 4, its stat sheet at 6; a description, prompt or
 brief_override of several lines is a `|` block two columns further in.
 */
module CatalogLayout {
  import opened Common
  import opened Catalog

  function Blanks(n: nat): (r: string)
    ensures |r| == n && forall i :: 0 <= i < n ==> r[i] == ' '
  {
    seq(n, i => ' ')
  }

  function KVText(k: string, v: string): (r: string)
  {
    k + ": " + v
  }

  function KVLine(n: nat, k: string, v: string): (r: string)
  {
    Blanks(n) + KVText(k, v)
  }

  function BlockLines(n: nat, ls: seq<string>): (r: seq<string>)
    ensures |r| == |ls|
    ensures forall i :: 0 <= i < |ls| ==> r[i] == Blanks(n) + ls[i]
  {
    seq(|ls|, i requires 0 <= i < |ls| => Blanks(n) + ls[i])
  }

  predicate OneLine(v: string)
  {
    '\n' !in v
  }

  /** A field that may be a block. */
  function TextLines(n: nat, k: string, v: string): (r: seq<string>)
  {
    if OneLine(v) then [KVLine(n, k, v)]
    else [KVLine(n, k, "|")] + BlockLines(n + 2, SplitLines(v))
  }

  function SheetLines(s: StatSheet): (r: seq<string>)
  {
    [KVLine(4, "stat_sheet", "")]
    + [KVLine(6, "model_tier", s.modelTier)] + [KVLine(6, "context_budget", s.contextBudget)]
    + [KVLine(6, "discipline_weight", s.disciplineWeight)]
    + [KVLine(6, "velocity_expect", s.velocityExpect)] + [KVLine(6, "token_budget_usd", s.tokenBudgetUSD)]
  }

  function DashLine(m: MemberSpec): (r: string)
  {
    Blanks(2) + "- " + KVText("name", m.name)
  }

  function Flag(b: bool): (r: string)
  {
    if b then "true" else "false"
  }

  function FirstLines(m: MemberSpec): (r: seq<string>)
  {
    [DashLine(m)] + [KVLine(4, "agent", m.agent)] + [KVLine(4, "role", m.role)]
    + [KVLine(4, "use_default_prompt", Flag(m.useDefaultPrompt))] + [KVLine(4, "cwd", m.cwd)]
  }

  function MemberLines(m: MemberSpec): (r: seq<string>)
  {
    FirstLines(m) + TextLines(4, "prompt", m.prompt) + TextLines(4, "brief_override", m.briefOverride)
    + SheetLines(m.statSheet)
  }

  function MembersLines(ms: seq<MemberSpec>): (r: seq<string>)
  {
    if ms == [] then [] else MembersLines(ms[..|ms| - 1]) + MemberLines(ms[|ms| - 1])
  }

  function HeadLines(p: TeamProfile): (r: seq<string>)
  {
    [KVLine(0, "apiVersion", p.apiVersion)] + [KVLine(0, "kind", p.kind)] + [KVLine(0, "name", p.name)]
    + TextLines(0, "description", p.description)
    + [KVLine(0, "topology", p.topology)] + [KVLine(0, "members", "")]
  }

  function Lines(p: TeamProfile): (r: seq<string>)
  {
    HeadLines(p) + MembersLines(p.members)
  }

  function Join(ls: seq<string>): (r: string)
    requires ls != []
  {
    if |ls| == 1 then ls[0] else ls[0] + "\n" + Join(ls[1..])
  }

  function Print(p: TeamProfile): (r: string)
  {
    Join(Lines(p))
  }

  // ------------------------------------------------ what comes back per field

  function Unindented(ls: seq<string>): (r: string)
  {
    if ls == [] then "" else Unindented(ls[..|ls| - 1]) + TrimBlanks(ls[|ls| - 1]) + "\n"
  }

  function TextBack(v: string): (r: string)
  {
    if OneLine(v) then Clean(v) else TrimSpace(Unindented(SplitLines(v)))
  }

  function SheetBack(s: StatSheet): (r: StatSheet)
  {
    StatSheet(Clean(s.modelTier), Clean(s.contextBudget), Clean(s.disciplineWeight),
              Clean(s.velocityExpect), Clean(s.tokenBudgetUSD))
  }

  function MemberBack(m: MemberSpec): (r: MemberSpec)
  {
    MemberSpec(Clean(m.name), Clean(m.agent), Clean(m.role), m.useDefaultPrompt,
               TextBack(m.prompt), TextBack(m.briefOverride), SheetBack(m.statSheet), Clean(m.cwd))
  }

  function MembersBack(ms: seq<MemberSpec>): (r: seq<MemberSpec>)
    ensures |r| == |ms|
    ensures forall i :: 0 <= i < |ms| ==> r[i] == Backfill(MemberBack(ms[i]))
  {
    seq(|ms|, i requires 0 <= i < |ms| => Backfill(MemberBack(ms[i])))
  }

  function Back(p: TeamProfile): (r: TeamProfile)
  {
    TeamProfile(Clean(p.apiVersion), Clean(p.kind), Clean(p.name), TextBack(p.description),
                Clean(p.topology), MembersBack(p.members))
  }

  /** A one-line value of a text field must not read as a block marker. */
  predicate PrintableText(v: string)
  {
    OneLine(v) ==> Clean(v) != "|"
  }

  predicate PrintableSheet(s: StatSheet)
  {
    && OneLine(s.modelTier) && OneLine(s.contextBudget) && OneLine(s.disciplineWeight)
    && OneLine(s.velocityExpect) && OneLine(s.tokenBudgetUSD)
  }

  predicate PrintableMember(m: MemberSpec)
  {
    && OneLine(m.name) && OneLine(m.agent) && OneLine(m.role) && OneLine(m.cwd)
    && PrintableText(m.prompt) && PrintableText(m.briefOverride) && PrintableSheet(m.statSheet)
  }

  predicate Printable(p: TeamProfile)
  {
    && OneLine(p.apiVersion) && OneLine(p.kind) && OneLine(p.name) && OneLine(p.topology)
    && PrintableText(p.description)
    && forall i :: 0 <= i < |p.members| ==> PrintableMember(p.members[i])
  }

  // ---------------------------------------------------------- lines and text

  lemma {:induction false} SplitFirst(a: string, rest: string)
    requires OneLine(a)
    ensures SplitLines(a + "\n" + rest) == [a] + SplitLines(rest)
  {
    var s := a + "\n" + rest;
    assert s[|a|] == '\n' && forall i :: 0 <= i < |a| ==> s[i] == a[i];
    assert IndexOf(s, '\n') == |a|;
    assert s[..|a|] == a && s[|a| + 1..] == rest;
  }

  /** Joining lines and splitting the text again gives the lines. */
  lemma {:induction false} SplitJoin(ls: seq<string>)
    requires ls != [] && forall i :: 0 <= i < |ls| ==> OneLine(ls[i])
    ensures SplitLines(Join(ls)) == ls
    decreases |ls|
  {
    if |ls| == 1 {
      assert IndexOf(ls[0], '\n') == |ls[0]|;
    } else {
      SplitJoin(ls[1..]);
      SplitFirst(ls[0], Join(ls[1..]));
    }
  }

  lemma {:induction false} SplitOneLine(s: string)
    ensures forall i :: 0 <= i < |SplitLines(s)| ==> OneLine(SplitLines(s)[i])
    decreases |s|
  {
    var n := IndexOf(s, '\n');
    if n < |s| {
      SplitOneLine(s[n + 1..]);
    }
  }

  lemma {:induction false} JoinSplit(s: string)
    ensures Join(SplitLines(s)) == s
    decreases |s|
  {
    var n := IndexOf(s, '\n');
    if n < |s| {
      JoinSplit(s[n + 1..]);
      JoinCons(s[..n], SplitLines(s[n + 1..]));
      CutAtNewline(s, n);
    }
  }

  lemma CutAtNewline(s: string, n: nat)
    requires n < |s| && s[n] == '\n'
    ensures s[..n] + "\n" + s[n + 1..] == s
  {
  }

  lemma JoinCons(l: string, ls: seq<string>)
    requires ls != []
    ensures Join([l] + ls) == l + "\n" + Join(ls)
  {
  }

  predicate KeyChar(c: char)
  {
    'a' <= c <= 'z' || 'A' <= c <= 'Z' || c == '_'
  }

  predicate IsKey(k: string)
  {
    k != "" && forall i :: 0 <= i < |k| ==> KeyChar(k[i])
  }

  lemma {:induction false} TrimEndKeeps(s: string)
    requires s != "" && !IsSpace(s[0])
    ensures TrimEnd(s) != "" && TrimEnd(s)[0] == s[0]
    decreases |s|
  {
    if IsSpace(s[|s| - 1]) {
      TrimEndKeeps(s[..|s| - 1]);
    }
  }

  lemma TrimKey(k: string)
    requires IsKey(k)
    ensures TrimSpace(k) == k
  {
    assert !IsSpace(k[0]) && !IsSpace(k[|k| - 1]);
  }

  lemma IndentOf(n: nat, t: string)
    requires t == "" || t[0] != ' '
    ensures Indent(Blanks(n) + t) == n && TrimBlanks(Blanks(n) + t) == t
  {
    var s := Blanks(n) + t;
    assert forall i :: 0 <= i < n ==> s[i] == ' ';
    assert t != "" ==> s[n] == t[0];
    assert Indent(s) == n;
    assert s[n..] == t;
  }

  lemma IndentPastBlanks(n: nat, t: string)
    ensures Indent(Blanks(n) + t) >= n && TrimBlanks(Blanks(n) + t) == TrimBlanks(t)
  {
    var d := Indent(t);
    var rest := t[d..];
    assert Blanks(n) + t == Blanks(n + d) + rest;
    IndentOf(n + d, rest);
  }

  lemma {:induction false} SplitKVText(k: string, v: string)
    requires IsKey(k)
    ensures SplitKV(KVText(k, v)) == (k, Clean(v))
    ensures KVText(k, v)[0] == k[0] && TrimSpace(KVText(k, v)) != ""
  {
    var t := KVText(k, v);
    assert t == k + (": " + v) && t[|k|] == ':';
    assert forall i :: 0 <= i < |k| ==> t[i] == k[i];
    assert IndexOf(t, ':') == |k|;
    assert t[..|k|] == k && t[|k| + 1..] == " " + v;
    TrimKey(k);
    assert TrimSpace(" " + v) == TrimSpace(v) by {
      assert (" " + v)[1..] == v;
    }
    TrimEndKeeps(t);
  }

  // ------------------------------------------------------------ single steps

  /** A line at indent `n` ends whatever block is open. */
  predicate Closes(st: Parser, n: nat)
  {
    st.inDescription || st.inBriefOverride ==> n <= st.descIndent
  }

  /** The state once open blocks are closed. */
  function Settle(st: Parser): (r: Parser)
    requires Safe(st)
    ensures !r.inDescription && !r.inBriefOverride
  {
    var st1 := if st.inDescription then CloseDescription(st) else st;
    if st1.inBriefOverride then CloseFolded(st1) else st1
  }

  lemma {:induction false} StepSettled(st: Parser, n: nat, t: string)
    requires Safe(st) && Closes(st, n) && t != "" && t[0] != ' ' && TrimSpace(t) != ""
    ensures Step(st, Blanks(n) + t) == PlainLine(Settle(st), n, t)
  {
    IndentOf(n, t);
  }

  lemma {:induction false} StepTop(st: Parser, k: string, v: string)
    requires Safe(st) && IsKey(k)
    ensures Step(st, KVLine(0, k, v)) == TopLevel(Flush(Settle(st)).(inMembers := false), k, Clean(v))
  {
    SplitKVText(k, v);
    StepSettled(st, 0, KVText(k, v));
  }

  lemma {:induction false} StepDash(st: Parser, v: string)
    requires Safe(st) && Closes(st, 2) && Settle(st).inMembers
    ensures Step(st, Blanks(2) + "- " + KVText("name", v)) ==
      Flush(Settle(st)).(cur := Some(EmptyMember.(name := Clean(v))))
  {
    var t := "- " + KVText("name", v);
    assert Blanks(2) + "- " + KVText("name", v) == Blanks(2) + t;
    DashText(KVText("name", v));
    StepSettled(st, 2, t);
    PlainDash(Settle(st), v);
  }

  lemma {:induction false} PlainDash(st: Parser, v: string)
    requires Safe(st) && !st.inBriefOverride && st.inMembers
    ensures PlainLine(st, 2, "- " + KVText("name", v)) == Flush(st).(cur := Some(EmptyMember.(name := Clean(v))))
  {
    DashText(KVText("name", v));
    SplitKVText("name", v);
  }

  lemma DashText(t: string)
    ensures ("- " + t)[0] == '-' && ("- " + t)[2..] == t && TrimSpace("- " + t) != ""
  {
    assert ("- " + t)[0] == '-';
    TrimEndKeeps("- " + t);
  }

  lemma {:induction false} StepField(st: Parser, k: string, v: string)
    requires Safe(st) && Closes(st, 4) && Settle(st).inMembers && Settle(st).cur.Some? && IsKey(k)
    ensures Step(st, KVLine(4, k, v)) ==
      if k == "stat_sheet" then Settle(st).(inStatSheet := true)
      else SetMemberKV(Settle(st).(inStatSheet := false), k, Clean(v), 4)
  {
    SplitKVText(k, v);
    StepSettled(st, 4, KVText(k, v));
  }

  lemma {:induction false} StepSheet(st: Parser, k: string, v: string)
    requires Safe(st) && !st.inDescription && !st.inBriefOverride
    requires st.inMembers && st.inStatSheet && st.cur.Some? && IsKey(k)
    ensures Step(st, KVLine(6, k, v)) ==
      st.(cur := Some(st.cur.value.(statSheet := SetStatSheetKV(st.cur.value.statSheet, k, Clean(v)))))
  {
    SplitKVText(k, v);
    StepSettled(st, 6, KVText(k, v));
  }

  lemma RunOne(st: Parser, raw: string)
    requires Safe(st)
    ensures Run(st, [raw]) == Step(st, raw)
  {
    assert [raw][1..] == [];
    assert Run(Step(st, raw), []) == Step(st, raw);
  }

  lemma {:induction false} RunCons(st: Parser, raw: string, rest: seq<string>)
    requires Safe(st)
    ensures Run(st, [raw] + rest) == Run(Step(st, raw), rest)
  {
    RunAppend(st, [raw], rest);
    RunOne(st, raw);
  }

  // ---------------------------------------------------------------- blocks

  lemma {:induction false} StepInBlock(st: Parser, n: nat, last: string)
    requires Safe(st) && !st.inDescription && st.inBriefOverride && st.descIndent < n
    ensures Step(st, Blanks(n) + last) == AppendFolded(st, TrimBlanks(last) + "\n")
  {
    IndentPastBlanks(n, last);
  }

  lemma AppendFoldedTwice(st: Parser, a: string, b: string)
    requires st.cur.Some?
    ensures AppendFolded(AppendFolded(st, a), b) == AppendFolded(st, a + b)
    ensures AppendFolded(st, "") == st
  {
    var m := st.cur.value;
    assert m.prompt + a + b == m.prompt + (a + b) && m.prompt + "" == m.prompt;
    assert m.briefOverride + a + b == m.briefOverride + (a + b);
    assert m.briefOverride + "" == m.briefOverride;
  }

  lemma {:induction false} RunBlock(st: Parser, n: nat, ls: seq<string>)
    requires Safe(st) && !st.inDescription && st.inBriefOverride && st.descIndent < n
    ensures Run(st, BlockLines(n, ls)) == AppendFolded(st, Unindented(ls))
    decreases |ls|
  {
    if ls == [] {
      AppendFoldedTwice(st, "", "");
    } else {
      var head, last := ls[..|ls| - 1], ls[|ls| - 1];
      RunBlock(st, n, head);
      assert BlockLines(n, ls) == BlockLines(n, head) + [Blanks(n) + last];
      RunAppend(st, BlockLines(n, head), [Blanks(n) + last]);
      var mid := AppendFolded(st, Unindented(head));
      RunOne(mid, Blanks(n) + last);
      StepInBlock(mid, n, last);
      AppendFoldedTwice(st, Unindented(head), TrimBlanks(last) + "\n");
      assert Unindented(ls) == Unindented(head) + (TrimBlanks(last) + "\n");
    }
  }

  function AppendDescription(st: Parser, text: string): (r: Parser)
  {
    st.(p := st.p.(description := st.p.description + text))
  }

  lemma {:induction false} StepInDescription(st: Parser, n: nat, last: string)
    requires Safe(st) && st.inDescription && st.descIndent < n
    ensures Step(st, Blanks(n) + last) == AppendDescription(st, TrimBlanks(last) + "\n")
  {
    IndentPastBlanks(n, last);
    assert st.p.description + TrimBlanks(last) + "\n" == st.p.description + (TrimBlanks(last) + "\n");
  }

  lemma AppendDescriptionTwice(st: Parser, a: string, b: string)
    ensures AppendDescription(AppendDescription(st, a), b) == AppendDescription(st, a + b)
    ensures AppendDescription(st, "") == st
  {
    assert st.p.description + a + b == st.p.description + (a + b);
    assert st.p.description + "" == st.p.description;
  }

  lemma {:induction false} RunDescription(st: Parser, n: nat, ls: seq<string>)
    requires Safe(st) && st.inDescription && st.descIndent < n
    ensures Run(st, BlockLines(n, ls)) == AppendDescription(st, Unindented(ls))
    decreases |ls|
  {
    if ls == [] {
      AppendDescriptionTwice(st, "", "");
    } else {
      var head, last := ls[..|ls| - 1], ls[|ls| - 1];
      RunDescription(st, n, head);
      assert BlockLines(n, ls) == BlockLines(n, head) + [Blanks(n) + last];
      RunAppend(st, BlockLines(n, head), [Blanks(n) + last]);
      var mid := AppendDescription(st, Unindented(head));
      RunOne(mid, Blanks(n) + last);
      StepInDescription(mid, n, last);
      AppendDescriptionTwice(st, Unindented(head), TrimBlanks(last) + "\n");
      assert Unindented(ls) == Unindented(head) + (TrimBlanks(last) + "\n");
    }
  }

  // --------------------------------------------------------------- members

  /** The parser stands inside member `m` of a list whose earlier part is in `p`. */
  predicate At(st: Parser, p: TeamProfile, m: MemberSpec)
  {
    && Safe(st) && Closes(st, 4)
    && Settle(st).inMembers && Settle(st).p == p && Settle(st).cur == Some(m)
  }

  lemma SetPrompt(st: Parser, v: string, indent: nat)
    requires st.cur.Some?
    ensures SetMemberKV(st, "prompt", v, indent) ==
      if v == "|" then st.(inBriefOverride := true, foldedKey := PromptKey, descIndent := indent)
      else st.(cur := Some(st.cur.value.(prompt := v)))
  {
    assert |"prompt"| == 6;
  }

  lemma SetBrief(st: Parser, v: string, indent: nat)
    requires st.cur.Some?
    ensures SetMemberKV(st, "brief_override", v, indent) ==
      if v == "|" then st.(inBriefOverride := true, foldedKey := BriefKey, descIndent := indent)
      else st.(cur := Some(st.cur.value.(briefOverride := v)))
  {
    assert |"brief_override"| == 14 && "brief_override"[0] == 'b';
  }

  /** Where a block that has just been opened leaves the parser. */
  lemma {:induction false} BlockComesBack(st: Parser, ls: seq<string>)
    requires Safe(st) && st.inMembers && !st.inDescription && st.inBriefOverride && st.descIndent == 4
    ensures var m, text := st.cur.value, Unindented(ls);
      At(Run(st, BlockLines(6, ls)), st.p,
         if st.foldedKey.PromptKey? then m.(prompt := TrimSpace(m.prompt + text))
         else m.(briefOverride := TrimSpace(m.briefOverride + text)))
  {
    RunBlock(st, 6, ls);
  }

  lemma {:induction false} FieldAt(st: Parser, p: TeamProfile, m: MemberSpec, m': MemberSpec, k: string, v: string)
    requires At(st, p, m) && IsKey(k) && k != "stat_sheet"
    requires forall st: Parser :: st.cur == Some(m) ==>
      SetMemberKV(st, k, Clean(v), 4) == st.(cur := Some(m'))
    ensures At(Step(st, KVLine(4, k, v)), p, m')
  {
    StepField(st, k, v);
    assert SetMemberKV(Settle(st).(inStatSheet := false), k, Clean(v), 4)
        == Settle(st).(inStatSheet := false).(cur := Some(m'));
  }

  lemma {:induction false} PromptComesBack(st: Parser, p: TeamProfile, m: MemberSpec, v: string)
    requires At(st, p, m) && PrintableText(v) && m.prompt == ""
    ensures At(Run(st, TextLines(4, "prompt", v)), p, m.(prompt := TextBack(v)))
  {
    if OneLine(v) {
      forall st: Parser | st.cur == Some(m)
        ensures SetMemberKV(st, "prompt", Clean(v), 4) == st.(cur := Some(m.(prompt := Clean(v))))
      {
        SetPrompt(st, Clean(v), 4);
      }
      FieldAt(st, p, m, m.(prompt := Clean(v)), "prompt", v);
      RunOne(st, KVLine(4, "prompt", v));
    } else {
      PromptBlockComesBack(st, p, m, v);
    }
  }

  lemma {:induction false} PromptBlockComesBack(st: Parser, p: TeamProfile, m: MemberSpec, v: string)
    requires At(st, p, m) && PrintableText(v) && !OneLine(v) && m.prompt == ""
    ensures At(Run(st, TextLines(4, "prompt", v)), p, m.(prompt := TextBack(v)))
  {
    StepField(st, "prompt", "|");
    CleanMarker();
    SetPrompt(Settle(st).(inStatSheet := false), "|", 4);
    RunCons(st, KVLine(4, "prompt", "|"), BlockLines(6, SplitLines(v)));
    BlockComesBack(Step(st, KVLine(4, "prompt", "|")), SplitLines(v));
    assert "" + Unindented(SplitLines(v)) == Unindented(SplitLines(v));
  }

  lemma {:induction false} BriefComesBack(st: Parser, p: TeamProfile, m: MemberSpec, v: string)
    requires At(st, p, m) && PrintableText(v) && m.briefOverride == ""
    ensures At(Run(st, TextLines(4, "brief_override", v)), p, m.(briefOverride := TextBack(v)))
  {
    if OneLine(v) {
      forall st: Parser | st.cur == Some(m)
        ensures SetMemberKV(st, "brief_override", Clean(v), 4) == st.(cur := Some(m.(briefOverride := Clean(v))))
      {
        SetBrief(st, Clean(v), 4);
      }
      FieldAt(st, p, m, m.(briefOverride := Clean(v)), "brief_override", v);
      RunOne(st, KVLine(4, "brief_override", v));
    } else {
      BriefBlockComesBack(st, p, m, v);
    }
  }

  lemma {:induction false} BriefBlockComesBack(st: Parser, p: TeamProfile, m: MemberSpec, v: string)
    requires At(st, p, m) && PrintableText(v) && !OneLine(v) && m.briefOverride == ""
    ensures At(Run(st, TextLines(4, "brief_override", v)), p, m.(briefOverride := TextBack(v)))
  {
    StepField(st, "brief_override", "|");
    CleanMarker();
    SetBrief(Settle(st).(inStatSheet := false), "|", 4);
    RunCons(st, KVLine(4, "brief_override", "|"), BlockLines(6, SplitLines(v)));
    BlockComesBack(Step(st, KVLine(4, "brief_override", "|")), SplitLines(v));
    assert "" + Unindented(SplitLines(v)) == Unindented(SplitLines(v));
  }

  lemma {:induction false} RunParts(st: Parser, a: seq<string>, b: seq<string>, c: seq<string>,
                                    d: seq<string>, e: seq<string>, f: seq<string>)
    requires Safe(st)
    ensures Run(st, a + b + c + d + e + f) == Run(Run(Run(Run(Run(Run(st, a), b), c), d), e), f)
  {
    RunAppend(st, a, b);
    RunAppend(st, a + b, c);
    RunAppend(st, a + b + c, d);
    RunAppend(st, a + b + c + d, e);
    RunAppend(st, a + b + c + d + e, f);
  }

  lemma {:induction false} NameComesBack(st: Parser, m: MemberSpec)
    requires Quiet(st) && st.inMembers
    ensures At(Run(st, [DashLine(m)]), Flush(st).p, EmptyMember.(name := Clean(m.name)))
  {
    assert Settle(st) == st;
    StepDash(st, m.name);
    RunOne(st, DashLine(m));
  }

  lemma {:induction false} AgentComesBack(st: Parser, p: TeamProfile, m: MemberSpec, v: string)
    requires At(st, p, m)
    ensures At(Run(st, [KVLine(4, "agent", v)]), p, m.(agent := Clean(v)))
  {
    FieldAt(st, p, m, m.(agent := Clean(v)), "agent", v);
    RunOne(st, KVLine(4, "agent", v));
  }

  lemma {:induction false} RoleComesBack(st: Parser, p: TeamProfile, m: MemberSpec, v: string)
    requires At(st, p, m)
    ensures At(Run(st, [KVLine(4, "role", v)]), p, m.(role := Clean(v)))
  {
    FieldAt(st, p, m, m.(role := Clean(v)), "role", v);
    RunOne(st, KVLine(4, "role", v));
  }

  lemma {:induction false} FlagComesBack(st: Parser, p: TeamProfile, m: MemberSpec, b: bool)
    requires At(st, p, m)
    ensures At(Run(st, [KVLine(4, "use_default_prompt", Flag(b))]), p, m.(useDefaultPrompt := b))
  {
    TrimKey(Flag(b));
    assert Clean(Flag(b)) == Flag(b);
    FieldAt(st, p, m, m.(useDefaultPrompt := b), "use_default_prompt", Flag(b));
    RunOne(st, KVLine(4, "use_default_prompt", Flag(b)));
  }

  lemma {:induction false} CwdComesBack(st: Parser, p: TeamProfile, m: MemberSpec, v: string)
    requires At(st, p, m)
    ensures At(Run(st, [KVLine(4, "cwd", v)]), p, m.(cwd := Clean(v)))
  {
    FieldAt(st, p, m, m.(cwd := Clean(v)), "cwd", v);
    RunOne(st, KVLine(4, "cwd", v));
  }

  lemma {:induction false} FirstFieldsComeBack(st: Parser, m: MemberSpec)
    requires Quiet(st) && st.inMembers
    ensures At(Run(st, FirstLines(m)), Flush(st).p,
               EmptyMember.(name := Clean(m.name), agent := Clean(m.agent), role := Clean(m.role),
                            useDefaultPrompt := m.useDefaultPrompt, cwd := Clean(m.cwd)))
  {
    var p := Flush(st).p;
    var a, b, c := [DashLine(m)], [KVLine(4, "agent", m.agent)], [KVLine(4, "role", m.role)];
    var d, e := [KVLine(4, "use_default_prompt", Flag(m.useDefaultPrompt))], [KVLine(4, "cwd", m.cwd)];
    NameComesBack(st, m);
    var s1, m1 := Run(st, a), EmptyMember.(name := Clean(m.name));
    AgentComesBack(s1, p, m1, m.agent);
    var s2, m2 := Run(s1, b), m1.(agent := Clean(m.agent));
    RoleComesBack(s2, p, m2, m.role);
    var s3, m3 := Run(s2, c), m2.(role := Clean(m.role));
    FlagComesBack(s3, p, m3, m.useDefaultPrompt);
    var s4, m4 := Run(s3, d), m3.(useDefaultPrompt := m.useDefaultPrompt);
    CwdComesBack(s4, p, m4, m.cwd);
    RunParts(st, a, b, c, d, e, []);
    assert FirstLines(m) == a + b + c + d + e + [];
  }

  /** No block is open. */
  predicate Quiet(st: Parser)
  {
    !st.inDescription && !st.inBriefOverride
  }

  /** Inside the stat sheet of member `m`. */
  predicate InSheet(st: Parser, p: TeamProfile, m: MemberSpec)
  {
    Quiet(st) && st.inMembers && st.inStatSheet && st.p == p && st.cur == Some(m)
  }

  lemma {:induction false} SheetOpens(st: Parser, p: TeamProfile, m: MemberSpec)
    requires At(st, p, m)
    ensures InSheet(Run(st, [KVLine(4, "stat_sheet", "")]), p, m)
  {
    StepField(st, "stat_sheet", "");
    RunOne(st, KVLine(4, "stat_sheet", ""));
  }

  lemma {:induction false} SheetKeyComesBack(st: Parser, p: TeamProfile, m: MemberSpec, k: string, v: string)
    requires InSheet(st, p, m) && IsKey(k)
    ensures InSheet(Run(st, [KVLine(6, k, v)]), p, m.(statSheet := SetStatSheetKV(m.statSheet, k, Clean(v))))
  {
    StepSheet(st, k, v);
    RunOne(st, KVLine(6, k, v));
  }

  lemma SheetKeys(s: StatSheet, v: string)
    ensures SetStatSheetKV(s, "model_tier", v) == s.(modelTier := v)
    ensures SetStatSheetKV(s, "context_budget", v) == s.(contextBudget := v)
    ensures SetStatSheetKV(s, "discipline_weight", v) == s.(disciplineWeight := v)
    ensures SetStatSheetKV(s, "velocity_expect", v) == s.(velocityExpect := v)
    ensures SetStatSheetKV(s, "token_budget_usd", v) == s.(tokenBudgetUSD := v)
    ensures IsKey("model_tier") && IsKey("context_budget") && IsKey("discipline_weight")
    ensures IsKey("velocity_expect") && IsKey("token_budget_usd")
  {
  }

  lemma {:induction false} SheetComesBack(st: Parser, p: TeamProfile, m: MemberSpec, s: StatSheet)
    requires At(st, p, m) && m.statSheet == EmptySheet
    ensures InSheet(Run(st, SheetLines(s)), p, m.(statSheet := SheetBack(s)))
  {
    var a, b := [KVLine(4, "stat_sheet", "")], [KVLine(6, "model_tier", s.modelTier)];
    var c, d := [KVLine(6, "context_budget", s.contextBudget)],
                [KVLine(6, "discipline_weight", s.disciplineWeight)];
    var e, f := [KVLine(6, "velocity_expect", s.velocityExpect)],
                [KVLine(6, "token_budget_usd", s.tokenBudgetUSD)];
    var t0 := EmptySheet;
    SheetOpens(st, p, m);
    var s1 := Run(st, a);
    SheetKeys(t0, Clean(s.modelTier));
    SheetKeyComesBack(s1, p, m, "model_tier", s.modelTier);
    var s2, t1 := Run(s1, b), t0.(modelTier := Clean(s.modelTier));
    SheetKeys(t1, Clean(s.contextBudget));
    SheetKeyComesBack(s2, p, m.(statSheet := t1), "context_budget", s.contextBudget);
    var s3, t2 := Run(s2, c), t1.(contextBudget := Clean(s.contextBudget));
    SheetKeys(t2, Clean(s.disciplineWeight));
    SheetKeyComesBack(s3, p, m.(statSheet := t2), "discipline_weight", s.disciplineWeight);
    var s4, t3 := Run(s3, d), t2.(disciplineWeight := Clean(s.disciplineWeight));
    SheetKeys(t3, Clean(s.velocityExpect));
    SheetKeyComesBack(s4, p, m.(statSheet := t3), "velocity_expect", s.velocityExpect);
    var s5, t4 := Run(s4, e), t3.(velocityExpect := Clean(s.velocityExpect));
    SheetKeys(t4, Clean(s.tokenBudgetUSD));
    SheetKeyComesBack(s5, p, m.(statSheet := t4), "token_budget_usd", s.tokenBudgetUSD);
    RunParts(st, a, b, c, d, e, f);
  }

  lemma {:induction false} MemberComesBack(st: Parser, m: MemberSpec)
    requires Quiet(st) && st.inMembers && PrintableMember(m)
    ensures InSheet(Run(st, MemberLines(m)), Flush(st).p, MemberBack(m))
  {
    var p := Flush(st).p;
    var a, b, c, d := FirstLines(m), TextLines(4, "prompt", m.prompt),
                      TextLines(4, "brief_override", m.briefOverride), SheetLines(m.statSheet);
    FirstFieldsComeBack(st, m);
    var m1 := EmptyMember.(name := Clean(m.name), agent := Clean(m.agent), role := Clean(m.role),
                           useDefaultPrompt := m.useDefaultPrompt, cwd := Clean(m.cwd));
    var s1 := Run(st, a);
    PromptComesBack(s1, p, m1, m.prompt);
    var s2, m2 := Run(s1, b), m1.(prompt := TextBack(m.prompt));
    BriefComesBack(s2, p, m2, m.briefOverride);
    var s3, m3 := Run(s2, c), m2.(briefOverride := TextBack(m.briefOverride));
    SheetComesBack(s3, p, m3, m.statSheet);
    MemberLinesRun(st, m);
  }

  lemma {:induction false} RunFour(st: Parser, a: seq<string>, b: seq<string>, c: seq<string>, d: seq<string>)
    requires Safe(st)
    ensures Run(st, a + b + c + d) == Run(Run(Run(Run(st, a), b), c), d)
  {
    RunAppend(st, a, b);
    RunAppend(st, a + b, c);
    RunAppend(st, a + b + c, d);
  }

  /** A member's lines run part by part. */
  lemma {:induction false} MemberLinesRun(st: Parser, m: MemberSpec)
    requires Safe(st)
    ensures Run(st, MemberLines(m)) ==
      Run(Run(Run(Run(st, FirstLines(m)), TextLines(4, "prompt", m.prompt)),
              TextLines(4, "brief_override", m.briefOverride)), SheetLines(m.statSheet))
  {
    RunFour(st, FirstLines(m), TextLines(4, "prompt", m.prompt),
            TextLines(4, "brief_override", m.briefOverride), SheetLines(m.statSheet));
  }

  lemma {:induction false} OneMoreMember(st: Parser, m: MemberSpec)
    requires Quiet(st) && st.inMembers && PrintableMember(m)
    ensures var t := Run(st, MemberLines(m)); var p := Flush(st).p;
      Quiet(t) && t.inMembers && Flush(t).p == p.(members := p.members + [Backfill(MemberBack(m))])
  {
    MemberComesBack(st, m);
  }

  lemma MembersBackAppend(before: seq<MemberSpec>, ms: seq<MemberSpec>)
    requires ms != []
    ensures before + MembersBack(ms) ==
      before + MembersBack(ms[..|ms| - 1]) + [Backfill(MemberBack(ms[|ms| - 1]))]
  {
    var n := |ms| - 1;
    var init, last := MembersBack(ms[..n]), Backfill(MemberBack(ms[n]));
    forall i | 0 <= i < n
      ensures MembersBack(ms)[i] == init[i]
    {
      assert ms[..n][i] == ms[i];
    }
    OneMore(MembersBack(ms), init, last);
    AppendAssoc(before, init, [last]);
  }

  lemma OneMore<T>(all: seq<T>, init: seq<T>, last: T)
    requires |all| == |init| + 1 && all[|init|] == last
    requires forall i :: 0 <= i < |init| ==> all[i] == init[i]
    ensures all == init + [last]
  {
  }

  lemma AppendAssoc<T>(a: seq<T>, b: seq<T>, c: seq<T>)
    ensures a + b + c == a + (b + c)
  {
  }

  lemma {:induction false} MembersComeBack(st: Parser, ms: seq<MemberSpec>)
    requires Quiet(st) && st.inMembers
    requires forall i :: 0 <= i < |ms| ==> PrintableMember(ms[i])
    ensures var t := Run(st, MembersLines(ms)); var p := Flush(st).p;
      Quiet(t) && t.inMembers && Flush(t).p == p.(members := p.members + MembersBack(ms))
    decreases |ms|
  {
    var p := Flush(st).p;
    if ms == [] {
      assert p.members + [] == p.members;
    } else {
      var before, last := ms[..|ms| - 1], ms[|ms| - 1];
      MembersComeBack(st, before);
      OneMoreMember(Run(st, MembersLines(before)), last);
      RunAppend(st, MembersLines(before), MemberLines(last));
      MembersBackAppend(p.members, ms);
    }
  }

  /** The parser stands among the top-level keys. */
  predicate AtTop(st: Parser, p: TeamProfile)
  {
    Safe(st) && Settle(st).cur.None? && !Settle(st).inMembers && Settle(st).p == p
  }

  lemma {:induction false} DescriptionComesBack(st: Parser, p: TeamProfile, v: string)
    requires AtTop(st, p) && PrintableText(v) && p.description == ""
    ensures AtTop(Run(st, TextLines(0, "description", v)), p.(description := TextBack(v)))
  {
    if OneLine(v) {
      StepTop(st, "description", v);
      RunOne(st, KVLine(0, "description", v));
    } else {
      DescriptionBlockComesBack(st, p, v);
    }
  }

  lemma {:induction false} DescriptionBlockComesBack(st: Parser, p: TeamProfile, v: string)
    requires AtTop(st, p) && !OneLine(v) && p.description == ""
    ensures AtTop(Run(st, TextLines(0, "description", v)), p.(description := TextBack(v)))
  {
    var top := Flush(Settle(st)).(inMembers := false);
    StepTop(st, "description", "|");
    CleanMarker();
    TopDescription(top, "|");
    RunCons(st, KVLine(0, "description", "|"), BlockLines(2, SplitLines(v)));
    DescriptionRuns(top, p, v);
  }

  lemma {:induction false} DescriptionRuns(top: Parser, p: TeamProfile, v: string)
    requires Quiet(top) && top.cur.None? && !top.inMembers && top.p == p && !OneLine(v) && p.description == ""
    ensures AtTop(Run(top.(inDescription := true, descIndent := 0), BlockLines(2, SplitLines(v))),
                  p.(description := TextBack(v)))
  {
    RunDescription(top.(inDescription := true, descIndent := 0), 2, SplitLines(v));
    assert "" + Unindented(SplitLines(v)) == Unindented(SplitLines(v));
  }

  lemma TopDescription(st: Parser, v: string)
    ensures TopLevel(st, "description", v) ==
      if v == "|" then st.(inDescription := true, descIndent := 0) else st.(p := st.p.(description := v))
  {
    assert |"description"| == 11 && "description"[0] == 'd';
  }

  lemma TopMembers(st: Parser, v: string)
    ensures TopLevel(st, "members", v) == st.(inMembers := true)
  {
    assert |"members"| == 7 && "members"[0] == 'm';
  }

  lemma CleanMarker()
    ensures Clean("|") == "|"
  {
  }

  lemma {:induction false} TopAt(st: Parser, p: TeamProfile, p': TeamProfile, k: string, v: string)
    requires AtTop(st, p) && IsKey(k)
    requires forall q: Parser :: q.p == p ==> TopLevel(q, k, Clean(v)) == q.(p := p')
    ensures AtTop(Run(st, [KVLine(0, k, v)]), p')
  {
    StepTop(st, k, v);
    RunOne(st, KVLine(0, k, v));
    var q := Flush(Settle(st)).(inMembers := false);
    assert TopLevel(q, k, Clean(v)) == q.(p := p');
  }

  lemma {:induction false} VersionComesBack(st: Parser, p: TeamProfile, v: string)
    requires AtTop(st, p)
    ensures AtTop(Run(st, [KVLine(0, "apiVersion", v)]), p.(apiVersion := Clean(v)))
  {
    TopAt(st, p, p.(apiVersion := Clean(v)), "apiVersion", v);
  }

  lemma {:induction false} KindComesBack(st: Parser, p: TeamProfile, v: string)
    requires AtTop(st, p)
    ensures AtTop(Run(st, [KVLine(0, "kind", v)]), p.(kind := Clean(v)))
  {
    TopAt(st, p, p.(kind := Clean(v)), "kind", v);
  }

  lemma {:induction false} ProfileNameComesBack(st: Parser, p: TeamProfile, v: string)
    requires AtTop(st, p)
    ensures AtTop(Run(st, [KVLine(0, "name", v)]), p.(name := Clean(v)))
  {
    TopAt(st, p, p.(name := Clean(v)), "name", v);
  }

  lemma {:induction false} TopologyComesBack(st: Parser, p: TeamProfile, v: string)
    requires AtTop(st, p)
    ensures AtTop(Run(st, [KVLine(0, "topology", v)]), p.(topology := Clean(v)))
  {
    TopAt(st, p, p.(topology := Clean(v)), "topology", v);
  }

  lemma {:induction false} MembersOpens(st: Parser, p: TeamProfile)
    requires AtTop(st, p)
    ensures var t := Run(st, [KVLine(0, "members", "")]);
      Quiet(t) && t.inMembers && t.cur.None? && t.p == p
  {
    StepTop(st, "members", "");
    TopMembers(Flush(Settle(st)).(inMembers := false), Clean(""));
    RunOne(st, KVLine(0, "members", ""));
  }

  lemma {:induction false} HeadComesBack(p: TeamProfile)
    requires PrintableText(p.description)
    ensures var t := Run(Start, HeadLines(p));
      Quiet(t) && t.inMembers && Flush(t).p == Back(p).(members := [])
  {
    var a, b, c := [KVLine(0, "apiVersion", p.apiVersion)], [KVLine(0, "kind", p.kind)],
                   [KVLine(0, "name", p.name)];
    var d := TextLines(0, "description", p.description);
    var e, f := [KVLine(0, "topology", p.topology)], [KVLine(0, "members", "")];
    var p0 := Start.p;
    VersionComesBack(Start, p0, p.apiVersion);
    var s1, p1 := Run(Start, a), p0.(apiVersion := Clean(p.apiVersion));
    KindComesBack(s1, p1, p.kind);
    var s2, p2 := Run(s1, b), p1.(kind := Clean(p.kind));
    ProfileNameComesBack(s2, p2, p.name);
    var s3, p3 := Run(s2, c), p2.(name := Clean(p.name));
    DescriptionComesBack(s3, p3, p.description);
    var s4, p4 := Run(s3, d), p3.(description := TextBack(p.description));
    TopologyComesBack(s4, p4, p.topology);
    var s5, p5 := Run(s4, e), p4.(topology := Clean(p.topology));
    MembersOpens(s5, p5);
    RunParts(Start, a, b, c, d, e, f);
  }

  // ------------------------------------------------------------ round trip

  lemma {:induction false} LinesComeBack(p: TeamProfile)
    requires Printable(p)
    ensures var t := Run(Start, Lines(p)); Quiet(t) && t.inMembers && Flush(t).p == Back(p)
  {
    HeadComesBack(p);
    MembersComeBack(Run(Start, HeadLines(p)), p.members);
    RunAppend(Start, HeadLines(p), MembersLines(p.members));
    assert [] + MembersBack(p.members) == MembersBack(p.members);
  }

  /** Parsing the layout of a profile gives, field by field, what each value comes back
      as: members in order, values cleaned, blocks unindented, prompts backfilled. */
  lemma {:induction false} RoundTrip(p: TeamProfile)
    requires Printable(p)
    ensures ParseSpec(Print(p)) ==
      if Clean(p.apiVersion) == "" || Clean(p.kind) != "TeamProfile"
      then Err(InvalidManifest(Clean(p.apiVersion), Clean(p.kind)))
      else Ok(Back(p))
  {
    LinesAreLines(p);
    SplitJoin(Lines(p));
    LinesComeBack(p);
  }

  predicate AllOneLine(ls: seq<string>)
  {
    forall i :: 0 <= i < |ls| ==> OneLine(ls[i])
  }

  lemma OneLineConcat(a: seq<string>, b: seq<string>)
    requires AllOneLine(a) && AllOneLine(b)
    ensures AllOneLine(a + b)
  {
  }

  lemma KVLineOneLine(n: nat, k: string, v: string)
    requires IsKey(k) && OneLine(v)
    ensures AllOneLine([KVLine(n, k, v)])
  {
    assert OneLine(Blanks(n)) && OneLine(k) && OneLine(": ");
    assert OneLine(KVText(k, v));
  }

  lemma TextLinesOneLine(n: nat, k: string, v: string)
    requires IsKey(k)
    ensures AllOneLine(TextLines(n, k, v))
  {
    if OneLine(v) {
      KVLineOneLine(n, k, v);
    } else {
      KVLineOneLine(n, k, "|");
      SplitOneLine(v);
      assert OneLine(Blanks(n + 2));
      OneLineConcat([KVLine(n, k, "|")], BlockLines(n + 2, SplitLines(v)));
    }
  }

  lemma OneLineParts(a: seq<string>, b: seq<string>, c: seq<string>, d: seq<string>, e: seq<string>,
                     f: seq<string>)
    requires AllOneLine(a) && AllOneLine(b) && AllOneLine(c)
    requires AllOneLine(d) && AllOneLine(e) && AllOneLine(f)
    ensures AllOneLine(a + b + c + d + e + f)
  {
    OneLineConcat(a, b);
    OneLineConcat(a + b, c);
    OneLineConcat(a + b + c, d);
    OneLineConcat(a + b + c + d, e);
    OneLineConcat(a + b + c + d + e, f);
  }

  lemma FirstLinesOneLine(m: MemberSpec)
    requires PrintableMember(m)
    ensures AllOneLine(FirstLines(m))
  {
    assert OneLine(Blanks(2)) && OneLine("- ") && OneLine("name") && OneLine(": ");
    assert OneLine(KVText("name", m.name));
    assert AllOneLine([DashLine(m)]);
    KVLineOneLine(4, "agent", m.agent);
    KVLineOneLine(4, "role", m.role);
    KVLineOneLine(4, "use_default_prompt", Flag(m.useDefaultPrompt));
    KVLineOneLine(4, "cwd", m.cwd);
    OneLineParts([DashLine(m)], [KVLine(4, "agent", m.agent)], [KVLine(4, "role", m.role)],
                 [KVLine(4, "use_default_prompt", Flag(m.useDefaultPrompt))],
                 [KVLine(4, "cwd", m.cwd)], []);
  }

  lemma SheetLinesOneLine(s: StatSheet)
    requires PrintableSheet(s)
    ensures AllOneLine(SheetLines(s))
  {
    SheetKeys(s, "");
    KVLineOneLine(4, "stat_sheet", "");
    KVLineOneLine(6, "model_tier", s.modelTier);
    KVLineOneLine(6, "context_budget", s.contextBudget);
    KVLineOneLine(6, "discipline_weight", s.disciplineWeight);
    KVLineOneLine(6, "velocity_expect", s.velocityExpect);
    KVLineOneLine(6, "token_budget_usd", s.tokenBudgetUSD);
    OneLineParts([KVLine(4, "stat_sheet", "")], [KVLine(6, "model_tier", s.modelTier)],
                 [KVLine(6, "context_budget", s.contextBudget)],
                 [KVLine(6, "discipline_weight", s.disciplineWeight)],
                 [KVLine(6, "velocity_expect", s.velocityExpect)],
                 [KVLine(6, "token_budget_usd", s.tokenBudgetUSD)]);
  }

  lemma MemberLinesOneLine(m: MemberSpec)
    requires PrintableMember(m)
    ensures AllOneLine(MemberLines(m))
  {
    FirstLinesOneLine(m);
    TextLinesOneLine(4, "prompt", m.prompt);
    assert IsKey("brief_override");
    TextLinesOneLine(4, "brief_override", m.briefOverride);
    SheetLinesOneLine(m.statSheet);
    OneLineParts(FirstLines(m), TextLines(4, "prompt", m.prompt),
                 TextLines(4, "brief_override", m.briefOverride), SheetLines(m.statSheet), [], []);
  }

  lemma {:induction false} MembersLinesOneLine(ms: seq<MemberSpec>)
    requires forall i :: 0 <= i < |ms| ==> PrintableMember(ms[i])
    ensures AllOneLine(MembersLines(ms))
    decreases |ms|
  {
    if ms != [] {
      MembersLinesOneLine(ms[..|ms| - 1]);
      MemberLinesOneLine(ms[|ms| - 1]);
      OneLineConcat(MembersLines(ms[..|ms| - 1]), MemberLines(ms[|ms| - 1]));
    }
  }

  lemma LinesAreLines(p: TeamProfile)
    requires Printable(p)
    ensures AllOneLine(Lines(p)) && Lines(p) != []
  {
    KVLineOneLine(0, "apiVersion", p.apiVersion);
    KVLineOneLine(0, "kind", p.kind);
    KVLineOneLine(0, "name", p.name);
    TextLinesOneLine(0, "description", p.description);
    KVLineOneLine(0, "topology", p.topology);
    KVLineOneLine(0, "members", "");
    OneLineParts([KVLine(0, "apiVersion", p.apiVersion)], [KVLine(0, "kind", p.kind)],
                 [KVLine(0, "name", p.name)], TextLines(0, "description", p.description),
                 [KVLine(0, "topology", p.topology)], [KVLine(0, "members", "")]);
    MembersLinesOneLine(p.members);
    OneLineConcat(HeadLines(p), MembersLines(p.members));
  }

  // --------------------------------------- which profiles come back unchanged

  predicate Trimmed(v: string)
  {
    v == "" || (!IsSpace(v[0]) && !IsSpace(v[|v| - 1]))
  }

  predicate QuotedBothEnds(v: string)
  {
    |v| >= 2 && v[0] == '"' && v[|v| - 1] == '"'
  }

  lemma {:induction false} TrimStartFacts(s: string)
    ensures |TrimStart(s)| <= |s|
    ensures TrimStart(s) == s <==> s == "" || !IsSpace(s[0])
    ensures TrimStart(s) != "" ==> !IsSpace(TrimStart(s)[0]) && TrimStart(s)[|TrimStart(s)| - 1] == s[|s| - 1]
  {
    if s != "" && IsSpace(s[0]) {
      TrimStartFacts(s[1..]);
    }
  }

  lemma {:induction false} TrimEndFacts(s: string)
    ensures |TrimEnd(s)| <= |s|
    ensures TrimEnd(s) == s <==> s == "" || !IsSpace(s[|s| - 1])
    ensures TrimEnd(s) != "" ==> TrimEnd(s)[0] == s[0] && !IsSpace(TrimEnd(s)[|TrimEnd(s)| - 1])
    decreases |s|
  {
    if s != "" && IsSpace(s[|s| - 1]) {
      TrimEndFacts(s[..|s| - 1]);
    }
  }

  /** TrimSpace yields a trimmed string and changes exactly the untrimmed ones. */
  lemma {:induction false} TrimSpaceFacts(s: string)
    ensures Trimmed(TrimSpace(s)) && |TrimSpace(s)| <= |s|
    ensures TrimSpace(s) == s <==> Trimmed(s)
    ensures s != "" && IsSpace(s[|s| - 1]) ==> |TrimSpace(s)| < |s|
  {
    TrimStartFacts(s);
    TrimEndFacts(TrimStart(s));
    if TrimSpace(s) == s {
      assert TrimStart(s) == s;
    }
    if s != "" && IsSpace(s[|s| - 1]) && |TrimSpace(s)| == |s| {
      assert |TrimStart(s)| == |s|;
      TrimStartLength(s);
      assert TrimStart(s) == s;
      TrimEndLength(s);
    }
  }

  lemma {:induction false} TrimStartLength(s: string)
    ensures |TrimStart(s)| == |s| ==> TrimStart(s) == s
  {
    if s != "" && IsSpace(s[0]) {
      TrimStartFacts(s[1..]);
    }
  }

  lemma {:induction false} TrimEndLength(s: string)
    ensures |TrimEnd(s)| == |s| ==> TrimEnd(s) == s
  {
    if s != "" && IsSpace(s[|s| - 1]) {
      TrimEndFacts(s[..|s| - 1]);
    }
  }

  /** A one-line value survives exactly when it is trimmed and not quoted at both ends. */
  lemma {:induction false} CleanFixed(v: string)
    ensures Clean(v) == v <==> Trimmed(v) && !QuotedBothEnds(v)
  {
    TrimSpaceFacts(v);
    if Clean(v) == v {
      assert |TrimSpace(v)| == |v|;
      TrimStartFacts(v);
      TrimEndFacts(TrimStart(v));
      TrimStartLength(v);
      TrimEndLength(TrimStart(v));
    }
  }

  predicate NoLeadingBlank(ls: seq<string>)
  {
    forall i :: 0 <= i < |ls| ==> ls[i] == "" || ls[i][0] != ' '
  }

  predicate PlainBlock(v: string)
  {
    Trimmed(v) && NoLeadingBlank(SplitLines(v))
  }

  lemma {:induction false} JoinAppend(ls: seq<string>, last: string)
    requires ls != []
    ensures Join(ls + [last]) == Join(ls) + "\n" + last
    decreases |ls|
  {
    if |ls| == 1 {
      assert (ls + [last])[1..] == [last];
    } else {
      JoinAppend(ls[1..], last);
      assert (ls + [last])[1..] == ls[1..] + [last];
    }
  }

  /** Unindenting lines loses their leading blanks and nothing else. */
  lemma {:induction false} UnindentedText(ls: seq<string>)
    requires ls != []
    ensures |Unindented(ls)| <= |Join(ls)| + 1 && Unindented(ls)[|Unindented(ls)| - 1] == '\n'
    ensures NoLeadingBlank(ls) ==> Unindented(ls) == Join(ls) + "\n"
    ensures !NoLeadingBlank(ls) ==> |Unindented(ls)| <= |Join(ls)|
    decreases |ls|
  {
    var last := ls[|ls| - 1];
    if |ls| == 1 {
      assert Unindented(ls[..0]) == "";
    } else {
      var head := ls[..|ls| - 1];
      UnindentedText(head);
      JoinAppend(head, last);
      assert ls == head + [last];
      assert NoLeadingBlank(ls) <==> NoLeadingBlank(head) && (last == "" || last[0] != ' ');
    }
  }

  /** A block of several lines survives exactly when it is trimmed and no line of it starts
      with a blank. */
  lemma {:induction false} BlockFixed(v: string)
    requires !OneLine(v)
    ensures TextBack(v) == v <==> PlainBlock(v)
  {
    var ls := SplitLines(v);
    JoinSplit(v);
    UnindentedText(ls);
    TrimSpaceFacts(Unindented(ls));
    if NoLeadingBlank(ls) && Trimmed(v) {
      TrimNewline(v);
    }
  }

  lemma {:induction false} TrimNewline(v: string)
    requires Trimmed(v)
    ensures TrimSpace(v + "\n") == v
  {
    var s := v + "\n";
    assert s[..|s| - 1] == v;
    if v == "" {
      assert TrimStart("\n") == TrimStart("");
    } else {
      assert TrimStart(s) == s && TrimEnd(s) == TrimEnd(v) == v;
    }
  }

  predicate TextOk(v: string)
  {
    if OneLine(v) then Trimmed(v) && !QuotedBothEnds(v) else PlainBlock(v)
  }

  predicate ValueOk(v: string)
  {
    Trimmed(v) && !QuotedBothEnds(v)
  }

  predicate SheetOk(s: StatSheet)
  {
    && ValueOk(s.modelTier) && ValueOk(s.contextBudget) && ValueOk(s.disciplineWeight)
    && ValueOk(s.velocityExpect) && ValueOk(s.tokenBudgetUSD)
  }

  /** The last condition is the backfill: an empty prompt beside a brief is filled in. */
  predicate MemberOk(m: MemberSpec)
  {
    && ValueOk(m.name) && ValueOk(m.agent) && ValueOk(m.role) && ValueOk(m.cwd)
    && TextOk(m.prompt) && TextOk(m.briefOverride) && SheetOk(m.statSheet)
    && (m.prompt == "" ==> m.briefOverride == "")
  }

  predicate Faithful(p: TeamProfile)
  {
    && p.apiVersion != "" && p.kind == "TeamProfile"
    && ValueOk(p.apiVersion) && ValueOk(p.name) && ValueOk(p.topology) && TextOk(p.description)
    && forall i :: 0 <= i < |p.members| ==> MemberOk(p.members[i])
  }

  lemma TextFixed(v: string)
    ensures TextBack(v) == v <==> TextOk(v)
  {
    if OneLine(v) {
      CleanFixed(v);
    } else {
      BlockFixed(v);
    }
  }

  lemma SheetFixed(s: StatSheet)
    ensures SheetBack(s) == s <==> SheetOk(s)
  {
    CleanFixed(s.modelTier);
    CleanFixed(s.contextBudget);
    CleanFixed(s.disciplineWeight);
    CleanFixed(s.velocityExpect);
    CleanFixed(s.tokenBudgetUSD);
  }

  lemma {:induction false} MemberFixed(m: MemberSpec)
    ensures Backfill(MemberBack(m)) == m <==> MemberOk(m)
  {
    CleanFixed(m.name);
    CleanFixed(m.agent);
    CleanFixed(m.role);
    CleanFixed(m.cwd);
    TextFixed(m.prompt);
    TextFixed(m.briefOverride);
    SheetFixed(m.statSheet);
  }

  lemma {:induction false} MembersFixed(ms: seq<MemberSpec>)
    ensures MembersBack(ms) == ms <==> forall i :: 0 <= i < |ms| ==> MemberOk(ms[i])
  {
    forall i | 0 <= i < |ms| ensures MembersBack(ms)[i] == ms[i] <==> MemberOk(ms[i]) {
      MemberFixed(ms[i]);
    }
  }

  lemma {:induction false} BackFixed(p: TeamProfile)
    ensures Back(p) == p <==>
      && ValueOk(p.apiVersion) && ValueOk(p.kind) && ValueOk(p.name) && TextOk(p.description)
      && ValueOk(p.topology) && forall i :: 0 <= i < |p.members| ==> MemberOk(p.members[i])
  {
    CleanFixed(p.apiVersion);
    CleanFixed(p.kind);
    CleanFixed(p.name);
    CleanFixed(p.topology);
    TextFixed(p.description);
    MembersFixed(p.members);
  }

  lemma {:induction false} FaithfulMeansFixed(p: TeamProfile)
    ensures Faithful(p) <==>
      Clean(p.apiVersion) != "" && Clean(p.kind) == "TeamProfile" && Back(p) == p
  {
    BackFixed(p);
    CleanFixed(p.kind);
    CleanFixed(p.apiVersion);
    assert "TeamProfile"[0] == 'T' && "TeamProfile"[10] == 'e';
    assert ValueOk("TeamProfile");
    if Back(p) == p {
      assert Clean(p.apiVersion) == p.apiVersion && Clean(p.kind) == p.kind;
    }
  }

  /** The law of the parser, exactly: a profile laid out as documented parses back to
      itself if and only if it is faithful. */
  lemma {:induction false} RoundTripExact(p: TeamProfile)
    requires Printable(p)
    ensures ParseSpec(Print(p)) == Ok(p) <==> Faithful(p)
  {
    RoundTrip(p);
    FaithfulMeansFixed(p);
  }

  /** Where the code departs from its layout: a prompt block that is the end of the text is
      never closed, so it keeps its line ends, whatever the profile and the block. */
  lemma {:induction false} PromptBlockAtEndOfText(p: TeamProfile, m: MemberSpec, v: string)
    requires Printable(p) && PrintableMember(m) && !OneLine(v)
    requires Clean(p.apiVersion) != "" && Clean(p.kind) == "TeamProfile"
    ensures var r := ParseSpec(Join(Lines(p) + FirstLines(m) + TextLines(4, "prompt", v)));
      && r.Ok? && |r.value.members| == |p.members| + 1
      && r.value.members[|p.members|].prompt == Unindented(SplitLines(v))
      && r.value.members[|p.members|].prompt != TextBack(v)
  {
    LinesComeBack(p);
    BlockKeys();
    FieldTextRuns(p, m, "prompt", v);
    OpenPromptAfter(Run(Start, Lines(p)), m, v);
    NotTextBack(v);
  }

  /** A block as it stands is never what it comes back as once closed. */
  lemma NotTextBack(v: string)
    requires !OneLine(v)
    ensures Unindented(SplitLines(v)) != TextBack(v)
  {
    UnindentedText(SplitLines(v));
    TrimSpaceFacts(Unindented(SplitLines(v)));
  }

  lemma BlockKeys()
    ensures IsKey("prompt") && IsKey("brief_override")
  {
  }

  /** A text that ends in a field of a new member runs part by part. */
  lemma {:induction false} FieldTextRuns(p: TeamProfile, m: MemberSpec, k: string, v: string)
    requires Printable(p) && PrintableMember(m) && IsKey(k)
    ensures ParseSpec(Join(Lines(p) + FirstLines(m) + TextLines(4, k, v)))
      == Finish(Run(Run(Run(Start, Lines(p)), FirstLines(m)), TextLines(4, k, v)))
  {
    LinesAreLines(p);
    FirstLinesOneLine(m);
    TextLinesOneLine(4, k, v);
    ThreePartsRun(Lines(p), FirstLines(m), TextLines(4, k, v));
  }

  /** Parsing a text of three parts is running one part after the other. */
  lemma {:induction false} ThreePartsRun(a: seq<string>, b: seq<string>, c: seq<string>)
    requires AllOneLine(a) && AllOneLine(b) && AllOneLine(c) && a != []
    ensures ParseSpec(Join(a + b + c)) == Finish(Run(Run(Run(Start, a), b), c))
  {
    OneLineConcat(a, b);
    OneLineConcat(a + b, c);
    SplitJoin(a + b + c);
    RunAppend(Start, a, b);
    RunAppend(Start, a + b, c);
  }

  lemma {:induction false} OpenPromptAfter(st: Parser, m: MemberSpec, v: string)
    requires Quiet(st) && st.inMembers && !OneLine(v)
    ensures var t := Run(Run(st, FirstLines(m)), TextLines(4, "prompt", v));
      t.p == Flush(st).p && t.cur.Some? && t.cur.value.prompt == Unindented(SplitLines(v))
  {
    FirstFieldsComeBack(st, m);
    PromptOpen(Run(st, FirstLines(m)), Flush(st).p,
               EmptyMember.(name := Clean(m.name), agent := Clean(m.agent), role := Clean(m.role),
                            useDefaultPrompt := m.useDefaultPrompt, cwd := Clean(m.cwd)), v);
  }

  lemma {:induction false} PromptOpen(st: Parser, p: TeamProfile, m: MemberSpec, v: string)
    requires At(st, p, m) && !OneLine(v) && m.prompt == ""
    ensures var t := Run(st, TextLines(4, "prompt", v));
      t.p == p && t.cur == Some(m.(prompt := Unindented(SplitLines(v))))
  {
    StepField(st, "prompt", "|");
    CleanMarker();
    SetPrompt(Settle(st).(inStatSheet := false), "|", 4);
    RunCons(st, KVLine(4, "prompt", "|"), BlockLines(6, SplitLines(v)));
    RunBlock(Step(st, KVLine(4, "prompt", "|")), 6, SplitLines(v));
    assert "" + Unindented(SplitLines(v)) == Unindented(SplitLines(v));
  }
}
