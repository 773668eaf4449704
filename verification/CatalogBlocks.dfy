/**
 Where a `|` block of a TeamProfile text ends (internal/catalog/catalog.go): for every state of
 the parser with an open description or folded block, and every rest of the text, whether the
 block is ever trimmed and what its field holds.
 */
module CatalogBlocks {
  import opened Common
  import opened Catalog
  import opened CatalogLayout

  /** A line that is not blank and is indented no deeper than the key of the block. */
  predicate Outdented(line: string, indent: nat)
  {
    TrimSpace(TrimBlanks(line)) != "" && Indent(line) <= indent
  }

  predicate SomeOutdented(rest: seq<string>, indent: nat)
  {
    exists k :: 0 <= k < |rest| && Outdented(rest[k], indent)
  }

  /** How many lines of the rest belong to the block: all those before the first outdented. */
  function BlockLength(rest: seq<string>, indent: nat): (n: nat)
    ensures n <= |rest|
    ensures AllInside(rest[..n], indent)
    ensures n < |rest| ==> Outdented(rest[n], indent)
    ensures n < |rest| <==> SomeOutdented(rest, indent)
  {
    if rest == [] || Outdented(rest[0], indent) then 0
    else
      var n := BlockLength(rest[1..], indent);
      assert rest[..1 + n] == [rest[0]] + rest[1..][..n];
      1 + n
  }

  /** The field the open block is adding to: the description, else the folded member field. */
  function Field(st: Parser): (v: string)
    requires Safe(st) && (st.inDescription || st.inBriefOverride)
  {
    if st.inDescription then st.p.description
    else if st.foldedKey.PromptKey? then st.cur.value.prompt
    else st.cur.value.briefOverride
  }

  /** The state with more text in that field. */
  function Appended(st: Parser, text: string): (r: Parser)
    requires Safe(st) && (st.inDescription || st.inBriefOverride)
    ensures Safe(r) && r.inDescription == st.inDescription && r.inBriefOverride == st.inBriefOverride
    ensures r.foldedKey == st.foldedKey && Field(r) == Field(st) + text
  {
    if st.inDescription then AppendDescription(st, text) else AppendFolded(st, text)
  }

  lemma InsideBlock(st: Parser, line: string)
    requires Safe(st) && (st.inDescription || st.inBriefOverride) && !Outdented(line, st.descIndent)
    ensures Step(st, line) == Appended(st, TrimBlanks(line) + "\n")
  {
    assert st.p.description + TrimBlanks(line) + "\n" == st.p.description + (TrimBlanks(line) + "\n");
  }

  predicate AllInside(ls: seq<string>, indent: nat)
  {
    forall k :: 0 <= k < |ls| ==> !Outdented(ls[k], indent)
  }

  /** Lines of the block only add to its field. */
  lemma {:induction false} BlockRuns(st: Parser, ls: seq<string>)
    requires Safe(st) && (st.inDescription || st.inBriefOverride) && AllInside(ls, st.descIndent)
    ensures Run(st, ls) == Appended(st, Unindented(ls))
    decreases |ls|
  {
    if ls == [] {
      AppendedTwice(st, "", "");
    } else {
      var head, last := ls[..|ls| - 1], ls[|ls| - 1];
      InsideParts(ls, st.descIndent);
      BlockRuns(st, head);
      OneMoreLine(st, Unindented(head), last);
      RunAppend(st, head, [last]);
    }
  }

  lemma InsideParts(ls: seq<string>, indent: nat)
    requires ls != [] && AllInside(ls, indent)
    ensures var head, last := ls[..|ls| - 1], ls[|ls| - 1];
      AllInside(head, indent) && !Outdented(last, indent) && ls == head + [last]
      && Unindented(ls) == Unindented(head) + (TrimBlanks(last) + "\n")
  {
    assert ls == ls[..|ls| - 1] + [ls[|ls| - 1]];
  }

  lemma {:induction false} OneMoreLine(st: Parser, text: string, last: string)
    requires Safe(st) && (st.inDescription || st.inBriefOverride) && !Outdented(last, st.descIndent)
    ensures Run(Appended(st, text), [last]) == Appended(st, text + (TrimBlanks(last) + "\n"))
  {
    RunOne(Appended(st, text), last);
    InsideBlock(Appended(st, text), last);
    AppendedTwice(st, text, TrimBlanks(last) + "\n");
  }

  lemma AppendedTwice(st: Parser, a: string, b: string)
    requires Safe(st) && (st.inDescription || st.inBriefOverride)
    ensures Appended(Appended(st, a), b) == Appended(st, a + b)
    ensures Appended(st, "") == st
  {
    if st.inDescription {
      AppendDescriptionTwice(st, a, b);
    } else {
      AppendFoldedTwice(st, a, b);
    }
  }

  /** What the field of the block that is open in `st` holds in a later state. */
  function FieldIn(st: Parser, later: Parser): (v: string)
    requires Safe(st) && (st.inDescription || st.inBriefOverride)
    requires !st.inDescription ==> later.cur.Some?
  {
    if st.inDescription then later.p.description
    else if st.foldedKey.PromptKey? then later.cur.value.prompt
    else later.cur.value.briefOverride
  }

  /** The end of the block: closed by the first outdented line, or left open at the end. */
  function BlockEnd(st: Parser, rest: seq<string>): (r: Parser)
    requires Safe(st) && (st.inDescription || st.inBriefOverride)
    ensures Safe(r) && (!st.inDescription ==> r.cur.Some?)
    ensures SomeOutdented(rest, st.descIndent) ==> !r.inDescription && !r.inBriefOverride
  {
    var n := BlockLength(rest, st.descIndent);
    var end := Appended(st, Unindented(rest[..n]));
    if n < |rest| then Settle(end) else end
  }

  /** Closing trims the field of the block, and nothing else does. */
  lemma SettleTrims(st: Parser)
    requires Safe(st) && (st.inDescription || st.inBriefOverride)
    ensures !st.inDescription ==> Settle(st).cur.Some?
    ensures FieldIn(st, Settle(st)) == TrimSpace(Field(st))
  {
  }

  lemma {:induction false} OutdentedCloses(st: Parser, line: string)
    requires Safe(st) && (st.inDescription || st.inBriefOverride) && Outdented(line, st.descIndent)
    ensures Step(st, line) == PlainLine(Settle(st), Indent(line), TrimBlanks(line))
  {
  }

  /** Where the text goes on after a block. */
  lemma {:induction false} AfterBlock(st: Parser, rest: seq<string>)
    requires Safe(st) && (st.inDescription || st.inBriefOverride)
    ensures var n, end := BlockLength(rest, st.descIndent), BlockEnd(st, rest);
      Run(st, rest) ==
        if n == |rest| then end else Run(PlainLine(end, Indent(rest[n]), TrimBlanks(rest[n])), rest[n + 1..])
  {
    var n := BlockLength(rest, st.descIndent);
    BlockRuns(st, rest[..n]);
    if n == |rest| {
      assert rest[..n] == rest;
    } else {
      RunAround(st, rest, n);
      ClosesAt(st, rest, n);
    }
  }

  lemma {:induction false} ClosesAt(st: Parser, rest: seq<string>, n: nat)
    requires Safe(st) && (st.inDescription || st.inBriefOverride)
    requires n == BlockLength(rest, st.descIndent) < |rest|
    requires Run(st, rest[..n]) == Appended(st, Unindented(rest[..n]))
    ensures Step(Run(st, rest[..n]), rest[n]) == PlainLine(BlockEnd(st, rest), Indent(rest[n]), TrimBlanks(rest[n]))
  {
    OutdentedCloses(Appended(st, Unindented(rest[..n])), rest[n]);
  }

  lemma RunAround(st: Parser, lines: seq<string>, n: nat)
    requires Safe(st) && n < |lines|
    ensures Run(st, lines) == Run(Step(Run(st, lines[..n]), lines[n]), lines[n + 1..])
  {
    assert lines == lines[..n] + ([lines[n]] + lines[n + 1..]);
    RunAppend(st, lines[..n], [lines[n]] + lines[n + 1..]);
    RunCons(Run(st, lines[..n]), lines[n], lines[n + 1..]);
  }

  /** When a block is trimmed, for every state with an open block and every rest of the text:
      if and only if some line of the rest is not blank and no deeper than the key of the
      block. If there is one, the block is the lines before the first. If there is none, the
      field is what it held with every line of the rest added, which is not trimmed text as
      soon as the rest is not empty. */
  lemma {:induction false} TrimmedExactly(st: Parser, rest: seq<string>)
    requires Safe(st) && (st.inDescription || st.inBriefOverride)
    ensures var text := Field(st) + Unindented(rest[..BlockLength(rest, st.descIndent)]);
      var field := FieldIn(st, BlockEnd(st, rest));
      && field == (if SomeOutdented(rest, st.descIndent) then TrimSpace(text) else Field(st) + Unindented(rest))
      && (rest != [] ==> (field == TrimSpace(text) <==> SomeOutdented(rest, st.descIndent)))
      && (rest != [] ==> (Trimmed(field) <==> SomeOutdented(rest, st.descIndent)))
  {
    var n := BlockLength(rest, st.descIndent);
    var open := Appended(st, Unindented(rest[..n]));
    if n < |rest| {
      SettleTrims(open);
      TrimSpaceFacts(Field(open));
    } else {
      assert rest[..n] == rest;
      if rest != [] {
        EndsInNewline(Field(st), rest);
      }
    }
  }

  /** Text that ends in a line end is not trimmed. */
  lemma EndsInNewline(held: string, ls: seq<string>)
    requires ls != []
    ensures held + Unindented(ls) != TrimSpace(held + Unindented(ls))
    ensures !Trimmed(held + Unindented(ls))
  {
    var text := held + Unindented(ls);
    assert text[|text| - 1] == '\n';
    TrimSpaceFacts(text);
  }

  // ---------------------------------------------------------------- at the end of a text

  /** Any text, cut after any of its lines inside a block: when no later line is outdented, the
      parsed profile has the block untrimmed. An open description is the profile's; an open
      folded block is the last member's, and an open brief is backfilled, untrimmed, into an
      empty prompt. */
  lemma {:induction false} BlockAtEndOfText(text: string, k: nat)
    requires k <= |SplitLines(text)|
    requires var st := Run(Start, SplitLines(text)[..k]); st.inDescription || st.inBriefOverride
    requires !SomeOutdented(SplitLines(text)[k..], Run(Start, SplitLines(text)[..k]).descIndent)
    requires ParseSpec(text).Ok?
    ensures var st, rest := Run(Start, SplitLines(text)[..k]), SplitLines(text)[k..];
      var p, v := ParseSpec(text).value, Field(st) + Unindented(rest);
      if st.inDescription then p.description == v
      else
        && p.members != []
        && var m := p.members[|p.members| - 1];
           if st.foldedKey.PromptKey? then v != "" ==> m.prompt == v
           else m.briefOverride == v && (st.cur.value.prompt == "" ==> m.prompt == v)
  {
    var lines := SplitLines(text);
    var st, rest := Run(Start, lines[..k]), lines[k..];
    assert lines == lines[..k] + rest;
    RunAppend(Start, lines[..k], rest);
    AfterBlock(st, rest);
    assert rest[..|rest|] == rest;
  }

  /** A text that ends in its description block: the description keeps its line ends. */
  lemma {:induction false} DescriptionAtEndOfText(version: string, kind: string, v: string)
    requires OneLine(version) && OneLine(kind) && Clean(version) != "" && Clean(kind) == "TeamProfile" && !OneLine(v)
    ensures var r := ParseSpec(Join([KVLine(0, "apiVersion", version)] + [KVLine(0, "kind", kind)]
                                    + TextLines(0, "description", v)));
      r.Ok? && r.value.description == Unindented(SplitLines(v)) && r.value.description != TextBack(v)
  {
    var a, b, c := [KVLine(0, "apiVersion", version)], [KVLine(0, "kind", kind)], TextLines(0, "description", v);
    KVLineOneLine(0, "apiVersion", version);
    KVLineOneLine(0, "kind", kind);
    TextLinesOneLine(0, "description", v);
    ThreePartsRun(a, b, c);
    var p := Start.p.(apiVersion := Clean(version));
    VersionComesBack(Start, Start.p, version);
    KindComesBack(Run(Start, a), p, kind);
    DescriptionOpen(Run(Run(Start, a), b), p.(kind := Clean(kind)), v);
    NotTextBack(v);
  }

  lemma {:induction false} DescriptionOpen(st: Parser, p: TeamProfile, v: string)
    requires AtTop(st, p) && !OneLine(v) && p.description == ""
    ensures var t := Run(st, TextLines(0, "description", v));
      t.cur.None? && t.p == p.(description := Unindented(SplitLines(v)))
  {
    var top := Flush(Settle(st)).(inMembers := false);
    StepTop(st, "description", "|");
    CleanMarker();
    TopDescription(top, "|");
    RunCons(st, KVLine(0, "description", "|"), BlockLines(2, SplitLines(v)));
    RunDescription(top.(inDescription := true, descIndent := 0), 2, SplitLines(v));
    assert "" + Unindented(SplitLines(v)) == Unindented(SplitLines(v));
  }

  /** A text that ends in the brief block of a member without a prompt: the brief keeps its line
      ends, and so does the prompt it is backfilled into. */
  lemma {:induction false} BriefAtEndOfText(p: TeamProfile, m: MemberSpec, v: string)
    requires Printable(p) && PrintableMember(m) && !OneLine(v)
    requires Clean(p.apiVersion) != "" && Clean(p.kind) == "TeamProfile"
    ensures var r := ParseSpec(Join(Lines(p) + FirstLines(m) + TextLines(4, "brief_override", v)));
      && r.Ok? && |r.value.members| == |p.members| + 1
      && var last := r.value.members[|p.members|];
         && last.briefOverride == last.prompt == Unindented(SplitLines(v))
         && last.briefOverride != TextBack(v)
  {
    LinesComeBack(p);
    BlockKeys();
    FieldTextRuns(p, m, "brief_override", v);
    OpenBriefAfter(Run(Start, Lines(p)), m, v);
    NotTextBack(v);
  }

  lemma {:induction false} OpenBriefAfter(st: Parser, m: MemberSpec, v: string)
    requires Quiet(st) && st.inMembers && !OneLine(v)
    ensures var t := Run(Run(st, FirstLines(m)), TextLines(4, "brief_override", v));
      t.p == Flush(st).p && t.cur.Some? && t.cur.value.prompt == ""
      && t.cur.value.briefOverride == Unindented(SplitLines(v))
  {
    FirstFieldsComeBack(st, m);
    BriefOpen(Run(st, FirstLines(m)), Flush(st).p,
              EmptyMember.(name := Clean(m.name), agent := Clean(m.agent), role := Clean(m.role),
                           useDefaultPrompt := m.useDefaultPrompt, cwd := Clean(m.cwd)), v);
  }

  lemma {:induction false} BriefOpen(st: Parser, p: TeamProfile, m: MemberSpec, v: string)
    requires At(st, p, m) && !OneLine(v) && m.briefOverride == ""
    ensures var t := Run(st, TextLines(4, "brief_override", v));
      t.p == p && t.cur == Some(m.(briefOverride := Unindented(SplitLines(v))))
  {
    StepField(st, "brief_override", "|");
    CleanMarker();
    SetBrief(Settle(st).(inStatSheet := false), "|", 4);
    RunCons(st, KVLine(4, "brief_override", "|"), BlockLines(6, SplitLines(v)));
    RunBlock(Step(st, KVLine(4, "brief_override", "|")), 6, SplitLines(v));
    assert "" + Unindented(SplitLines(v)) == Unindented(SplitLines(v));
  }
}
