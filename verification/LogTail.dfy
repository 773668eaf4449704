/** Reading the last lines of a log backwards in chunks (internal/log/tail.go). */
module LogTail {
  import opened Common

  type Bytes = seq<bv8>

  const NL: bv8 := 0x0A

  // ---------------------------------------------------------------- lines of a whole file

  function FirstNewline(b: Bytes): (i: nat)
    ensures i <= |b| && (i < |b| ==> b[i] == NL)
    ensures forall k :: 0 <= k < i ==> b[k] != NL
  {
    if b == [] || b[0] == NL then 0 else 1 + FirstNewline(b[1..])
  }

  /** A line, unless it is blank. */
  function NonBlank(line: Bytes): (r: seq<Bytes>)
  {
    if line == [] then [] else [line]
  }

  /** The non-blank lines of `b` when `line` is what the first one has so far. */
  function LinesFrom(line: Bytes, b: Bytes): (r: seq<Bytes>)
    decreases |b|
  {
    if b == [] then NonBlank(line)
    else if b[0] == NL then NonBlank(line) + LinesFrom([], b[1..])
    else LinesFrom(line + [b[0]], b[1..])
  }

  /** The non-blank lines, in file order. */
  function Lines(b: Bytes): (r: seq<Bytes>)
  {
    LinesFrom([], b)
  }

  function Newlines(b: Bytes): (r: nat)
  {
    if b == [] then 0 else (if b[0] == NL then 1 else 0) + Newlines(b[1..])
  }

  predicate AllNewlines(b: Bytes)
  {
    forall k :: 0 <= k < |b| ==> b[k] == NL
  }

  /** No newline comes first or right after another one. */
  predicate NoBlankLines(b: Bytes)
  {
    forall k :: 0 <= k < |b| && b[k] == NL ==> k > 0 && b[k - 1] != NL
  }

  // ---------------------------------------------------------------- the code

  /** Where the backward reading stops: at the first chunk boundary from the end after which
      there are more than `n` newlines, or at the start of the file. */
  function StopFrom(file: Bytes, n: nat, chunk: nat, pos: nat): (stop: nat)
    requires pos <= |file| && chunk > 0
    ensures stop <= pos && (stop == 0 || Newlines(file[stop..]) > n)
    decreases pos
  {
    if pos == 0 || Newlines(file[pos..]) > n then pos
    else StopFrom(file, n, chunk, if pos < chunk then 0 else pos - chunk)
  }

  method CountLines(b: Bytes) returns (c: nat)
    ensures c == Newlines(b)
  {
    c := 0;
    for i := 0 to |b|
      invariant c + Newlines(b[i..]) == Newlines(b)
    {
      assert b[i..][1..] == b[i + 1..];
      if b[i] == NL {
        c := c + 1;
      }
    }
  }

  /** The scanning loop. */
  method SplitLines(buf: Bytes) returns (lines: seq<Bytes>)
    ensures lines == Lines(buf)
  {
    lines := [];
    var start := 0;
    for i := 0 to |buf|
      invariant 0 <= start <= i
      invariant lines + LinesFrom(buf[start..i], buf[i..]) == Lines(buf)
    {
      assert buf[i..][1..] == buf[i + 1..];
      if buf[i] == NL {
        if i > start {
          lines := lines + [buf[start..i]];
        }
        start := i + 1;
        assert buf[start..i + 1] == [];
      } else {
        assert buf[start..i + 1] == buf[start..i] + [buf[i]];
      }
    }
    assert buf[|buf|..] == [] && buf[start..|buf|] == buf[start..];
    if start < |buf| {
      lines := lines + [buf[start..]];
    }
  }

  /** A chunk in front of what was read so far. */
  lemma ReadBack(file: Bytes, from: nat, to: nat)
    requires from <= to <= |file|
    ensures file[from..to] + file[to..] == file[from..]
  {
  }

  /** The backward loop. `chunk` is 8192 in the code. */
  method ReadChunks(file: Bytes, n: nat, chunk: nat) returns (buf: Bytes)
    requires chunk > 0
    ensures buf == file[StopFrom(file, n, chunk, |file|)..]
  {
    buf := [];
    var pos := |file|;
    var newlines := CountLines(buf);
    while pos > 0 && newlines <= n
      invariant 0 <= pos <= |file| && buf == file[pos..] && newlines == Newlines(buf)
      invariant StopFrom(file, n, chunk, pos) == StopFrom(file, n, chunk, |file|)
      decreases pos
    {
      var read := chunk;
      if pos < read {
        read := pos;
      }
      ReadBack(file, pos - read, pos);
      pos := pos - read;
      buf := file[pos..pos + read] + buf;
      newlines := CountLines(buf);
      if pos == 0 {
        break;
      }
    }
  }

  method ReadLastLines(file: Bytes, n: nat, chunk: nat) returns (lines: seq<Bytes>)
    requires chunk > 0
    ensures lines == LastN(Lines(file[StopFrom(file, n, chunk, |file|)..]), n)
  {
    var size := |file|;
    if size == 0 {
      assert file == [] && StopFrom(file, n, chunk, 0) == 0 && Lines(file) == [];
      return [];
    }
    var buf := ReadChunks(file, n, chunk);
    lines := SplitLines(buf);
    if |lines| > n {
      lines := lines[|lines| - n..];
    }
  }

  // ---------------------------------------------------------------- chunked against naive

  /** Without a newline there is one line. */
  lemma {:induction false} OneLine(line: Bytes, b: Bytes)
    requires forall k :: 0 <= k < |b| ==> b[k] != NL
    ensures LinesFrom(line, b) == NonBlank(line + b)
    decreases |b|
  {
    if b == [] {
      assert line + b == line;
    } else {
      OneLine(line + [b[0]], b[1..]);
      assert line + [b[0]] + b[1..] == line + b;
    }
  }

  /** Lines on either side of a newline do not touch. */
  lemma {:induction false} LinesAtNewline(line: Bytes, a: Bytes, b: Bytes)
    ensures LinesFrom(line, a + [NL] + b) == LinesFrom(line, a) + Lines(b)
    decreases |a|
  {
    var all := a + [NL] + b;
    if a == [] {
      assert all[1..] == b;
    } else {
      assert all[1..] == a[1..] + [NL] + b;
      LinesAtNewline(if a[0] == NL then [] else line + [a[0]], a[1..], b);
    }
  }

  lemma {:induction false} NoLines(line: Bytes, b: Bytes)
    ensures LinesFrom(line, b) == [] <==> line == [] && AllNewlines(b)
    decreases |b|
  {
    if b != [] {
      NoLines(if b[0] == NL then [] else line + [b[0]], b[1..]);
      assert AllNewlines(b) <==> b[0] == NL && AllNewlines(b[1..]) by {
        assert forall k :: 0 < k < |b| ==> b[k] == b[1..][k - 1];
      }
    }
  }

  lemma NoBlankBehind(b: Bytes, i: nat)
    requires NoBlankLines(b) && i < |b| && b[i] == NL
    ensures NoBlankLines(b[i + 1..])
  {
    var rest := b[i + 1..];
    forall k | 0 <= k < |rest| && rest[k] == NL
      ensures k > 0 && rest[k - 1] != NL
    {
      assert b[k + i + 1] == NL;
    }
  }

  /** The line that place `k` of `b` is in is not empty there. */
  predicate TextBefore(line: Bytes, b: Bytes, k: int)
    requires 0 <= k <= |b|
  {
    if k == 0 then line != [] else b[k - 1] != NL
  }

  /** With no blank lines, every newline ends a line. */
  lemma {:induction false} LinesPerNewline(line: Bytes, b: Bytes)
    requires forall k :: 0 <= k < |b| && b[k] == NL ==> TextBefore(line, b, k)
    ensures |LinesFrom(line, b)| >= Newlines(b)
    decreases |b|
  {
    if b != [] {
      var line' := if b[0] == NL then [] else line + [b[0]];
      forall k | 0 <= k < |b| - 1 && b[1..][k] == NL
        ensures TextBefore(line', b[1..], k)
      {
        assert b[k + 1] == NL && TextBefore(line, b, k + 1);
      }
      assert b[0] == NL ==> TextBefore(line, b, 0);
      LinesPerNewline(line', b[1..]);
    }
  }

  lemma {:induction false} NewlinesFrom(b: Bytes, i: nat)
    requires i <= |b| && forall k :: 0 <= k < i ==> b[k] != NL
    ensures Newlines(b) == Newlines(b[i..])
    decreases i
  {
    if i > 0 {
      NewlinesFrom(b[1..], i - 1);
      assert b[1..][i - 1..] == b[i..];
    } else {
      assert b[0..] == b;
    }
  }

  /** The line a chunk boundary may cut: everything up to the first newline after it. */
  function CutLine(file: Bytes, stop: nat): (r: Bytes)
    requires stop <= |file|
  {
    file[stop..][..FirstNewline(file[stop..])]
  }

  /** What comes after that newline. */
  function Behind(file: Bytes, stop: nat): (r: Bytes)
    requires stop <= |file| && FirstNewline(file[stop..]) < |file| - stop
  {
    file[stop..][FirstNewline(file[stop..]) + 1..]
  }

  /** When the chunked reading agrees with the naive one, given where it stopped: it read
      everything, or enough lines lie behind the first newline, or there are no earlier lines,
      or exactly one line is missing and the boundary is right at its start. */
  predicate Agrees(file: Bytes, n: nat, stop: nat)
    requires stop <= |file| && (stop == 0 || Newlines(file[stop..]) > n)
  {
    stop == 0 ||
    (HasNewline(file[stop..]);
     var behind := |Lines(Behind(file, stop))|;
     || behind >= n
     || AllNewlines(file[..stop])
     || (behind == n - 1 && CutLine(file, stop) != [] && file[stop - 1] == NL))
  }

  lemma {:induction false} HasNewline(b: Bytes)
    ensures Newlines(b) > 0 ==> FirstNewline(b) < |b|
  {
    if FirstNewline(b) == |b| {
      NewlinesFrom(b, |b|);
    }
  }

  lemma LastNAppend<T>(a: seq<T>, b: seq<T>, n: nat)
    ensures LastN(a + b, n) == if |b| >= n then LastN(b, n) else LastN(a, n - |b|) + b
  {
  }

  lemma AppendSame<T>(a: seq<T>, b: seq<T>, c: seq<T>)
    ensures a + c == b + c <==> a == b
  {
    assert (a + c)[..|a + c| - |c|] == a && (b + c)[..|b + c| - |c|] == b;
  }

  /** The last lines of the text before the first newline behind the boundary, against the cut
      line alone. */
  lemma {:induction false} CutLineAgrees(prefix: Bytes, cut: Bytes, k: nat)
    requires prefix != [] && k > 0 && forall i :: 0 <= i < |cut| ==> cut[i] != NL
    ensures LastN(Lines(prefix + cut), k) == LastN(Lines(cut), k)
      <==> AllNewlines(prefix) || (k == 1 && cut != [] && prefix[|prefix| - 1] == NL)
  {
    OneLine([], cut);
    assert [] + cut == cut;
    NoLines([], prefix);
    if prefix[|prefix| - 1] == NL {
      var init := prefix[..|prefix| - 1];
      assert prefix + cut == init + [NL] + cut && prefix == init + [NL] + [];
      LinesAtNewline([], init, cut);
      LinesAtNewline([], init, []);
      LastNAppend(Lines(init), Lines(cut), k);
    } else {
      LastLineEndsIn([], prefix, cut);
    }
  }

  /** The last line of a text that goes on over `cut` is longer than `cut`. */
  lemma {:induction false} LastLineEndsIn(line: Bytes, prefix: Bytes, cut: Bytes)
    requires prefix != [] && prefix[|prefix| - 1] != NL && forall i :: 0 <= i < |cut| ==> cut[i] != NL
    ensures var lines := LinesFrom(line, prefix + cut);
      lines != [] && |lines[|lines| - 1]| > |cut|
    decreases |prefix|
  {
    var line' := if prefix[0] == NL then [] else line + [prefix[0]];
    assert (prefix + cut)[1..] == prefix[1..] + cut;
    if |prefix| == 1 {
      assert prefix[1..] + cut == cut;
      OneLine(line', cut);
    } else {
      LastLineEndsIn(line', prefix[1..], cut);
    }
  }

  /** The last lines with and without the text before a boundary that cuts a line. */
  lemma {:induction false} TailsAgree(prefix: Bytes, cut: Bytes, behind: Bytes, n: nat)
    requires prefix != [] && forall i :: 0 <= i < |cut| ==> cut[i] != NL
    ensures LastN(Lines(cut + [NL] + behind), n) == LastN(Lines(prefix + cut + [NL] + behind), n)
      <==>
      || |Lines(behind)| >= n
      || AllNewlines(prefix)
      || (|Lines(behind)| == n - 1 && cut != [] && prefix[|prefix| - 1] == NL)
  {
    LinesAtNewline([], cut, behind);
    LinesAtNewline([], prefix + cut, behind);
    LastNAppend(Lines(cut), Lines(behind), n);
    LastNAppend(Lines(prefix + cut), Lines(behind), n);
    if |Lines(behind)| < n {
      var k := n - |Lines(behind)|;
      AppendSame(LastN(Lines(prefix + cut), k), LastN(Lines(cut), k), Lines(behind));
      CutLineAgrees(prefix, cut, k);
    }
  }

  /** A boundary takes the file apart. */
  lemma AtBoundary(file: Bytes, stop: nat)
    requires stop <= |file| && FirstNewline(file[stop..]) < |file| - stop
    ensures file[stop..] == CutLine(file, stop) + [NL] + Behind(file, stop)
    ensures file == file[..stop] + CutLine(file, stop) + [NL] + Behind(file, stop)
  {
    var buf, i := file[stop..], FirstNewline(file[stop..]);
    assert buf == buf[..i] + [buf[i]] + buf[i + 1..];
    assert file == file[..stop] + buf;
  }

  /** The chunked reading returns the last `n` non-blank lines of the whole file if and only if
      `Agrees` holds where it stopped. */
  lemma {:induction false} ChunkedEqualsNaive(file: Bytes, n: nat, chunk: nat)
    requires chunk > 0
    ensures var stop := StopFrom(file, n, chunk, |file|);
      LastN(Lines(file[stop..]), n) == LastN(Lines(file), n) <==> Agrees(file, n, stop)
  {
    var stop := StopFrom(file, n, chunk, |file|);
    if stop == 0 {
      assert file[0..] == file;
    } else {
      HasNewline(file[stop..]);
      BoundaryAgrees(file, n, stop);
    }
  }

  lemma {:induction false} BoundaryAgrees(file: Bytes, n: nat, stop: nat)
    requires 0 < stop <= |file| && FirstNewline(file[stop..]) < |file| - stop
    ensures LastN(Lines(file[stop..]), n) == LastN(Lines(file), n)
      <==>
      || |Lines(Behind(file, stop))| >= n
      || AllNewlines(file[..stop])
      || (|Lines(Behind(file, stop))| == n - 1 && CutLine(file, stop) != [] && file[stop - 1] == NL)
  {
    var prefix, cut, behind := file[..stop], CutLine(file, stop), Behind(file, stop);
    AtBoundary(file, stop);
    assert prefix[|prefix| - 1] == file[stop - 1];
    TailsAgree(prefix, cut, behind, n);
  }

  /** On a file without blank lines the two always agree, for any `n` and any chunk size. */
  lemma {:induction false} AgreesWithoutBlankLines(file: Bytes, n: nat, chunk: nat)
    requires chunk > 0 && NoBlankLines(file)
    ensures var stop := StopFrom(file, n, chunk, |file|);
      Agrees(file, n, stop) && LastN(Lines(file[stop..]), n) == LastN(Lines(file), n)
  {
    var stop := StopFrom(file, n, chunk, |file|);
    if stop > 0 {
      var buf := file[stop..];
      HasNewline(buf);
      var i := FirstNewline(buf);
      var behind := Behind(file, stop);
      NewlinesFrom(buf, i);
      assert buf[i..][1..] == behind && behind == file[stop + i + 1..];
      NoBlankBehind(file, stop + i);
      LinesPerNewline([], behind);
    }
    ChunkedEqualsNaive(file, n, chunk);
  }

  function Blanks(n: nat): (b: Bytes)
    ensures |b| == n && AllNewlines(b)
  {
    seq(n, _ => NL)
  }

  lemma {:induction false} BlanksAreNewlines(b: Bytes)
    requires AllNewlines(b)
    ensures Newlines(b) == |b| && Lines(b) == []
  {
    NoLines([], b);
    if b != [] {
      BlanksAreNewlines(b[1..]);
    }
  }

  /** A line and then as many blank lines as fit a chunk: asked for one line, the reading stops
      behind the line and returns none. */
  lemma {:induction false} BlankLinesWitness(x: bv8, chunk: nat)
    requires x != NL && chunk > 1
    ensures var file := [x] + [NL] + Blanks(chunk);
      var stop := StopFrom(file, 1, chunk, |file|);
      stop == 2 && LastN(Lines(file[stop..]), 1) == [] && LastN(Lines(file), 1) == [[x]]
  {
    var file := [x] + [NL] + Blanks(chunk);
    assert file[|file|..] == [] && file[2..] == Blanks(chunk);
    BlanksAreNewlines(Blanks(chunk));
    LinesAtNewline([], [x], Blanks(chunk));
    OneLine([], [x]);
    assert [] + [x] == [x];
  }
}
