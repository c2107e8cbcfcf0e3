/**
  Structure-aware Markdown chunking (app/corpus/chunking.py): a line parser that never splits a
  fenced code block, and a packer that fills windows of whole blocks.  Lines come classified, so
  the regular expressions are not part of the model.
 */
module PythonText {

  /** The characters that str.strip and str.split take for white space. */
  predicate IsSpace(c: char) {
    || '\t' <= c <= '\r' || '\U{1C}' <= c <= ' ' || c == '\U{85}' || c == '\U{A0}' || c == '\U{1680}'
    || '\U{2000}' <= c <= '\U{200A}' || c == '\U{2028}' || c == '\U{2029}' || c == '\U{202F}' || c == '\U{205F}' || c == '\U{3000}'
  }
}

module MarkdownBlocks {

  datatype LineKind =
    | FenceLine(ch: char, run: nat, bare: bool)
    | HeadingLine(level: nat, title: string)
    | BlankLine
    | TextLine

  datatype Line = Line(text: string, kind: LineKind)

  datatype Block =
    | Code(lines: seq<Line>)
    | Heading(level: nat, title: string)
    | Para(lines: seq<Line>)

  /** A closing fence: same character, at least as long, nothing after it. */
  predicate Closes(line: Line, ch: char, run: nat) {
    line.kind.FenceLine? && line.kind.ch == ch && line.kind.run >= run && line.kind.bare
  }

  function FindClose(lines: seq<Line>, i: nat, ch: char, run: nat): (j: nat)
    requires i <= |lines|
    ensures i <= j <= |lines|
    ensures forall k :: i <= k < j ==> !Closes(lines[k], ch, run)
    ensures j < |lines| ==> Closes(lines[j], ch, run)
    decreases |lines| - i
  {
    if i == |lines| || Closes(lines[i], ch, run) then i else FindClose(lines, i + 1, ch, run)
  }

  function ParaEnd(lines: seq<Line>, i: nat): (j: nat)
    requires i <= |lines|
    ensures i <= j <= |lines|
    ensures forall k :: i <= k < j ==> lines[k].kind.TextLine?
    ensures j < |lines| ==> !lines[j].kind.TextLine?
    decreases |lines| - i
  {
    if i == |lines| || !lines[i].kind.TextLine? then i else ParaEnd(lines, i + 1)
  }

  /** How many lines the construct at the head of `lines` takes. */
  function HeadLength(lines: seq<Line>): (n: nat)
    requires lines != []
    ensures 1 <= n <= |lines|
  {
    match lines[0].kind
    case FenceLine(ch, run, _) =>
      var j := FindClose(lines, 1, ch, run);
      if j < |lines| then j + 1 else j
    case HeadingLine(_, _) => 1
    case BlankLine => 1
    case TextLine => ParaEnd(lines, 1)
  }

  function HeadBlocks(lines: seq<Line>): seq<Block>
    requires lines != []
  {
    match lines[0].kind
    case FenceLine(_, _, _) => [Code(lines[..HeadLength(lines)])]
    case HeadingLine(level, title) => [Heading(level, title)]
    case BlankLine => []
    case TextLine => [Para(lines[..HeadLength(lines)])]
  }

  /** Reference parser. */
  function Parse(lines: seq<Line>): seq<Block> {
    if lines == [] then [] else HeadBlocks(lines) + Parse(lines[HeadLength(lines)..])
  }

  ghost predicate Progress(goal: seq<Block>, blocks: seq<Block>, lines: seq<Line>, i: nat) {
    i <= |lines| && blocks + Parse(lines[i..]) == goal
  }

  lemma ProgressEnds(lines: seq<Line>) returns (goal: seq<Block>)
    ensures goal == Parse(lines) && Progress(goal, [], lines, 0)
    ensures forall blocks :: Progress(goal, blocks, lines, |lines|) ==> blocks == goal
  {
    goal := Parse(lines);
    assert lines[0..] == lines && lines[|lines|..] == [];
    assert [] + goal == goal;
    forall blocks | Progress(goal, blocks, lines, |lines|)
      ensures blocks == goal
    {
      assert blocks + [] == blocks;
    }
  }

  lemma ParseStep(goal: seq<Block>, blocks: seq<Block>, lines: seq<Line>, i: nat)
    requires i < |lines| && Progress(goal, blocks, lines, i)
    ensures Progress(goal, blocks + HeadBlocks(lines[i..]), lines, i + HeadLength(lines[i..]))
  {
    var next := i + HeadLength(lines[i..]);
    assert lines[i..][next - i..] == lines[next..];
    Assoc(blocks, HeadBlocks(lines[i..]), Parse(lines[next..]));
  }

  lemma Assoc<T>(a: seq<T>, b: seq<T>, c: seq<T>)
    ensures a + (b + c) == a + b + c
  {
  }

  /** The inner loop of a fenced block: up to and including the closing fence, or to the end. */
  method ReadFence(lines: seq<Line>, start: nat) returns (buf: seq<Line>, i: nat)
    requires start < |lines| && lines[start].kind.FenceLine?
    ensures start < i <= |lines| && i - start == HeadLength(lines[start..])
    ensures buf == lines[start..i]
  {
    var n, fence := |lines|, lines[start].kind;
    buf, i := [lines[start]], start + 1;
    while i < n && !Closes(lines[i], fence.ch, fence.run)
      invariant start + 1 <= i <= n && buf == lines[start..i]
      invariant forall k :: start + 1 <= k < i ==> !Closes(lines[k], fence.ch, fence.run)
    {
      buf := buf + [lines[i]];
      i := i + 1;
    }
    FindCloseIs(lines[start..], 1, i - start, fence.ch, fence.run);
    if i < n {
      buf := buf + [lines[i]];
      i := i + 1;
    }
  }

  /** The inner loop of a paragraph: up to a blank line, a heading or a fence. */
  method ReadParagraph(lines: seq<Line>, start: nat) returns (buf: seq<Line>, i: nat)
    requires start < |lines| && lines[start].kind.TextLine?
    ensures start < i <= |lines| && i - start == HeadLength(lines[start..])
    ensures buf == lines[start..i]
  {
    buf, i := [lines[start]], start + 1;
    while i < |lines| && lines[i].kind.TextLine?
      invariant start + 1 <= i <= |lines| && buf == lines[start..i]
      invariant forall k :: start + 1 <= k < i ==> lines[k].kind.TextLine?
    {
      buf := buf + [lines[i]];
      i := i + 1;
    }
    ParaEndIs(lines[start..], 1, i - start);
  }

  /** One iteration of the generator: what it yields at line i, and where it goes on. */
  method ReadBlock(lines: seq<Line>, i: nat) returns (added: seq<Block>, next: nat)
    requires i < |lines|
    ensures next <= |lines| && next == i + HeadLength(lines[i..])
    ensures added == HeadBlocks(lines[i..])
  {
    var line := lines[i];
    added, next := [], i + 1;
    if line.kind.FenceLine? {
      var buf;
      buf, next := ReadFence(lines, i);
      added := [Code(buf)];
    } else if line.kind.HeadingLine? {
      added := [Heading(line.kind.level, line.kind.title)];
    } else if !line.kind.BlankLine? {
      var buf;
      buf, next := ReadParagraph(lines, i);
      added := [Para(buf)];
    }
    assert lines[i..][..next - i] == lines[i..next];
  }

  /** The index-advancing generator yields exactly the blocks of the reference parser. */
  method IterBlocks(lines: seq<Line>) returns (blocks: seq<Block>)
    ensures blocks == Parse(lines)
  {
    blocks := [];
    var i := 0;
    ghost var goal := ProgressEnds(lines);
    while i < |lines|
      invariant Progress(goal, blocks, lines, i)
    {
      var added, next := ReadBlock(lines, i);
      ParseStep(goal, blocks, lines, i);
      blocks, i := blocks + added, next;
    }
  }

  /** Shape of a block in a document: only the last code block may lack its closing fence. */
  predicate WfBlock(b: Block, last: bool) {
    match b
    case Heading(_, _) => true
    case Para(lines) => lines != [] && forall k :: 0 <= k < |lines| ==> lines[k].kind.TextLine?
    case Code(lines) =>
      && lines != [] && lines[0].kind.FenceLine?
      && var n, f := |lines|, lines[0].kind;
         && (forall k :: 1 <= k < n - 1 ==> !Closes(lines[k], f.ch, f.run))
         && (last || (n >= 2 && Closes(lines[n - 1], f.ch, f.run)))
  }

  predicate Wf(blocks: seq<Block>) {
    forall i :: 0 <= i < |blocks| ==> WfBlock(blocks[i], i == |blocks| - 1)
  }

  lemma {:induction false} ParseIsWf(lines: seq<Line>)
    ensures Wf(Parse(lines))
  {
    if lines != [] {
      var n := HeadLength(lines);
      ParseIsWf(lines[n..]);
      var rest := Parse(lines[n..]);
      if HeadBlocks(lines) != [] {
        if rest != [] {
          assert n < |lines|;
        }
        assert WfBlock(HeadBlocks(lines)[0], rest == []);
        var all := HeadBlocks(lines) + rest;
        forall i | 0 <= i < |all|
          ensures WfBlock(all[i], i == |all| - 1)
        {
          if i > 0 {
            assert all[i] == rest[i - 1];
          }
        }
      } else {
        assert Parse(lines) == rest;
      }
    }
  }

  lemma WfSlice(blocks: seq<Block>, i: nat, j: nat)
    requires Wf(blocks) && i <= j <= |blocks|
    ensures Wf(blocks[i..j])
  {
  }

  const EMPTY_LINE := Line("", BlankLine)

  function Hashes(n: nat): string {
    if n == 0 then "" else "#" + Hashes(n - 1)
  }

  /** The lines a block contributes to a chunk's text. */
  function Render(b: Block): (lines: seq<Line>) {
    match b
    case Code(lines) => lines
    case Para(lines) => lines
    case Heading(level, title) => [Line(Hashes(level) + " " + title, HeadingLine(level, title))]
  }

  /** Blocks joined by one blank line, as the chunk text is. */
  function RenderAll(blocks: seq<Block>): seq<Line> {
    if blocks == [] then []
    else if |blocks| == 1 then Render(blocks[0])
    else Render(blocks[0]) + [EMPTY_LINE] + RenderAll(blocks[1..])
  }

  lemma {:induction false} HeadOfRendered(b: Block, tail: seq<Line>)
    requires WfBlock(b, tail == [])
    requires tail != [] ==> tail[0] == EMPTY_LINE
    ensures var lines := Render(b) + tail;
            lines != [] && HeadBlocks(lines) == [b] && lines[HeadLength(lines)..] == tail
  {
    var lines := Render(b) + tail;
    match b
    case Heading(_, _) =>
    case Para(ls) =>
      ParaEndIs(lines, 1, |ls|);
      assert lines[..|ls|] == ls;
    case Code(ls) =>
      var f, n := ls[0].kind, |ls|;
      var closed := n >= 2 && Closes(ls[n - 1], f.ch, f.run);
      FindCloseIs(lines, 1, if closed then n - 1 else n, f.ch, f.run);
      assert lines[..n] == ls;
  }

  lemma ParaEndIs(lines: seq<Line>, i: nat, j: nat)
    requires i <= j <= |lines|
    requires forall k :: i <= k < j ==> lines[k].kind.TextLine?
    requires j < |lines| ==> !lines[j].kind.TextLine?
    ensures ParaEnd(lines, i) == j
  {
  }

  lemma FindCloseIs(lines: seq<Line>, i: nat, j: nat, ch: char, run: nat)
    requires i <= j <= |lines|
    requires forall k :: i <= k < j ==> !Closes(lines[k], ch, run)
    requires j < |lines| ==> Closes(lines[j], ch, run)
    ensures FindClose(lines, i, ch, run) == j
  {
  }

  /** Parsing the text of well-formed blocks gives the same blocks back. */
  lemma {:induction false} ParseRender(blocks: seq<Block>)
    requires Wf(blocks)
    ensures Parse(RenderAll(blocks)) == blocks
  {
    if blocks != [] {
      var b, rest := blocks[0], blocks[1..];
      var tail := if rest == [] then [] else [EMPTY_LINE] + RenderAll(rest);
      assert RenderAll(blocks) == Render(b) + tail;
      HeadOfRendered(b, tail);
      WfSlice(blocks, 1, |blocks|);
      ParseRender(rest);
      SkipBlank(RenderAll(rest));
      hide Render;
      hide RenderAll;
      hide HeadBlocks;
      hide HeadLength;
      assert blocks == [b] + rest;
    }
  }

  lemma SkipBlank(lines: seq<Line>)
    ensures Parse([EMPTY_LINE] + lines) == Parse(lines) && RenderAll([]) == []
  {
    assert ([EMPTY_LINE] + lines)[1..] == lines;
    assert [] + Parse(lines) == Parse(lines);
  }

  /** What a non-blank line says, ignoring how a heading was spaced. */
  function Ink(lines: seq<Line>): seq<Line> {
    if lines == [] then []
    else
      var rest := Ink(lines[1..]);
      if lines[0].kind.BlankLine? then rest
      else if lines[0].kind.HeadingLine? then [Line("", lines[0].kind)] + rest
      else [lines[0]] + rest
  }

  lemma {:induction false} InkAppend(a: seq<Line>, b: seq<Line>)
    ensures Ink(a + b) == Ink(a) + Ink(b)
  {
    if a == [] {
      assert a + b == b;
    } else {
      InkAppend(a[1..], b);
      assert (a + b)[1..] == a[1..] + b;
      var first := if a[0].kind.HeadingLine? then Line("", a[0].kind) else a[0];
      Assoc([first], Ink(a[1..]), Ink(b));
    }
  }

  /** The parser neither loses, repeats nor reorders a non-blank line. */
  lemma {:induction false} ParseKeepsInk(lines: seq<Line>)
    ensures Ink(RenderAll(Parse(lines))) == Ink(lines)
  {
    if lines != [] {
      var n := HeadLength(lines);
      var head, rest := HeadBlocks(lines), Parse(lines[n..]);
      ParseKeepsInk(lines[n..]);
      assert lines == lines[..n] + lines[n..];
      InkAppend(lines[..n], lines[n..]);
      if head == [] {
        assert Parse(lines) == rest;
        assert lines[..n] == [lines[0]] && lines[..n][1..] == [];
      } else {
        InkOfBlock(lines);
        InkOfRendered(head[0], rest);
        assert head == [head[0]];
      }
    }
  }

  lemma {:induction false} InkOfRendered(b: Block, rest: seq<Block>)
    ensures Ink(RenderAll([b] + rest)) == Ink(Render(b)) + Ink(RenderAll(rest))
  {
    assert ([b] + rest)[1..] == rest;
    if rest == [] {
      assert Ink(Render(b)) + [] == Ink(Render(b));
    } else {
      InkAppend(Render(b) + [EMPTY_LINE], RenderAll(rest));
      InkAppend(Render(b), [EMPTY_LINE]);
      assert [EMPTY_LINE][1..] == [];
      assert Ink([EMPTY_LINE]) == [];
    }
  }

  lemma {:induction false} InkOfBlock(lines: seq<Line>)
    requires lines != [] && HeadBlocks(lines) != []
    ensures Ink(Render(HeadBlocks(lines)[0])) == Ink(lines[..HeadLength(lines)])
  {
    if lines[0].kind.HeadingLine? {
      assert lines[..1] == [lines[0]] && lines[..1][1..] == [];
      var r := Render(HeadBlocks(lines)[0]);
      assert r[1..] == [];
    }
  }
}

module ChunkPacking {
  import opened MarkdownBlocks
  import opened PythonText

  /** Number of whitespace-separated words; `inside` says whether a word is already open. */
  function WordCount(s: string, inside: bool): nat {
    if s == "" then 0
    else if IsSpace(s[0]) then WordCount(s[1..], false)
    else (if inside then 0 else 1) + WordCount(s[1..], true)
  }

  predicate Word(w: string) { w != "" && forall i :: 0 <= i < |w| ==> !IsSpace(w[i]) }

  predicate Blank(s: string) { forall i :: 0 <= i < |s| ==> IsSpace(s[i]) }

  /** Words, each with the blanks that follow it. */
  function Spaced(words: seq<string>, blanks: seq<string>): string
    requires |words| == |blanks|
  {
    if words == [] then "" else words[0] + (blanks[0] + Spaced(words[1..], blanks[1..]))
  }

  lemma {:induction false} InsideWord(w: string, rest: string)
    requires (forall i :: 0 <= i < |w| ==> !IsSpace(w[i])) && (rest == "" || IsSpace(rest[0]))
    ensures WordCount(w + rest, true) == WordCount(rest, false)
  {
    hide IsSpace;
    if w == "" {
      assert w + rest == rest;
    } else {
      assert (w + rest)[1..] == w[1..] + rest;
      InsideWord(w[1..], rest);
    }
  }

  lemma {:induction false} BlanksCountNothing(s: string, rest: string)
    requires Blank(s)
    ensures WordCount(s + rest, false) == WordCount(rest, false)
  {
    hide IsSpace;
    if s == "" {
      assert s + rest == rest;
    } else {
      assert (s + rest)[1..] == s[1..] + rest;
      BlanksCountNothing(s[1..], rest);
    }
  }

  /** The tokens of a text are its words, whatever blanks stand before and between them. */
  lemma {:induction false} TokensAreWords(lead: string, words: seq<string>, blanks: seq<string>)
    requires |words| == |blanks| && Blank(lead)
    requires forall i :: 0 <= i < |words| ==> Word(words[i]) && Blank(blanks[i]) && (i < |words| - 1 ==> blanks[i] != "")
    ensures WordCount(lead + Spaced(words, blanks), false) == |words|
    decreases |words|
  {
    hide IsSpace;
    BlanksCountNothing(lead, Spaced(words, blanks));
    if words != [] {
      var w, b, rest := words[0], blanks[0], Spaced(words[1..], blanks[1..]);
      TokensAreWords(b, words[1..], blanks[1..]);
      assert (w + (b + rest))[1..] == w[1..] + (b + rest);
      if |words| == 1 {
        assert rest == "";
      }
      InsideWord(w[1..], b + rest);
    }
  }

  function LineTokens(lines: seq<Line>): nat {
    if lines == [] then 0 else WordCount(lines[0].text, false) + LineTokens(lines[1..])
  }

  function BlockTokens(b: Block): nat {
    match b
    case Heading(_, title) => WordCount(title, false)
    case Code(lines) => LineTokens(lines)
    case Para(lines) => LineTokens(lines)
  }

  function Tokens(blocks: seq<Block>): nat {
    if blocks == [] then 0 else BlockTokens(blocks[0]) + Tokens(blocks[1..])
  }

  lemma {:induction false} TokensAppend(blocks: seq<Block>, b: Block)
    ensures Tokens(blocks + [b]) == Tokens(blocks) + BlockTokens(b)
  {
    if blocks == [] {
      assert blocks + [b] == [b] && [b][1..] == [];
    } else {
      TokensAppend(blocks[1..], b);
      assert (blocks + [b])[1..] == blocks[1..] + [b];
    }
  }

  /** How many headings a run of blocks starts with. */
  function Lead(blocks: seq<Block>): (n: nat)
    ensures n <= |blocks|
  {
    if blocks != [] && blocks[0].Heading? then 1 + Lead(blocks[1..]) else 0
  }

  lemma {:induction false} LeadAppend(blocks: seq<Block>, b: Block)
    ensures Lead(blocks + [b]) ==
            if Lead(blocks) == |blocks| && b.Heading? then |blocks| + 1 else Lead(blocks)
  {
    if blocks == [] {
      assert blocks + [b] == [b];
    } else {
      LeadAppend(blocks[1..], b);
      assert (blocks + [b])[1..] == blocks[1..] + [b];
    }
  }

  datatype Crumb = Crumb(level: nat, title: string)

  /** Some later heading is at this level or above it, so the section has ended. */
  predicate EndsSection(blocks: seq<Block>, level: nat) {
    exists i :: 0 <= i < |blocks| && blocks[i].Heading? && blocks[i].level <= level
  }

  /** Breadcrumb of a document prefix: its headings whose section is still open at the end. */
  function OpenSections(blocks: seq<Block>): (crumbs: seq<Crumb>) {
    if blocks == [] then []
    else
      var rest := OpenSections(blocks[1..]);
      if blocks[0].Heading? && !EndsSection(blocks[1..], blocks[0].level)
      then [Crumb(blocks[0].level, blocks[0].title)] + rest
      else rest
  }

  function Titles(crumbs: seq<Crumb>): seq<string> {
    seq(|crumbs|, i requires 0 <= i < |crumbs| => crumbs[i].title)
  }

  /** The stack discipline of the packer: pop everything at or below the new level. */
  function PopTo(crumbs: seq<Crumb>, level: nat): seq<Crumb> {
    if crumbs != [] && crumbs[|crumbs| - 1].level >= level then PopTo(crumbs[..|crumbs| - 1], level) else crumbs
  }

  predicate Increasing(crumbs: seq<Crumb>) {
    forall i, j :: 0 <= i < j < |crumbs| ==> crumbs[i].level < crumbs[j].level
  }

  lemma {:induction false} OpenAbove(blocks: seq<Block>, level: nat)
    requires !EndsSection(blocks, level)
    ensures forall i :: 0 <= i < |OpenSections(blocks)| ==> OpenSections(blocks)[i].level > level
  {
    if blocks != [] {
      assert forall i :: 0 <= i < |blocks| - 1 ==> blocks[1..][i] == blocks[i + 1];
      OpenAbove(blocks[1..], level);
    }
  }

  lemma {:induction false} OpenIncreasing(blocks: seq<Block>)
    ensures Increasing(OpenSections(blocks))
  {
    if blocks != [] {
      OpenIncreasing(blocks[1..]);
      if blocks[0].Heading? && !EndsSection(blocks[1..], blocks[0].level) {
        OpenAbove(blocks[1..], blocks[0].level);
      }
    }
  }

  lemma {:induction false} PopBelowFirst(c: Crumb, crumbs: seq<Crumb>, level: nat)
    requires Increasing([c] + crumbs)
    ensures PopTo([c] + crumbs, level) == if c.level >= level then [] else [c] + PopTo(crumbs, level)
  {
    var all := [c] + crumbs;
    if crumbs == [] {
      assert all == [c] && [c][..0] == [];
    } else {
      var n := |crumbs| - 1;
      assert all[..n + 1] == [c] + crumbs[..n];
      assert all[0] == c && all[n + 1] == crumbs[n];
      if crumbs[n].level >= level {
        PopBelowFirst(c, crumbs[..n], level);
      }
    }
  }

  /** The heading stack is the breadcrumb of the blocks read so far. */
  lemma {:induction false} OpenAppend(blocks: seq<Block>, b: Block)
    ensures OpenSections(blocks + [b]) ==
            if b.Heading? then PopTo(OpenSections(blocks), b.level) + [Crumb(b.level, b.title)]
            else OpenSections(blocks)
  {
    if blocks == [] {
      assert blocks + [b] == [b] && [b][1..] == [];
      assert OpenSections([]) == [] && forall level :: PopTo([], level) == [];
    } else {
      var first, tail := blocks[0], blocks[1..];
      OpenAppend(tail, b);
      assert (blocks + [b])[0] == first && (blocks + [b])[1..] == tail + [b];
      if first.Heading? {
        EndsAppend(tail, b, first.level);
        if b.Heading? && !EndsSection(tail, first.level) {
          OpenIncreasing(blocks);
          PopBelowFirst(Crumb(first.level, first.title), OpenSections(tail), b.level);
          if first.level >= b.level {
            OpenAbove(tail, first.level);
            PopAll(OpenSections(tail), b.level);
          }
        }
      }
    }
  }

  lemma EndsAppend(blocks: seq<Block>, b: Block, level: nat)
    ensures EndsSection(blocks + [b], level) <==> EndsSection(blocks, level) || (b.Heading? && b.level <= level)
  {
    assert forall i :: 0 <= i < |blocks| ==> (blocks + [b])[i] == blocks[i];
    assert (blocks + [b])[|blocks|] == b;
  }

  lemma {:induction false} PopAll(crumbs: seq<Crumb>, level: nat)
    requires forall i :: 0 <= i < |crumbs| ==> crumbs[i].level >= level
    ensures PopTo(crumbs, level) == []
  {
    if crumbs != [] {
      PopAll(crumbs[..|crumbs| - 1], level);
    }
  }

  method PopSections(stack: seq<Crumb>, level: nat) returns (rest: seq<Crumb>)
    ensures rest == PopTo(stack, level)
  {
    rest := stack;
    while rest != [] && rest[|rest| - 1].level >= level
      invariant PopTo(rest, level) == PopTo(stack, level)
    {
      rest := rest[..|rest| - 1];
    }
  }

  datatype Chunk = Chunk(blocks: seq<Block>, path: seq<string>)

  function Flatten(chunks: seq<Chunk>): seq<Block> {
    if chunks == [] then [] else Flatten(chunks[..|chunks| - 1]) + chunks[|chunks| - 1].blocks
  }

  function Offset(chunks: seq<Chunk>, k: nat): nat
    requires k <= |chunks|
  {
    |Flatten(chunks[..k])|
  }

  predicate OversizedCode(b: Block, max: int) { b.Code? && BlockTokens(b) > max }

  predicate HasOversized(blocks: seq<Block>, max: int) {
    exists i :: 0 <= i < |blocks| && OversizedCode(blocks[i], max)
  }

  /**
    Size law, for every input: a chunk of two or more blocks exceeds max only by a final heading
    that was added while the chunk was below target; an oversized code block stands alone.
   */
  predicate SizeOk(blocks: seq<Block>, target: int, max: int) {
    |blocks| >= 2 ==>
      && !HasOversized(blocks, max)
      && (|| Tokens(blocks) <= max
          || (blocks[|blocks| - 1].Heading? && Tokens(blocks[..|blocks| - 1]) < target))
  }

  /** Block j could join: what stands before it is below the target, or j is a text right under a heading; and a text fits. */
  predicate JoinsAt(blocks: seq<Block>, j: nat, target: int, max: int)
    requires 1 <= j < |blocks|
  {
    && (blocks[j].Heading? || !blocks[j - 1].Heading? ==> Tokens(blocks[..j]) < target)
    && (!blocks[j].Heading? ==> Tokens(blocks[..j + 1]) <= max)
  }

  /** Every block but the first could join those before it. */
  predicate JoinOk(blocks: seq<Block>, target: int, max: int) { forall j :: 1 <= j < |blocks| ==> JoinsAt(blocks, j, target, max) }

  /** The last block, if it is no heading, left the chunk below its target. */
  predicate MayGrow(blocks: seq<Block>, target: int) {
    blocks != [] && !blocks[|blocks| - 1].Heading? ==> Tokens(blocks) < target
  }

  lemma JoinGrows(blocks: seq<Block>, b: Block, target: int, max: int)
    requires JoinOk(blocks, target, max)
    requires blocks == [] ||
             (if b.Heading? then Tokens(blocks) < target else MayGrow(blocks, target) && Tokens(blocks) + BlockTokens(b) <= max)
    ensures JoinOk(blocks + [b], target, max)
  {
    hide Tokens;
    hide BlockTokens;
    var more := blocks + [b];
    TokensAppend(blocks, b);
    forall j | 1 <= j < |more| ensures JoinsAt(more, j, target, max) {
      assert more[j - 1] == blocks[j - 1];
      if j < |blocks| {
        assert JoinsAt(blocks, j, target, max);
        assert more[j] == blocks[j] && more[..j] == blocks[..j] && more[..j + 1] == blocks[..j + 1];
      } else {
        assert more[j] == b && more[..j] == blocks && more[..j + 1] == more;
      }
    }
  }

  /**
    Why a chunk was closed before block b: it had reached its target, and neither b nor what it ends with is a text
    under a heading; or it is an oversized code block; or b is a text that does not fit.
   */
  predicate SplitOk(blocks: seq<Block>, b: Block, target: int, max: int)
    requires blocks != []
  {
    || (Tokens(blocks) >= target && (b.Heading? || !blocks[|blocks| - 1].Heading?))
    || (|blocks| == 1 && OversizedCode(blocks[0], max))
    || (!b.Heading? && Tokens(blocks) + BlockTokens(b) > max)
  }

  /** Chunk c is the slice of the document at off, of legal size, with the right breadcrumb. */
  ghost predicate ChunkAt(all: seq<Block>, off: nat, c: Chunk, target: int, max: int) {
    var end := off + |c.blocks|;
    && c.blocks != [] && end <= |all| && c.blocks == all[off..end]
    && SizeOk(c.blocks, target, max) && JoinOk(c.blocks, target, max)
    && c.path == Titles(OpenSections(all[..off + Lead(c.blocks)]))
    && (end < |all| ==> SplitOk(c.blocks, all[end], target, max))
  }

  ghost predicate ChunksOk(all: seq<Block>, chunks: seq<Chunk>, target: int, max: int) {
    forall k :: 0 <= k < |chunks| ==> ChunkAt(all, Offset(chunks, k), chunks[k], target, max)
  }

  /** The loop-carried variables of the packer. */
  datatype Packer = Packer(stack: seq<Crumb>, chunks: seq<Chunk>, cur: seq<Block>, tokens: int,
                           path: seq<string>, hasBody: bool)

  ghost predicate Inv(all: seq<Block>, i: nat, p: Packer, target: int, max: int) {
    CurInv(all, i, p) && SizeOk(p.cur, target, max) && JoinOk(p.cur, target, max) && ChunksOk(all, p.chunks, target, max)
  }

  /** The open chunk is the tail of what was read, and its counters describe it. */
  ghost predicate CurInv(all: seq<Block>, i: nat, p: Packer) {
    && i <= |all| && Flatten(p.chunks) + p.cur == all[..i]
    && p.tokens == Tokens(p.cur)
    && p.hasBody == (Lead(p.cur) < |p.cur|)
    && p.stack == OpenSections(all[..i])
    && (p.cur != [] ==> p.path == Titles(OpenSections(all[..i - |p.cur| + Lead(p.cur)])))
  }

  function Flush(p: Packer): Packer {
    p.(chunks := if p.cur == [] then p.chunks else p.chunks + [Chunk(p.cur, p.path)],
       cur := [], tokens := 0, hasBody := false)
  }

  lemma EmptyFacts()
    ensures Tokens([]) == 0 && Lead([]) == 0 && OpenSections([]) == [] && Flatten([]) == []
    ensures forall all, target, max :: ChunksOk(all, [], target, max)
    ensures forall target, max :: SizeOk([], target, max)
    ensures forall max :: !HasOversized([], max)
    ensures forall target, max :: JoinOk([], target, max)
    ensures forall target :: MayGrow([], target)
  {
  }

  lemma {:induction false} FlushKeeps(all: seq<Block>, i: nat, p: Packer, target: int, max: int)
    requires Inv(all, i, p, target, max)
    requires i < |all| && p.cur != [] ==> SplitOk(p.cur, all[i], target, max)
    ensures Inv(all, i, Flush(p), target, max)
  {
    EmptyFacts();
    hide Tokens;
    hide Lead;
    hide OpenSections;
    hide PopTo;
    hide Flatten;
    if p.cur != [] {
      var c, off := Chunk(p.cur, p.path), |Flatten(p.chunks)|;
      assert all[..i][off..] == p.cur && all[..i][off..] == all[off..i];
      assert ChunkAt(all, off, c, target, max);
      AppendChunk(all, p.chunks, c, target, max);
      assert all[..i] + [] == all[..i];
    }
  }

  lemma {:induction false} AppendChunk(all: seq<Block>, chunks: seq<Chunk>, c: Chunk, target: int, max: int)
    requires ChunksOk(all, chunks, target, max) && ChunkAt(all, |Flatten(chunks)|, c, target, max)
    ensures ChunksOk(all, chunks + [c], target, max)
    ensures Flatten(chunks + [c]) == Flatten(chunks) + c.blocks
  {
    var more := chunks + [c];
    assert more[..|chunks|] == chunks;
    forall k | 0 <= k < |more|
      ensures ChunkAt(all, Offset(more, k), more[k], target, max)
    {
      assert more[..k] == chunks[..k];
      assert chunks[..|chunks|] == chunks;
    }
  }

  lemma {:induction false} AddHeading(all: seq<Block>, i: nat, p: Packer, target: int, max: int)
    requires CurInv(all, i, p) && !HasOversized(p.cur, max)
    requires i < |all| && all[i].Heading? && (p.cur == [] || p.tokens < target)
    ensures var h := all[i];
            var stack := PopTo(p.stack, h.level) + [Crumb(h.level, h.title)];
            CurInv(all, i + 1, p.(stack := stack, path := if p.hasBody then p.path else Titles(stack),
                                  cur := p.cur + [h], tokens := p.tokens + BlockTokens(h)))
    ensures SizeOk(p.cur + [all[i]], target, max) && !HasOversized(p.cur + [all[i]], max)
  {
    hide Tokens;
    hide Lead;
    hide OpenSections;
    hide PopTo;
    hide Flatten;
    Extend(all, i, p);
    assert (p.cur + [all[i]])[..|p.cur|] == p.cur;
  }

  lemma {:induction false} AddBody(all: seq<Block>, i: nat, p: Packer, target: int, max: int)
    requires CurInv(all, i, p) && !HasOversized(p.cur, max)
    requires i < |all| && !all[i].Heading?
    requires p.cur == [] || (!OversizedCode(all[i], max) && p.tokens + BlockTokens(all[i]) <= max)
    ensures var b := all[i];
            CurInv(all, i + 1, p.(path := if p.cur == [] then Titles(p.stack) else p.path, cur := p.cur + [b],
                                  tokens := p.tokens + BlockTokens(b), hasBody := true))
    ensures SizeOk(p.cur + [all[i]], target, max)
    ensures !OversizedCode(all[i], max) ==> !HasOversized(p.cur + [all[i]], max)
  {
    hide Tokens;
    hide Lead;
    hide OpenSections;
    hide PopTo;
    hide Flatten;
    Extend(all, i, p);
  }

  lemma {:induction false} Extend(all: seq<Block>, i: nat, p: Packer)
    requires i < |all| && Flatten(p.chunks) + p.cur == all[..i]
    ensures Flatten(p.chunks) + (p.cur + [all[i]]) == all[..i + 1]
    ensures Tokens(p.cur + [all[i]]) == Tokens(p.cur) + BlockTokens(all[i])
    ensures Lead(p.cur + [all[i]]) ==
            if Lead(p.cur) == |p.cur| && all[i].Heading? then |p.cur| + 1 else Lead(p.cur)
    ensures OpenSections(all[..i + 1]) ==
            if all[i].Heading? then PopTo(OpenSections(all[..i]), all[i].level) + [Crumb(all[i].level, all[i].title)]
            else OpenSections(all[..i])
  {
    assert all[..i + 1] == all[..i] + [all[i]];
    TokensAppend(p.cur, all[i]);
    LeadAppend(p.cur, all[i]);
    OpenAppend(all[..i], all[i]);
  }

  /** The packing loop over the blocks of a document. */
  method ChunkMarkdown(lines: seq<Line>, target: int, max: int) returns (chunks: seq<Chunk>)
    ensures Flatten(chunks) == Parse(lines)
    ensures ChunksOk(Parse(lines), chunks, target, max)
  {
    EmptyFacts();
    hide Tokens;
    hide Lead;
    hide OpenSections;
    hide PopTo;
    hide Flatten;
    hide ChunksOk;
    hide SizeOk;
    hide HasOversized;
    hide BlockTokens;
    hide Parse;
    hide Titles;
    hide JoinOk;
    var all := IterBlocks(lines);
    var p := Packer([], [], [], 0, [], false);
    var i := 0;
    while i < |all|
      invariant Inv(all, i, p, target, max) && !HasOversized(p.cur, max) && MayGrow(p.cur, target)
    {
      var b := all[i];
      var toks := BlockTokens(b);
      if b.Heading? {
        var stack := PopSections(p.stack, b.level);
        stack := stack + [Crumb(b.level, b.title)];
        if p.tokens >= target {
          FlushKeeps(all, i, p, target, max);
          p := Flush(p);
        }
        AddHeading(all, i, p, target, max);
        JoinGrows(p.cur, b, target, max);
        p := p.(stack := stack, path := if p.hasBody then p.path else Titles(stack),
                cur := p.cur + [b], tokens := p.tokens + toks);
      } else if b.Code? && toks > max {
        FlushKeeps(all, i, p, target, max);
        p := Flush(p);
        AddBody(all, i, p, target, max);
        JoinGrows(p.cur, b, target, max);
        p := p.(path := Titles(p.stack), cur := p.cur + [b], tokens := p.tokens + toks, hasBody := true);
        assert p.cur == [b];
        FlushKeeps(all, i + 1, p, target, max);
        p := Flush(p);
      } else {
        if p.cur != [] && p.tokens + toks > max {
          FlushKeeps(all, i, p, target, max);
          p := Flush(p);
        }
        AddBody(all, i, p, target, max);
        JoinGrows(p.cur, b, target, max);
        p := p.(path := if p.cur == [] then Titles(p.stack) else p.path, cur := p.cur + [b],
                tokens := p.tokens + toks, hasBody := true);
        if p.tokens >= target {
          FlushKeeps(all, i + 1, p, target, max);
          p := Flush(p);
        }
      }
      i := i + 1;
    }
    FlushKeeps(all, i, p, target, max);
    p := Flush(p);
    assert all[..i] == all && Flatten(p.chunks) + [] == Flatten(p.chunks);
    chunks := p.chunks;
  }

  // ---- the laws leave no choice -------------------------------------------------------------

  /** A chunk was not to be closed before any of its blocks. */
  lemma GoesOn(blocks: seq<Block>, n: nat, target: int, max: int)
    requires 1 <= n < |blocks| && SizeOk(blocks, target, max) && JoinOk(blocks, target, max)
    ensures !SplitOk(blocks[..n], blocks[n], target, max)
  {
    hide Tokens;
    assert JoinsAt(blocks, n, target, max);
    assert blocks[..n + 1] == blocks[..n] + [blocks[n]];
    TokensAppend(blocks[..n], blocks[n]);
    assert !OversizedCode(blocks[0], max);
  }

  /** Two chunks that begin at the same block end at the same block. */
  lemma SameEnd(all: seq<Block>, off: nat, c: Chunk, d: Chunk, target: int, max: int)
    requires ChunkAt(all, off, c, target, max) && ChunkAt(all, off, d, target, max)
    ensures c == d
  {
    hide OpenSections;
    hide Lead;
    hide SplitOk;
    hide SizeOk;
    hide JoinOk;
    var m, n := |c.blocks|, |d.blocks|;
    if m < n {
      assert d.blocks[..m] == c.blocks && d.blocks[m] == all[off + m];
      GoesOn(d.blocks, m, target, max);
    } else if n < m {
      assert c.blocks[..n] == d.blocks && c.blocks[n] == all[off + n];
      GoesOn(c.blocks, n, target, max);
    }
  }

  /** The chunking of a document is the only one that meets the laws of its chunks. */
  lemma {:induction false} ChunksUnique(all: seq<Block>, a: seq<Chunk>, b: seq<Chunk>, target: int, max: int)
    requires Flatten(a) == all && ChunksOk(all, a, target, max)
    requires Flatten(b) == all && ChunksOk(all, b, target, max)
    ensures a == b
  {
    hide ChunkAt;
    SamePrefix(all, a, b, |a|, target, max);
    assert a[..|a|] == a;
    if |b| > |a| {
      assert b[..|a|] == a;
      NothingAfter(all, b, |a|, target, max);
    }
  }

  /** Nothing is left after a prefix that holds every block. */
  lemma NothingAfter(all: seq<Block>, chunks: seq<Chunk>, n: nat, target: int, max: int)
    requires n < |chunks| && Flatten(chunks) == all && ChunksOk(all, chunks, target, max)
    ensures |Flatten(chunks[..n])| < |all|
  {
    hide OpenSections;
    hide Lead;
    hide Flatten;
    hide SizeOk;
    hide JoinOk;
    assert ChunkAt(all, Offset(chunks, n), chunks[n], target, max);
  }

  lemma {:induction false} SamePrefix(all: seq<Block>, a: seq<Chunk>, b: seq<Chunk>, n: nat, target: int, max: int)
    requires Flatten(a) == all && ChunksOk(all, a, target, max)
    requires Flatten(b) == all && ChunksOk(all, b, target, max)
    requires n <= |a|
    ensures n <= |b| && a[..n] == b[..n]
  {
    hide ChunkAt;
    hide Flatten;
    if n > 0 {
      SamePrefix(all, a, b, n - 1, target, max);
      assert |b| == n - 1 ==> b[..n - 1] == b;
      NothingAfter(all, a, n - 1, target, max);
      assert Offset(a, n - 1) == Offset(b, n - 1);
      assert ChunkAt(all, Offset(a, n - 1), a[n - 1], target, max);
      assert ChunkAt(all, Offset(b, n - 1), b[n - 1], target, max);
      SameEnd(all, Offset(a, n - 1), a[n - 1], b[n - 1], target, max);
      assert a[..n] == a[..n - 1] + [a[n - 1]] && b[..n] == b[..n - 1] + [b[n - 1]];
    }
  }

  /** Any chunk of the packer parses back to its own blocks: no fence was cut open. */
  lemma {:induction false} ChunksReparse(lines: seq<Line>, chunks: seq<Chunk>, k: nat, target: int, max: int)
    requires k < |chunks| && ChunksOk(Parse(lines), chunks, target, max)
    ensures Parse(RenderAll(chunks[k].blocks)) == chunks[k].blocks
  {
    ParseIsWf(lines);
    var off := Offset(chunks, k);
    WfSlice(Parse(lines), off, off + |chunks[k].blocks|);
    ParseRender(chunks[k].blocks);
  }

  /** With short headings a chunk exceeds max only when it is one over-long block alone. */
  lemma {:induction false} ShortHeadingsBoundChunks(blocks: seq<Block>, target: int, max: int)
    requires SizeOk(blocks, target, max)
    requires forall i :: 0 <= i < |blocks| && blocks[i].Heading? ==> BlockTokens(blocks[i]) <= max - target
    ensures Tokens(blocks) > max ==> |blocks| <= 1
  {
    if |blocks| >= 2 {
      var n := |blocks| - 1;
      assert blocks == blocks[..n] + [blocks[n]];
      TokensAppend(blocks[..n], blocks[n]);
    }
  }
}
