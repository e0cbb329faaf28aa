/** Replacing the comment heartbeats of a server-sent event stream by no-op events. */
module Heartbeats {
  import opened Text

  const BREAK := "\n"
  const BLANK_LINE := "\n\n"

  // ----- lines -----

  function Lines(s: string): seq<string> { Split(s, BREAK) }

  function Normalize(s: string): string
    decreases |s|
  {
    if s == "" then ""
    else if At(s, 0, "\r\n") then ['\n'] + Normalize(s[2..])
    else [s[0]] + Normalize(s[1..])
  }

  function StripCr(line: string): string {
    if line != "" && line[|line| - 1] == '\r' then line[..|line| - 1] else line
  }

  lemma BreakAt(s: string, i: int)
    ensures At(s, i, BREAK) <==> 0 <= i < |s| && s[i] == '\n'
  {
    if 0 <= i < |s| {
      assert s[i..i + 1] == [s[i]];
    }
  }

  lemma LinesHead(line: string, rest: string)
    requires '\n' !in line
    ensures Lines(line + BREAK + rest) == [line] + Lines(rest)
  {
    forall i | 0 <= i < |line| ensures !At(line + BREAK + rest, i, BREAK) {
      BreakAt(line + BREAK + rest, i);
    }
    SplitFirst(line, BREAK, rest);
  }

  lemma LinesSingle(line: string)
    requires '\n' !in line
    ensures Lines(line) == [line]
  {
    var i := FirstIndex(line, BREAK, 0);
    BreakAt(line, i);
  }

  /** Text is one line, or a first line, a break and the rest. */
  lemma FirstLine(s: string) returns (line: string, rest: string)
    requires '\n' in s
    ensures '\n' !in line && s == line + BREAK + rest && |rest| < |s|
  {
    var n :| 0 <= n < |s| && s[n] == '\n';
    BreakAt(s, n);
    var i := FirstIndex(s, BREAK, 0);
    BreakAt(s, i);
    line, rest := s[..i], s[i + 1..];
    forall j | 0 <= j < i ensures s[j] != '\n' {
      BreakAt(s, j);
    }
    assert s == line + BREAK + rest;
  }

  lemma {:induction false} LinesConcat(a: string, b: string)
    ensures Lines(a + BREAK + b) == Lines(a) + Lines(b)
    decreases |a|
  {
    if '\n' in a {
      var line, rest := FirstLine(a);
      LinesConcat(rest, b);
      assert a + BREAK + b == line + BREAK + (rest + BREAK + b);
      LinesHead(line, rest + BREAK + b);
      LinesHead(line, rest);
    } else {
      LinesHead(a, b);
      LinesSingle(a);
    }
  }

  lemma {:induction false} LinesHaveNoBreak(s: string)
    ensures forall l :: l in Lines(s) ==> '\n' !in l && forall c :: c in l ==> c in s
    decreases |s|
  {
    if '\n' in s {
      var line, rest := FirstLine(s);
      LinesHead(line, rest);
      LinesHaveNoBreak(rest);
    } else {
      LinesSingle(s);
    }
  }

  lemma CrLfAt(s: string)
    ensures At(s, 0, "\r\n") <==> |s| >= 2 && s[0] == '\r' && s[1] == '\n'
  {
    if |s| >= 2 {
      assert s[0..2] == [s[0], s[1]];
    }
  }

  lemma {:induction false} NormalizeHead(line: string, rest: string)
    requires '\n' !in line
    ensures Normalize(line + BREAK + rest) == StripCr(line) + BREAK + Normalize(rest)
    decreases |line|
  {
    var s := line + BREAK + rest;
    CrLfAt(s);
    if line == "" {
      assert s[1..] == rest;
    } else if line == "\r" {
      assert s[2..] == rest;
    } else {
      assert s[1..] == line[1..] + BREAK + rest;
      assert s[1] == if |line| == 1 then '\n' else line[1];
      NormalizeHead(line[1..], rest);
      StripCrTail(line);
      Regroup(line[0], StripCr(line[1..]), BREAK, Normalize(rest));
    }
  }

  lemma StripCrTail(line: string)
    requires line != "" && line != "\r"
    ensures [line[0]] + StripCr(line[1..]) == StripCr(line)
  {
  }

  lemma Regroup(c: char, x: string, y: string, z: string)
    ensures [c] + (x + y + z) == ([c] + x) + y + z
  {
  }

  lemma {:induction false} NormalizeSingle(line: string)
    requires '\n' !in line
    ensures Normalize(line) == line
    decreases |line|
  {
    if line != "" {
      CrLfAt(line);
      NormalizeSingle(line[1..]);
    }
  }

  // ----- comments -----

  predicate IsBlank(line: string) { Trim(line) == "" }

  predicate IsComment(line: string) { Trim(line) != "" && Trim(line)[0] == ':' }

  /** A comment is a colon after nothing but spaces. */
  ghost predicate ColonAfterSpaces(line: string) {
    exists i :: 0 <= i < |line| && line[i] == ':' && forall j :: 0 <= j < i ==> IsSpace(line[j])
  }

  lemma {:induction false} TrimLeftColon(line: string)
    ensures TrimLeft(line) != "" && TrimLeft(line)[0] == ':' <==> ColonAfterSpaces(line)
  {
    if line != "" && IsSpace(line[0]) {
      TrimLeftColon(line[1..]);
      if i :| 0 <= i < |line[1..]| && line[1..][i] == ':' && forall j :: 0 <= j < i ==> IsSpace(line[1..][j]) {
        assert line[i + 1] == ':';
        assert forall j :: 0 < j < i + 1 ==> line[j] == line[1..][j - 1];
      }
      if i :| 0 <= i < |line| && line[i] == ':' && forall j :: 0 <= j < i ==> IsSpace(line[j]) {
        assert line[1..][i - 1] == ':';
      }
    }
  }

  lemma CommentIsColon(line: string)
    ensures IsComment(line) <==> ColonAfterSpaces(line)
    ensures IsComment(line) ==> ':' in line
    ensures line == "" ==> IsBlank(line)
  {
    TrimHead(line);
    TrimLeftColon(line);
  }

  lemma StripCrKeepsComment(line: string)
    ensures IsComment(StripCr(line)) <==> IsComment(line)
  {
    CommentIsColon(line);
    CommentIsColon(StripCr(line));
    if i :| 0 <= i < |line| && line[i] == ':' && forall j :: 0 <= j < i ==> IsSpace(line[j]) {
      assert StripCr(line)[i] == ':';
    }
    if i :| 0 <= i < |StripCr(line)| && StripCr(line)[i] == ':' && forall j :: 0 <= j < i ==> IsSpace(StripCr(line)[j]) {
      assert line[i] == ':';
    }
  }

  predicate HasComment(lines: seq<string>) { exists l :: l in lines && IsComment(l) }

  lemma {:induction false} NormalizeKeepsComments(s: string)
    ensures HasComment(Lines(Normalize(s))) <==> HasComment(Lines(s))
    decreases |s|
  {
    if '\n' in s {
      var line, rest := FirstLine(s);
      NormalizeHead(line, rest);
      LinesHead(line, rest);
      LinesHead(StripCr(line), Normalize(rest));
      StripCrKeepsComment(line);
      NormalizeKeepsComments(rest);
      HasCommentCons(line, Lines(rest));
      HasCommentCons(StripCr(line), Lines(Normalize(rest)));
    } else {
      NormalizeSingle(s);
    }
  }

  lemma HasCommentCons(line: string, rest: seq<string>)
    ensures HasComment([line] + rest) <==> IsComment(line) || HasComment(rest)
  {
    if IsComment(line) {
      assert line in [line] + rest;
    }
    if HasComment(rest) {
      var l :| l in rest && IsComment(l);
      assert l in [line] + rest;
    }
  }

  // ----- events, as section 9.2 of the WHATWG HTML standard delimits them: an empty line ends one -----

  type Block = seq<string>

  function Dispatch(block: Block): seq<Block> { if block == [] then [] else [block] }

  function BlocksFrom(current: Block, lines: seq<string>): seq<Block>
    decreases |lines|
  {
    if lines == [] then Dispatch(current)
    else if lines[0] == "" then Dispatch(current) + BlocksFrom([], lines[1..])
    else BlocksFrom(current + [lines[0]], lines[1..])
  }

  function Blocks(s: string): seq<Block> { BlocksFrom([], Lines(s)) }

  lemma {:induction false} BlocksSeparated(current: Block, lines: seq<string>, rest: seq<string>)
    ensures BlocksFrom(current, lines + [""] + rest) == BlocksFrom(current, lines) + BlocksFrom([], rest)
    decreases |lines|
  {
    var all := lines + [""] + rest;
    if lines == [] {
      assert all[1..] == rest;
    } else {
      assert all[1..] == lines[1..] + [""] + rest;
      BlocksSeparated(if lines[0] == "" then [] else current + [lines[0]], lines[1..], rest);
    }
  }

  function NonEmpty(lines: seq<string>): seq<string> {
    if lines == [] then [] else (if lines[0] == "" then [] else [lines[0]]) + NonEmpty(lines[1..])
  }

  lemma {:induction false} OneRun(current: Block, lines: seq<string>)
    requires forall k :: 0 <= k < |lines| - 1 ==> lines[k] != ""
    ensures BlocksFrom(current, lines) == Dispatch(current + NonEmpty(lines))
    decreases |lines|
  {
    if lines == [] {
      assert current + [] == current;
    } else if lines[0] == "" {
      assert lines[1..] == [] && current + NonEmpty(lines) == current;
    } else {
      OneRun(current + [lines[0]], lines[1..]);
      assert current + [lines[0]] + NonEmpty(lines[1..]) == current + NonEmpty(lines);
    }
  }

  lemma BlankLineAt(s: string, i: int)
    requires 0 <= i && i + 1 < |s| && s[i] == '\n' && s[i + 1] == '\n'
    ensures At(s, i, BLANK_LINE)
  {
    assert s[i..i + 2] == [s[i], s[i + 1]];
  }

  lemma SuffixLacks(a: string, b: string, sub: string)
    requires !Contains(a + b, sub)
    ensures !Contains(b, sub)
  {
    forall i ensures !At(b, i, sub) {
      if At(b, i, sub) {
        AtInSuffix(a, b, i, sub);
      }
    }
  }

  lemma {:induction false} InnerLinesNonEmpty(s: string)
    requires !Contains(s, BLANK_LINE) && (s == "" || s[0] != '\n')
    ensures forall k :: 0 <= k < |Lines(s)| - 1 ==> Lines(s)[k] != ""
    decreases |s|
  {
    if '\n' in s {
      var line, rest := FirstLine(s);
      LinesHead(line, rest);
      if rest != "" && rest[0] == '\n' {
        assert s[|line|] == '\n' && s[|line| + 1] == '\n';
        BlankLineAt(s, |line|);
      }
      SuffixLacks(line + BREAK, rest, BLANK_LINE);
      InnerLinesNonEmpty(rest);
    } else {
      LinesSingle(s);
    }
  }

  /** Text without a blank line holds at most one event. */
  lemma OneEvent(s: string)
    requires !Contains(s, BLANK_LINE)
    ensures Blocks(s) == Dispatch(NonEmpty(Lines(s)))
  {
    if s != "" && s[0] == '\n' {
      assert s == "" + BREAK + s[1..];
      LinesHead("", s[1..]);
      SuffixLacks(BREAK, s[1..], BLANK_LINE);
      if |s| > 1 && s[1] == '\n' {
        BlankLineAt(s, 0);
      }
      InnerLinesNonEmpty(s[1..]);
      OneRun([], Lines(s[1..]));
      assert Lines(s)[1..] == Lines(s[1..]);
      assert [] + NonEmpty(Lines(s)) == NonEmpty(Lines(s[1..]));
    } else {
      InnerLinesNonEmpty(s);
      OneRun([], Lines(s));
      assert [] + NonEmpty(Lines(s)) == NonEmpty(Lines(s));
    }
  }

  /** The events that splitting at blank lines finds. */
  function EventBlocks(events: seq<string>): seq<Block> {
    if events == [] then [] else Dispatch(NonEmpty(Lines(events[0]))) + EventBlocks(events[1..])
  }

  lemma OneLineStep(line: string, rest: string)
    ensures (line + BLANK_LINE) + rest == line + BREAK + ("" + BREAK + rest)
  {
    assert BLANK_LINE == BREAK + BREAK;
  }

  lemma LinesAroundBlank(event: string, rest: string)
    ensures Lines(event + BLANK_LINE + rest) == Lines(event) + [""] + Lines(rest)
  {
    OneLineStep(event, rest);
    LinesConcat(event, "" + BREAK + rest);
    LinesHead("", rest);
    assert Lines(event) + ([""] + Lines(rest)) == Lines(event) + [""] + Lines(rest);
  }

  /** What comes before the first double line break holds none. */
  lemma FirstEvent(event: string, rest: string)
    requires forall i :: 0 <= i < |event| ==> !At(event + BLANK_LINE + rest, i, BLANK_LINE)
    ensures !Contains(event, BLANK_LINE)
  {
    assert event + (BLANK_LINE + rest) == event + BLANK_LINE + rest;
    forall j ensures !At(event, j, BLANK_LINE) {
      if At(event, j, BLANK_LINE) {
        AtInPrefix(event, BLANK_LINE + rest, j, BLANK_LINE);
      }
    }
  }

  lemma FirstEventBlocks(event: string, rest: string)
    requires forall i :: 0 <= i < |event| ==> !At(event + BLANK_LINE + rest, i, BLANK_LINE)
    ensures Blocks(event + BLANK_LINE + rest) == Dispatch(NonEmpty(Lines(event))) + Blocks(rest)
  {
    FirstEvent(event, rest);
    LinesAroundBlank(event, rest);
    OneEvent(event);
    BlocksSeparated([], Lines(event), Lines(rest));
  }

  lemma EventBlocksStep(event: string, events: seq<string>)
    ensures EventBlocks([event] + events) == Dispatch(NonEmpty(Lines(event))) + EventBlocks(events)
  {
    assert ([event] + events)[1..] == events;
  }

  /** Splitting at double line breaks and delimiting at empty lines find the same events. */
  lemma {:induction false} SplitFindsBlocks(s: string)
    ensures EventBlocks(Split(s, BLANK_LINE)) == Blocks(s)
    decreases |s|
  {
    var i := FirstIndex(s, BLANK_LINE, 0);
    if i < 0 {
      OneEvent(s);
      assert [s][1..] == [];
    } else {
      var event, rest := s[..i], s[i + 2..];
      CutAround(s, i, BLANK_LINE);
      SplitFirst(event, BLANK_LINE, rest);
      SplitFindsBlocks(rest);
      FirstEventBlocks(event, rest);
      EventBlocksStep(event, Split(rest, BLANK_LINE));
    }
  }

  // ----- rewriting -----

  function Kept(block: Block): Block {
    if block == [] then []
    else (if IsComment(block[0]) || IsBlank(block[0]) then [] else [block[0]]) + Kept(block[1..])
  }

  /** A block with nothing but comments becomes the no-op event; from any other the comments go. */
  function Rewrite(block: Block, noop: Block): seq<Block> {
    if Kept(block) != [] then [Kept(block)] else if HasComment(block) then [noop] else []
  }

  function RewriteAll(blocks: seq<Block>, noop: Block): seq<Block> {
    if blocks == [] then [] else Rewrite(blocks[0], noop) + RewriteAll(blocks[1..], noop)
  }

  function Join(lines: Block): string {
    if lines == [] then "" else if |lines| == 1 then lines[0] else lines[0] + BREAK + Join(lines[1..])
  }

  function PrintBlock(block: Block): string { Join(block) + BLANK_LINE }

  function Print(blocks: seq<Block>): string {
    if blocks == [] then "" else PrintBlock(blocks[0]) + Print(blocks[1..])
  }

  predicate AnyComment(blocks: seq<Block>) { exists b :: b in blocks && HasComment(b) }

  function Replaced(s: string, noop: Block): string {
    var blocks := Blocks(Normalize(s));
    if AnyComment(blocks) then Print(RewriteAll(blocks, noop)) else s
  }

  // ----- printing and reading back -----

  predicate Printable(block: Block) { block != [] && forall l :: l in block ==> l != "" && '\n' !in l }

  lemma PrintStep(a: string, b: string, c: string, d: string)
    ensures (a + BREAK + b + c) + d == a + BREAK + ((b + c) + d)
  {
  }

  lemma PrintBlockStep(block: Block, rest: string)
    requires block != []
    ensures PrintBlock(block) + rest == block[0] + BREAK +
      if |block| == 1 then "" + BREAK + rest else PrintBlock(block[1..]) + rest
  {
    if |block| == 1 {
      OneLineStep(block[0], rest);
    } else {
      PrintStep(block[0], Join(block[1..]), BLANK_LINE, rest);
    }
  }

  lemma Glue(block: seq<string>, lines: seq<string>)
    requires block != []
    ensures [block[0]] + (block[1..] + [""] + lines) == block + [""] + lines
  {
  }

  lemma LinesOfLine(line: string, rest: string)
    requires '\n' !in line
    ensures Lines(line + BREAK + ("" + BREAK + rest)) == [line] + [""] + Lines(rest)
  {
    LinesHead("", rest);
    LinesHead(line, "" + BREAK + rest);
  }

  lemma {:induction false} LinesOfBlock(block: Block, rest: string)
    requires Printable(block)
    ensures Lines(PrintBlock(block) + rest) == block + [""] + Lines(rest)
  {
    PrintBlockStep(block, rest);
    assert block[0] in block;
    if |block| == 1 {
      LinesOfLine(block[0], rest);
      assert [block[0]] == block;
    } else {
      assert Printable(block[1..]) by {
        assert forall l :: l in block[1..] ==> l in block;
      }
      LinesOfBlock(block[1..], rest);
      LinesHead(block[0], PrintBlock(block[1..]) + rest);
      Glue(block, Lines(rest));
    }
  }

  /** Reading the printed text gives back the printed events. */
  lemma {:induction false} PrintReadsBack(blocks: seq<Block>)
    requires forall b :: b in blocks ==> Printable(b)
    ensures Blocks(Print(blocks)) == blocks
    decreases |blocks|
  {
    if blocks == [] {
      LinesSingle("");
      assert [""][1..] == [];
    } else {
      PrintReadsBack(blocks[1..]);
      BlockReadsBack(blocks[0], Print(blocks[1..]));
    }
  }

  lemma BlockReadsBack(b: Block, rest: string)
    requires Printable(b)
    ensures Blocks(PrintBlock(b) + rest) == [b] + Blocks(rest)
  {
    LinesOfBlock(b, rest);
    BlocksSeparated([], b, Lines(rest));
    AllNonEmpty(b);
    assert forall k :: 0 <= k < |b| ==> b[k] in b;
    OneRun([], b);
    assert [] + b == b;
  }

  lemma {:induction false} AllNonEmpty(block: Block)
    requires forall l :: l in block ==> l != ""
    ensures NonEmpty(block) == block
  {
    if block != [] {
      assert forall l :: l in block[1..] ==> l in block;
      assert block[0] in block;
      AllNonEmpty(block[1..]);
    }
  }

  lemma {:induction false} KeptLines(block: Block)
    ensures forall l :: l in Kept(block) <==> l in block && !IsComment(l) && !IsBlank(l)
  {
    if block != [] {
      KeptLines(block[1..]);
      assert forall l :: l in block <==> l == block[0] || l in block[1..];
    }
  }

  lemma {:induction false} BlockLines(current: Block, lines: seq<string>)
    ensures forall b, l :: b in BlocksFrom(current, lines) && l in b ==> l in current || (l in lines && l != "")
    ensures forall l :: l in current || (l in lines && l != "") ==> exists b :: b in BlocksFrom(current, lines) && l in b
    decreases |lines|
  {
    if lines == [] {
      assert current != [] ==> current in Dispatch(current);
    } else if lines[0] == "" {
      BlockLines([], lines[1..]);
      assert current != [] ==> current in Dispatch(current);
      forall l | l in current || (l in lines && l != "") ensures exists b :: b in BlocksFrom(current, lines) && l in b {
        if l in current {
          assert current in BlocksFrom(current, lines);
        } else {
          assert l in lines[1..];
          var b :| b in BlocksFrom([], lines[1..]) && l in b;
          assert b in BlocksFrom(current, lines);
        }
      }
    } else {
      BlockLines(current + [lines[0]], lines[1..]);
      forall l ensures l in current + [lines[0]] || (l in lines[1..] && l != "") <==> l in current || (l in lines && l != "") {
        assert l in lines <==> l == lines[0] || l in lines[1..];
      }
    }
  }

  /** The events hold a comment exactly if the lines do. */
  lemma CommentsAreInBlocks(s: string)
    ensures AnyComment(Blocks(s)) <==> HasComment(Lines(s))
  {
    BlockLines([], Lines(s));
    CommentIsColon("");
    if HasComment(Lines(s)) {
      var l :| l in Lines(s) && IsComment(l);
      var b :| b in Blocks(s) && l in b;
      assert HasComment(b);
    }
  }

  predicate GoodNoop(noop: Block) { Printable(noop) && !HasComment(noop) }

  lemma {:induction false} RewriteIsPrintable(blocks: seq<Block>, noop: Block)
    requires GoodNoop(noop) && forall b, l :: b in blocks && l in b ==> '\n' !in l
    ensures forall b :: b in RewriteAll(blocks, noop) ==> Printable(b) && !HasComment(b)
  {
    if blocks != [] {
      KeptLines(blocks[0]);
      CommentIsColon("");
      RewriteIsPrintable(blocks[1..], noop);
    }
  }

  /** When something was replaced, reading the output gives the rewritten events in order. */
  lemma OutputReadsBack(s: string, noop: Block)
    requires GoodNoop(noop) && HasComment(Lines(s))
    ensures Blocks(Replaced(s, noop)) == RewriteAll(Blocks(Normalize(s)), noop)
    ensures !AnyComment(Blocks(Replaced(s, noop)))
  {
    var n := Normalize(s);
    NormalizeKeepsComments(s);
    CommentsAreInBlocks(n);
    BlockLines([], Lines(n));
    LinesHaveNoBreak(n);
    RewriteIsPrintable(Blocks(n), noop);
    PrintReadsBack(RewriteAll(Blocks(n), noop));
  }

  /** No comment line is left, whatever came in. */
  lemma NoCommentLeft(s: string, noop: Block)
    requires GoodNoop(noop)
    ensures !HasComment(Lines(Replaced(s, noop)))
    ensures !HasComment(Lines(s)) ==> Replaced(s, noop) == s
  {
    NormalizeKeepsComments(s);
    CommentsAreInBlocks(Normalize(s));
    if HasComment(Lines(s)) {
      OutputReadsBack(s, noop);
      CommentsAreInBlocks(Replaced(s, noop));
    }
  }

  lemma ReplacingIsIdempotent(s: string, noop: Block)
    requires GoodNoop(noop)
    ensures Replaced(Replaced(s, noop), noop) == Replaced(s, noop)
  {
    NoCommentLeft(s, noop);
    NoCommentLeft(Replaced(s, noop), noop);
  }

  // ----- what the rewritten events are -----

  datatype Mark = Payload(lines: Block) | Heartbeat

  function MarkOf(block: Block): seq<Mark> {
    if Kept(block) != [] then [Payload(Kept(block))] else if HasComment(block) then [Heartbeat] else []
  }

  /** The events that leave something, in order: the kept lines of a payload event, or a heartbeat. */
  function Marks(blocks: seq<Block>): seq<Mark> {
    if blocks == [] then []
    else MarkOf(blocks[0]) + Marks(blocks[1..])
  }

  /** The payload events alone. */
  function Payloads(blocks: seq<Block>): seq<Block> {
    if blocks == [] then []
    else (if Kept(blocks[0]) == [] then [] else [Kept(blocks[0])]) + Payloads(blocks[1..])
  }

  function PayloadsOf(marks: seq<Mark>): seq<Block> {
    if marks == [] then [] else (if marks[0].Payload? then [marks[0].lines] else []) + PayloadsOf(marks[1..])
  }

  function CommentBlocks(blocks: seq<Block>): nat {
    if blocks == [] then 0
    else (if Kept(blocks[0]) == [] && HasComment(blocks[0]) then 1 else 0) + CommentBlocks(blocks[1..])
  }

  function Shown(m: Mark, noop: Block): Block { if m.Payload? then m.lines else noop }

  lemma {:induction false} MarksHoldPayloads(blocks: seq<Block>)
    ensures PayloadsOf(Marks(blocks)) == Payloads(blocks) && |Marks(blocks)| == |Payloads(blocks)| + CommentBlocks(blocks)
  {
    if blocks != [] {
      MarksHoldPayloads(blocks[1..]);
      PayloadsOfConcat(MarkOf(blocks[0]), Marks(blocks[1..]));
    }
  }

  lemma PayloadsOfConcat(a: seq<Mark>, b: seq<Mark>)
    requires |a| <= 1
    ensures PayloadsOf(a + b) == PayloadsOf(a) + PayloadsOf(b)
  {
    if a == [] {
      assert a + b == b;
    } else {
      assert (a + b)[1..] == b && a[1..] == [];
    }
  }

  /** Position by position, a payload event keeps its lines and a heartbeat becomes the no-op event,
      whether or not some payload event looks like one; nothing else is left. */
  lemma {:induction false} PayloadsStayInOrder(blocks: seq<Block>, noop: Block)
    ensures |RewriteAll(blocks, noop)| == |Marks(blocks)| == |Payloads(blocks)| + CommentBlocks(blocks)
    ensures forall i :: 0 <= i < |Marks(blocks)| ==> RewriteAll(blocks, noop)[i] == Shown(Marks(blocks)[i], noop)
    ensures PayloadsOf(Marks(blocks)) == Payloads(blocks)
  {
    MarksHoldPayloads(blocks);
    if blocks != [] {
      var rest, marks := RewriteAll(blocks[1..], noop), Marks(blocks[1..]);
      PayloadsStayInOrder(blocks[1..], noop);
      assert RewriteAll(blocks, noop) == Rewrite(blocks[0], noop) + rest;
      assert Marks(blocks) == MarkOf(blocks[0]) + marks;
    }
  }

  // ----- the replacement as the code runs it -----

  const PING_EVENT := "event: ping"
  const PING_DATA := "data: {\"type\":\"ping\"}"
  const CHUNK_ID := "data: {\"id\":\"chatcmpl-keepalive\","
  const CHUNK_OBJECT := "\"object\":\"chat.completion.chunk\","
  const CHUNK_MODEL := "\"model\":"
  const CHUNK_CHOICES := ",\"choices\":[{\"index\":0,"
  const CHUNK_DELTA := "\"delta\":{},\"finish_reason\":null}]}"

  /** The event that stands for a heartbeat; `modelJson` is the public model as a JSON string. */
  function NoOp(protocol: string, modelJson: string): Block {
    if protocol == "anthropic" then [PING_EVENT, PING_DATA]
    else [KeepAlive(modelJson)]
  }

  function KeepAlive(modelJson: string): string {
    CHUNK_ID + CHUNK_OBJECT + CHUNK_MODEL + modelJson + CHUNK_CHOICES + CHUNK_DELTA
  }

  lemma StartsWithLetter(line: string)
    requires line != "" && 'a' <= line[0] <= 'z'
    ensures !IsComment(line)
  {
    TrimHead(line);
  }

  lemma GoodLines(a: string, b: string)
    requires a != "" && 'a' <= a[0] <= 'z' && '\n' !in a
    requires b != "" && 'a' <= b[0] <= 'z' && '\n' !in b
    ensures GoodNoop([a, b]) && GoodNoop([a])
  {
    StartsWithLetter(a);
    StartsWithLetter(b);
  }

  lemma KeepAliveText()
    ensures CHUNK_ID != "" && CHUNK_ID[0] == 'd' && '\n' !in CHUNK_ID
    ensures '\n' !in CHUNK_OBJECT && '\n' !in CHUNK_MODEL && '\n' !in CHUNK_CHOICES && '\n' !in CHUNK_DELTA
  {
  }

  lemma NoOpIsGood(protocol: string, modelJson: string)
    requires '\n' !in modelJson
    ensures GoodNoop(NoOp(protocol, modelJson))
  {
    GoodLines(PING_EVENT, PING_DATA);
    KeepAliveText();
    GoodLines(KeepAlive(modelJson), KeepAlive(modelJson));
  }

  lemma {:induction false} EmptyLinesDoNotMatter(lines: seq<string>)
    ensures Kept(NonEmpty(lines)) == Kept(lines)
    ensures HasComment(NonEmpty(lines)) <==> HasComment(lines)
    ensures Kept(lines) != [] || HasComment(lines) ==> NonEmpty(lines) != []
  {
    if lines != [] {
      EmptyLinesDoNotMatter(lines[1..]);
      CommentIsColon("");
      HasCommentCons(lines[0], lines[1..]);
      assert [lines[0]] + lines[1..] == lines;
      HasCommentCons(lines[0], NonEmpty(lines[1..]));
      if lines[0] == "" {
        assert NonEmpty(lines) == NonEmpty(lines[1..]);
      } else {
        assert NonEmpty(lines)[1..] == NonEmpty(lines[1..]);
      }
    }
  }

  /** What the text of one event becomes. */
  function EventText(event: string, noop: Block): string {
    if Kept(Lines(event)) != [] then PrintBlock(Kept(Lines(event)))
    else if HasComment(Lines(event)) then PrintBlock(noop) else ""
  }

  function PrintEvents(events: seq<string>, noop: Block): string { Print(RewriteAll(EventBlocks(events), noop)) }

  /** What one event adds to the output. */
  lemma EventStep(events: seq<string>, noop: Block)
    requires events != []
    ensures var lines, rest := Lines(events[0]), events[1..];
      && (AnyComment(EventBlocks(events)) <==> HasComment(lines) || AnyComment(EventBlocks(rest)))
      && PrintEvents(events, noop) == EventText(events[0], noop) + PrintEvents(rest, noop)
  {
    var lines, rest := Lines(events[0]), EventBlocks(events[1..]);
    EmptyLinesDoNotMatter(lines);
    var b := NonEmpty(lines);
    assert EventBlocks(events) == Dispatch(b) + rest;
    if b == [] {
      assert Dispatch(b) + rest == rest;
    } else {
      assert ([b] + rest)[1..] == rest;
      AnyCommentCons(b, rest);
      var first := Rewrite(b, noop);
      if first == [] {
        assert first + RewriteAll(rest, noop) == RewriteAll(rest, noop);
      } else {
        assert (first + RewriteAll(rest, noop))[1..] == RewriteAll(rest, noop);
      }
    }
  }

  lemma AnyCommentCons(b: Block, rest: seq<Block>)
    ensures AnyComment([b] + rest) <==> HasComment(b) || AnyComment(rest)
  {
    if HasComment(b) {
      assert b in [b] + rest;
    }
    if AnyComment(rest) {
      var c :| c in rest && HasComment(c);
      assert c in [b] + rest;
    }
  }

  lemma NoColonNoComment(s: string)
    requires ':' !in s
    ensures !AnyComment(Blocks(Normalize(s)))
  {
    LinesHaveNoBreak(s);
    forall l | l in Lines(s) ensures !IsComment(l) {
      CommentIsColon(l);
    }
    NormalizeKeepsComments(s);
    CommentsAreInBlocks(Normalize(s));
  }

  /** What one line adds. */
  lemma KeptStep(lines: seq<string>, j: nat, kept: Block)
    requires j < |lines|
    ensures HasComment(lines[j..]) <==> IsComment(lines[j]) || HasComment(lines[j + 1..])
    ensures kept + Kept(lines[j..]) ==
      (if IsComment(lines[j]) || IsBlank(lines[j]) then kept else kept + [lines[j]]) + Kept(lines[j + 1..])
  {
    assert lines[j..] == [lines[j]] + lines[j + 1..];
    HasCommentCons(lines[j], lines[j + 1..]);
    assert lines[j..][1..] == lines[j + 1..];
  }

  method KeepPayload(lines: seq<string>) returns (kept: Block, hadComment: bool, hasPayload: bool)
    ensures kept == Kept(lines) && hadComment == HasComment(lines) && hasPayload == (kept != [])
  {
    kept, hadComment, hasPayload := [], false, false;
    var j := 0;
    while j < |lines|
      invariant 0 <= j <= |lines|
      invariant Kept(lines) == kept + Kept(lines[j..])
      invariant HasComment(lines) == (hadComment || HasComment(lines[j..]))
      invariant hasPayload == (kept != [])
    {
      var line := lines[j];
      var trimmed := Trim(line);
      KeptStep(lines, j, kept);
      if trimmed != "" && trimmed[0] == ':' {
        hadComment := true;
      } else if trimmed != "" {
        hasPayload := true;
        kept := kept + [line];
      }
      j := j + 1;
    }
  }

  method RewriteEvent(event: string, noop: Block) returns (text: string, hadComment: bool)
    ensures text == EventText(event, noop) && hadComment == HasComment(Lines(event))
  {
    if event == "" {
      EmptyEvent(noop);
      return "", false;
    }
    var kept, hasPayload;
    kept, hadComment, hasPayload := KeepPayload(Split(event, BREAK));
    if hadComment && !hasPayload {
      return PrintBlock(noop), true;
    }
    text := if |kept| > 0 then Join(kept) + BLANK_LINE else "";
  }

  lemma EmptyEvent(noop: Block)
    ensures EventText("", noop) == "" && !HasComment(Lines(""))
  {
    LinesSingle("");
    CommentIsColon("");
    assert Kept([""]) == [];
  }

  method RewriteEvents(events: seq<string>, noop: Block) returns (out: string, changed: bool)
    ensures out == PrintEvents(events, noop) && changed == AnyComment(EventBlocks(events))
  {
    out, changed := "", false;
    var i := 0;
    while i < |events|
      invariant 0 <= i <= |events|
      invariant TextFrom(events, 0, noop) == out + TextFrom(events, i, noop)
      invariant CommentFrom(events, 0) == (changed || CommentFrom(events, i))
    {
      var text, hadComment := RewriteEvent(events[i], noop);
      TextStep(out, events, i, noop);
      out, changed := out + text, changed || hadComment;
      i := i + 1;
    }
    FromIsRest(events, 0, noop);
    assert events[0..] == events;
  }

  lemma TextStep(out: string, events: seq<string>, i: nat, noop: Block)
    requires i < |events|
    ensures out + TextFrom(events, i, noop) == (out + EventText(events[i], noop)) + TextFrom(events, i + 1, noop)
  {
  }

  function TextFrom(events: seq<string>, i: nat, noop: Block): string
    decreases |events| - i
  {
    if i >= |events| then "" else EventText(events[i], noop) + TextFrom(events, i + 1, noop)
  }

  predicate CommentFrom(events: seq<string>, i: nat)
    decreases |events| - i
  {
    i < |events| && (HasComment(Lines(events[i])) || CommentFrom(events, i + 1))
  }

  lemma {:induction false} FromIsRest(events: seq<string>, i: nat, noop: Block)
    requires i <= |events|
    ensures PrintEvents(events[i..], noop) == TextFrom(events, i, noop)
    ensures AnyComment(EventBlocks(events[i..])) <==> CommentFrom(events, i)
    decreases |events| - i
  {
    if i < |events| {
      FromIsRest(events, i + 1, noop);
      EventStep(events[i..], noop);
      assert events[i..][1..] == events[i + 1..];
    }
  }

  /** `noop` is the no-op event of the stream's protocol. */
  method ReplaceCommentHeartbeats(chunk: string, noop: Block) returns (out: string)
    ensures out == Replaced(chunk, noop)
  {
    if ':' !in chunk {
      NoColonNoComment(chunk);
      return chunk;
    }
    var normalized := Normalize(chunk);
    SplitFindsBlocks(normalized);
    var changed;
    out, changed := RewriteEvents(Split(normalized, BLANK_LINE), noop);
    if !changed {
      return chunk;
    }
  }
}
