/**
 * Server-sent event framing: the incremental splitter and the block and line
 * splitting of the upstream parsers (sections 9.2.5 and 9.2.6 of the WHATWG HTML
 * standard, without the lone carriage return line ending, which the code does
 * not accept).
 */
module Sse {
  import opened Base

  /** What separates the pieces: `\r?\n` between lines, twice that between blocks. */
  datatype Separator = LineBreak | BlankLine

  /** The length of the line break matched at `i`, 0 when there is none. */
  function LineBreakLength(s: string, i: nat): (n: nat)
    ensures n > 0 ==> i + n <= |s|
  {
    if i < |s| && s[i] == '\n' then 1
    else if i + 1 < |s| && s[i] == '\r' && s[i + 1] == '\n' then 2
    else 0
  }

  /** The length of the separator matched at `i`, 0 when there is none. */
  function MatchLength(sep: Separator, s: string, i: nat): (n: nat)
    ensures n > 0 ==> i + n <= |s|
  {
    var first := LineBreakLength(s, i);
    if sep == LineBreak || first == 0 then first
    else
      var second := LineBreakLength(s, i + first);
      if second == 0 then 0 else first + second
  }

  /** The leftmost match at or after `i`; `|s|` when there is none. */
  function Find(sep: Separator, s: string, i: nat): (j: nat)
    requires i <= |s|
    ensures i <= j <= |s|
    ensures j < |s| ==> MatchLength(sep, s, j) > 0
    decreases |s| - i
  {
    if i == |s| || MatchLength(sep, s, i) > 0 then i else Find(sep, s, i + 1)
  }

  lemma {:induction false} FindIsLeftmost(sep: Separator, s: string, i: nat)
    requires i <= |s|
    ensures forall k :: i <= k < Find(sep, s, i) ==> MatchLength(sep, s, k) == 0
    decreases |s| - i
  {
    if i < |s| && MatchLength(sep, s, i) == 0 {
      FindIsLeftmost(sep, s, i + 1);
    }
  }

  /** `String.prototype.split` by a separator: always at least one piece. */
  function Split(sep: Separator, s: string): (pieces: seq<string>)
    ensures |pieces| >= 1
    decreases |s|
  {
    var j := Find(sep, s, 0);
    if j == |s| then [s] else [s[..j]] + Split(sep, s[j + MatchLength(sep, s, j)..])
  }

  function Last<T>(s: seq<T>): T
    requires s != []
  {
    s[|s| - 1]
  }

  function Init<T>(s: seq<T>): seq<T>
    requires s != []
  {
    s[..|s| - 1]
  }

  predicate Free(sep: Separator, s: string) {
    forall i :: 0 <= i < |s| ==> MatchLength(sep, s, i) == 0
  }

  /** White space and line terminators, as `String.prototype.trim` removes them. */
  predicate IsSpace(c: char) {
    c in " \t\n\r" || c in "\U{0B}\U{0C}\U{A0}\U{1680}\U{2028}\U{2029}\U{202F}\U{205F}\U{3000}\U{FEFF}"
    || '\U{2000}' <= c <= '\U{200A}'
  }

  predicate Blank(s: string) {
    forall i :: 0 <= i < |s| ==> IsSpace(s[i])
  }

  function TrimLeft(s: string): (t: string)
    ensures t == "" <==> Blank(s)
  {
    if s != "" && IsSpace(s[0]) then TrimLeft(s[1..]) else s
  }

  function TrimRight(s: string): string {
    if s != "" && IsSpace(s[|s| - 1]) then TrimRight(s[..|s| - 1]) else s
  }

  function Trim(s: string): string {
    TrimRight(TrimLeft(s))
  }

  /** The white space there is: five control characters, the space separators and the two line separators. */
  lemma SpacesAre(c: char)
    ensures IsSpace(c) <==>
            || '\U{09}' <= c <= '\U{0D}' || c == ' ' || c == '\U{A0}' || c == '\U{1680}'
            || '\U{2000}' <= c <= '\U{200A}' || '\U{2028}' <= c <= '\U{2029}' || c == '\U{202F}'
            || c == '\U{205F}' || c == '\U{3000}' || c == '\U{FEFF}'
  {
    assert IsSpace('\U{0B}') && IsSpace('\U{0C}');
  }

  /** Trimming removes the white space at either end, all of it and nothing else. */
  lemma TrimIs(left: string, word: string, right: string)
    requires Blank(left) && Blank(right) && (word != "" ==> !IsSpace(word[0]) && !IsSpace(word[|word| - 1]))
    ensures Trim(left + word + right) == word
  {
    if word == "" {
      assert Blank(left + word + right);
    } else {
      LeftTrimmed(left, word + right);
      Assoc(left, word, right);
      RightTrimmed(word, right);
    }
  }

  lemma {:induction false} LeftTrimmed(left: string, rest: string)
    requires Blank(left) && rest != "" && !IsSpace(rest[0])
    ensures TrimLeft(left + rest) == rest
  {
    if left == "" {
      AppendNone(rest);
    } else {
      HeadFirst(left, rest);
      LeftTrimmed(left[1..], rest);
    }
  }

  lemma {:induction false} RightTrimmed(word: string, right: string)
    requires Blank(right) && word != "" && !IsSpace(word[|word| - 1])
    ensures TrimRight(word + right) == word
  {
    if right == "" {
      AppendNone(word);
    } else {
      var n := |right| - 1;
      assert (word + right)[..|word| + n] == word + right[..n];
      RightTrimmed(word, right[..n]);
    }
  }

  /** The pieces with something in them besides white space. */
  function NonBlank(pieces: seq<string>): seq<string> {
    if pieces == [] then []
    else (if Blank(pieces[0]) then [] else [pieces[0]]) + NonBlank(pieces[1..])
  }

  lemma {:induction false} NonBlankAppend(a: seq<string>, b: seq<string>)
    ensures NonBlank(a + b) == NonBlank(a) + NonBlank(b)
  {
    if a == [] {
      assert a + b == b;
    } else {
      assert (a + b)[1..] == a[1..] + b;
      NonBlankAppend(a[1..], b);
    }
  }

  // ----- Splitting facts -----

  /** No piece of a split holds a separator. */
  lemma {:induction false} PiecesFree(sep: Separator, s: string)
    ensures forall p :: p in Split(sep, s) ==> Free(sep, p)
    decreases |s|
  {
    var j := Find(sep, s, 0);
    FindIsLeftmost(sep, s, 0);
    PrefixFree(sep, s, j);
    if j < |s| {
      PiecesFree(sep, s[j + MatchLength(sep, s, j)..]);
    }
  }

  lemma PrefixFree(sep: Separator, s: string, j: nat)
    requires j <= |s|
    requires forall k :: 0 <= k < j ==> MatchLength(sep, s, k) == 0
    ensures Free(sep, s[..j])
  {
    forall i | 0 <= i < j
      ensures MatchLength(sep, s[..j], i) == 0
    {
      assert MatchLength(sep, s, i) == 0;
    }
  }

  lemma FreeSplit(sep: Separator, s: string)
    requires Free(sep, s)
    ensures Split(sep, s) == [s]
  {
  }

  lemma MatchShift(sep: Separator, s: string, c: nat, i: nat)
    requires c + i <= |s|
    ensures MatchLength(sep, s, c + i) == MatchLength(sep, s[c..], i)
  {
  }

  /** Searching from an index is searching the rest of the text. */
  lemma {:induction false} FindShift(sep: Separator, s: string, c: nat, i: nat)
    requires c + i <= |s|
    ensures Find(sep, s, c + i) == c + Find(sep, s[c..], i)
    decreases |s| - i
  {
    if c + i < |s| {
      MatchShift(sep, s, c, i);
      if MatchLength(sep, s, c + i) == 0 {
        FindShift(sep, s, c, i + 1);
      }
    }
  }

  /** The first match is settled by where it stands: text before it and after it does not move it. */
  lemma {:induction false} FindIs(sep: Separator, s: string, i: nat, j: nat)
    requires i <= j < |s|
    requires MatchLength(sep, s, j) > 0
    requires forall k :: i <= k < j ==> MatchLength(sep, s, k) == 0
    ensures Find(sep, s, i) == j
    decreases j - i
  {
    if i < j {
      FindIs(sep, s, i + 1, j);
    }
  }

  lemma StillNoMatch(a: string, b: string, k: nat, j: nat)
    requires k < j < |a| && MatchLength(BlankLine, a, j) > 0 && MatchLength(BlankLine, a, k) == 0
    ensures MatchLength(BlankLine, a + b, k) == 0
  {
  }

  /** A complete blank line stays the first one however the text goes on. */
  lemma FindExtends(a: string, b: string)
    requires Find(BlankLine, a, 0) < |a|
    ensures var j := Find(BlankLine, a, 0);
            && Find(BlankLine, a + b, 0) == j
            && MatchLength(BlankLine, a + b, j) == MatchLength(BlankLine, a, j)
  {
    var j := Find(BlankLine, a, 0);
    FindIsLeftmost(BlankLine, a, 0);
    forall k | 0 <= k < j
      ensures MatchLength(BlankLine, a + b, k) == 0
    {
      StillNoMatch(a, b, k, j);
    }
    FindIs(BlankLine, a + b, 0, j);
  }

  lemma {:induction false} SplitStep(sep: Separator, s: string, j: nat, n: nat, after: seq<string>)
    requires j < |s| && Find(sep, s, 0) == j && n == j + MatchLength(sep, s, j) <= |s| && after == Split(sep, s[n..])
    ensures Split(sep, s) == [s[..j]] + after
  {
  }

  lemma {:induction false} SplitHead(sep: Separator, s: string, j: nat, n: nat)
    requires j < |s| && Find(sep, s, 0) == j && n == j + MatchLength(sep, s, j)
    ensures n <= |s| && Split(sep, s) == [s[..j]] + Split(sep, s[n..])
  {
    assert n <= |s|;
    SplitStep(sep, s, j, n, Split(sep, s[n..]));
  }

  lemma ConsEnds<T>(x: T, tail: seq<T>)
    requires tail != []
    ensures Init([x] + tail) == [x] + Init(tail)
    ensures Last([x] + tail) == Last(tail)
  {
  }

  /** Splitting a text that arrives in two parts: only the last piece of the first part is still open. */
  lemma {:induction false} SplitAppend(a: string, b: string)
    ensures Split(BlankLine, a + b) == Init(Split(BlankLine, a)) + Split(BlankLine, Last(Split(BlankLine, a)) + b)
    decreases |a|
  {
    var j := Find(BlankLine, a, 0);
    if j < |a| {
      var n := j + MatchLength(BlankLine, a, j);
      SplitHead(BlankLine, a, j, n);
      FindExtends(a, b);
      SplitHead(BlankLine, a + b, j, n);
      assert (a + b)[n..] == a[n..] + b && (a + b)[..j] == a[..j];
      SplitAppend(a[n..], b);
      var pieces := Split(BlankLine, a[n..]);
      ConsEnds(a[..j], pieces);
      Assoc([a[..j]], Init(pieces), Split(BlankLine, Last(pieces) + b));
    }
  }

  // ----- What a separator looks like -----

  /** Every way a separator is written. */
  predicate Mark(sep: Separator, mark: string) {
    match sep
    case LineBreak => mark == "\n" || mark == "\r\n"
    case BlankLine => mark == "\n\n" || mark == "\r\n\n" || mark == "\n\r\n" || mark == "\r\n\r\n"
  }

  /** A line break matches where it stands, with its own length. */
  lemma BreakMatches(s: string, i: nat, j: nat)
    requires i <= j <= |s| && (s[i..j] == "\n" || s[i..j] == "\r\n")
    ensures LineBreakLength(s, i) == j - i
  {
    var mark := s[i..j];
    assert s[i] == mark[0];
    if mark == "\r\n" {
      assert s[i + 1] == mark[1];
    }
  }

  /** A mark matches where it stands, with its own length. */
  lemma MarkMatches(sep: Separator, s: string, i: nat, j: nat)
    requires i <= j <= |s| && Mark(sep, s[i..j])
    ensures MatchLength(sep, s, i) == j - i
  {
    if sep == LineBreak {
      BreakMatches(s, i, j);
    } else {
      var mark := s[i..j];
      var n := if mark[0] == '\n' then 1 else 2;
      assert mark[..n] == (if n == 1 then "\n" else "\r\n") && s[i..i + n] == mark[..n];
      assert (mark[n..] == "\n" || mark[n..] == "\r\n") && s[i + n..j] == mark[n..];
      BreakMatches(s, i, i + n);
      BreakMatches(s, i + n, j);
    }
  }

  /** A match is one of the marks. */
  lemma MatchIsMark(sep: Separator, s: string, i: nat)
    requires MatchLength(sep, s, i) > 0
    ensures Mark(sep, s[i..i + MatchLength(sep, s, i)])
  {
    var first := LineBreakLength(s, i);
    assert s[i..i + first] == "\n" || s[i..i + first] == "\r\n";
    if sep == BlankLine {
      var second := LineBreakLength(s, i + first);
      assert s[i + first..i + first + second] == "\n" || s[i + first..i + first + second] == "\r\n";
      assert s[i..i + first + second] == s[i..i + first] + s[i + first..i + first + second];
    }
  }

  /** No mark stands anywhere in the text. */
  ghost predicate Unbroken(sep: Separator, s: string) {
    forall i, j :: 0 <= i <= j <= |s| ==> !Mark(sep, s[i..j])
  }

  lemma FreeIffUnbroken(sep: Separator, s: string)
    ensures Free(sep, s) <==> Unbroken(sep, s)
  {
    if Free(sep, s) {
      forall i, j | 0 <= i <= j <= |s|
        ensures !Mark(sep, s[i..j])
      {
        if Mark(sep, s[i..j]) {
          MarkMatches(sep, s, i, j);
        }
      }
    }
    if Unbroken(sep, s) {
      forall i | 0 <= i < |s|
        ensures MatchLength(sep, s, i) == 0
      {
        if MatchLength(sep, s, i) > 0 {
          MatchIsMark(sep, s, i);
        }
      }
    }
  }

  /** A text that starts with a piece and a mark, however the mark is written, splits there. */
  lemma SplitFirst(sep: Separator, body: string, mark: string, rest: string)
    requires Unbroken(sep, body) && Mark(sep, mark)
    requires body != "" ==> Last(body) != '\r' && Last(body) != '\n'
    ensures Split(sep, body + mark + rest) == [body] + Split(sep, rest)
  {
    var s := body + mark + rest;
    assert s[..|body|] == body;
    assert s[|body|..|body| + |mark|] == mark;
    assert s[|body| + |mark|..] == rest;
    FreeIffUnbroken(sep, body);
    NoEarlierMatch(sep, body, mark + rest, s);
    MarkMatches(sep, s, |body|, |body| + |mark|);
    FindIs(sep, s, 0, |body|);
    SplitHead(sep, s, |body|, |body| + |mark|);
  }

  lemma NoEarlierMatch(sep: Separator, body: string, more: string, s: string)
    requires s == body + more && Free(sep, body)
    requires body != "" ==> Last(body) != '\r' && Last(body) != '\n'
    ensures forall k :: 0 <= k < |body| ==> MatchLength(sep, s, k) == 0
  {
    forall k | 0 <= k < |body|
      ensures MatchLength(sep, s, k) == 0
    {
      assert MatchLength(sep, body, k) == 0;
      assert forall i :: 0 <= i < |body| ==> s[i] == body[i];
    }
  }

  /** Pieces with the marks between them. */
  function Joined(pieces: seq<string>, marks: seq<string>): string
    requires |pieces| == |marks| + 1
  {
    if marks == [] then pieces[0] else pieces[0] + marks[0] + Joined(pieces[1..], marks[1..])
  }

  /** A piece that can stand before any mark: it holds none, and no part of one ends it. */
  ghost predicate Piece(sep: Separator, s: string) {
    Unbroken(sep, s) && (s != "" ==> Last(s) != '\r' && Last(s) != '\n')
  }

  /** Pieces come apart again whatever marks stand between them. */
  lemma {:induction false} SplitJoined(sep: Separator, pieces: seq<string>, marks: seq<string>)
    requires |pieces| == |marks| + 1
    requires forall p :: p in pieces ==> Piece(sep, p)
    requires forall m :: m in marks ==> Mark(sep, m)
    ensures Split(sep, Joined(pieces, marks)) == pieces
  {
    assert pieces[0] in pieces;
    if marks == [] {
      FreeIffUnbroken(sep, pieces[0]);
      FreeSplit(sep, pieces[0]);
    } else {
      assert marks[0] in marks;
      SplitJoined(sep, pieces[1..], marks[1..]);
      SplitFirst(sep, pieces[0], marks[0], Joined(pieces[1..], marks[1..]));
    }
  }

  lemma OneLineUnbroken(s: string)
    requires '\n' !in s
    ensures Unbroken(LineBreak, s) && Unbroken(BlankLine, s)
  {
    forall i, j | 0 <= i <= j <= |s|
      ensures !Mark(LineBreak, s[i..j]) && !Mark(BlankLine, s[i..j])
    {
      if i < j {
        assert s[i..j][|s[i..j]| - 1] == s[j - 1];
        assert s[j - 1] in s;
      }
    }
  }

  // ----- The splitter -----

  /** The frames a text completes, and the partial frame after them. */
  function CompleteFrames(text: string): seq<string> {
    NonBlank(Init(Split(BlankLine, text)))
  }

  function OpenFrame(text: string): string {
    Last(Split(BlankLine, text))
  }

  /** Every frame of a finished text. */
  function Frames(text: string): seq<string> {
    NonBlank(Split(BlankLine, text))
  }

  /** The frames of a body are its blocks that are not blank, whatever blank lines stand between them. */
  lemma FramesJoined(blocks: seq<string>, marks: seq<string>)
    requires |blocks| == |marks| + 1
    requires forall b :: b in blocks ==> Piece(BlankLine, b)
    requires forall m :: m in marks ==> m == "\n\n" || m == "\r\n\n" || m == "\n\r\n" || m == "\r\n\r\n"
    ensures Frames(Joined(blocks, marks)) == NonBlank(blocks)
  {
    SplitJoined(BlankLine, blocks, marks);
  }

  lemma AddFrame(frame: string, pieces: seq<string>, frames: seq<string>)
    requires pieces != []
    ensures frames + NonBlank(Init([frame] + pieces)) ==
            (if Blank(frame) then frames else frames + [frame]) + NonBlank(Init(pieces))
  {
    ConsEnds(frame, pieces);
    assert ([frame] + Init(pieces))[1..] == Init(pieces);
  }

  lemma SliceOfTail(text: string, c: nat, at: nat, next: nat)
    requires c <= at <= next <= |text|
    ensures text[c..][..at - c] == text[c..at] && text[c..][next - c..] == text[next..]
  {
  }

  lemma SplitAtMatch(text: string, consumed: nat, at: nat, next: nat)
    requires consumed <= at < |text|
    requires at == Find(BlankLine, text, consumed) && next == at + MatchLength(BlankLine, text, at) <= |text|
    ensures Split(BlankLine, text[consumed..]) == [text[consumed..at]] + Split(BlankLine, text[next..])
  {
    var tail := text[consumed..];
    FoundInTail(text, consumed, at, tail);
    SliceOfTail(text, consumed, at, next);
    var j, n := at - consumed, next - consumed;
    SplitHead(BlankLine, tail, j, n);
    assert tail[..j] == text[consumed..at];
    assert tail[n..] == text[next..];
  }

  lemma FoundInTail(text: string, consumed: nat, at: nat, tail: string)
    requires consumed <= at < |text| && at == Find(BlankLine, text, consumed) && tail == text[consumed..]
    ensures Find(BlankLine, tail, 0) == at - consumed
    ensures MatchLength(BlankLine, tail, at - consumed) == MatchLength(BlankLine, text, at)
  {
    FindShift(BlankLine, text, consumed, 0);
    MatchShift(BlankLine, text, consumed, at - consumed);
  }

  /** One match of the scan: the frame it completes, and the text left after it. */
  lemma NextFrame(text: string, consumed: nat, at: nat, next: nat, frames: seq<string>)
    requires consumed <= at < |text|
    requires at == Find(BlankLine, text, consumed) && next == at + MatchLength(BlankLine, text, at)
    ensures next <= |text|
    ensures frames + CompleteFrames(text[consumed..]) ==
            (if Blank(text[consumed..at]) then frames else frames + [text[consumed..at]]) + CompleteFrames(text[next..])
    ensures OpenFrame(text[consumed..]) == OpenFrame(text[next..])
  {
    SplitAtMatch(text, consumed, at, next);
    AddFrame(text[consumed..at], Split(BlankLine, text[next..]), frames);
    ConsEnds(text[consumed..at], Split(BlankLine, text[next..]));
  }

  /** After the last match, what is left is the partial frame. */
  lemma NoMoreFrames(text: string, consumed: nat)
    requires consumed <= |text| && Find(BlankLine, text, consumed) == |text|
    ensures CompleteFrames(text[consumed..]) == [] && OpenFrame(text[consumed..]) == text[consumed..]
    ensures Free(BlankLine, text[consumed..])
  {
    FindShift(BlankLine, text, consumed, 0);
    FindIsLeftmost(BlankLine, text[consumed..], 0);
  }

  class SseFrameSplitter {
    /** The frame still open: what came after the last separator. */
    var buffer: string

    constructor ()
      ensures buffer == ""
    {
      buffer := "";
    }

    method Push(chunk: string) returns (frames: seq<string>)
      requires Free(BlankLine, buffer)
      modifies this
      ensures frames == CompleteFrames(old(buffer) + chunk)
      ensures buffer == OpenFrame(old(buffer) + chunk)
      ensures Free(BlankLine, buffer)
    {
      frames := [];
      if |chunk| == 0 {
        assert buffer + chunk == buffer;
        FreeSplit(BlankLine, buffer);
        assert Init([buffer]) == [];
        return;
      }
      buffer := buffer + chunk;
      ghost var text := buffer;
      var consumed := 0;
      assert text[consumed..] == text;
      var at := Find(BlankLine, buffer, consumed);
      while at < |buffer|
        invariant buffer == text && consumed <= |text|
        invariant at == Find(BlankLine, text, consumed)
        invariant CompleteFrames(text) == frames + CompleteFrames(text[consumed..])
        invariant OpenFrame(text) == OpenFrame(text[consumed..])
        decreases |text| - consumed
      {
        var frame := buffer[consumed..at];
        var next := at + MatchLength(BlankLine, buffer, at);
        NextFrame(text, consumed, at, next, frames);
        if !Blank(frame) {
          frames := frames + [frame];
        }
        consumed := next;
        at := Find(BlankLine, buffer, consumed);
      }
      NoMoreFrames(text, consumed);
      if consumed > 0 {
        buffer := buffer[consumed..];
      }
    }

    method Flush() returns (frames: seq<string>)
      modifies this
      ensures buffer == ""
      ensures frames == NonBlank([old(buffer)])
    {
      var rest := buffer;
      buffer := "";
      frames := if Blank(rest) then [] else [rest];
      assert NonBlank([rest]) == frames + NonBlank([]);
    }
  }

  /** Re-frame a body that arrives in chunks, whatever the chunk boundaries are. */
  method SseFrames(chunks: seq<string>) returns (frames: seq<string>)
    ensures frames == Frames(Flatten(chunks))
    ensures forall f :: f in frames ==> Free(BlankLine, f) && !Blank(f)
  {
    var splitter := new SseFrameSplitter();
    frames := [];
    ghost var seen := "";
    FreeSplit(BlankLine, "");
    for i := 0 to |chunks|
      invariant fresh(splitter)
      invariant seen == Flatten(chunks[..i])
      invariant frames == CompleteFrames(seen)
      invariant splitter.buffer == OpenFrame(seen) && Free(BlankLine, splitter.buffer)
    {
      var more := splitter.Push(chunks[i]);
      FramesArrive(seen, chunks[i]);
      assert chunks[..i + 1] == chunks[..i] + [chunks[i]];
      FlattenSnoc(chunks[..i], chunks[i]);
      frames := frames + more;
      seen := seen + chunks[i];
    }
    assert chunks[..|chunks|] == chunks;
    var last := splitter.Flush();
    frames := frames + last;
    FramesFinished(seen);
  }

  /** At the end of the text the open frame is the last one. */
  lemma FramesFinished(text: string)
    ensures CompleteFrames(text) + NonBlank([OpenFrame(text)]) == Frames(text)
    ensures forall f :: f in Frames(text) ==> Free(BlankLine, f) && !Blank(f)
  {
    var pieces := Split(BlankLine, text);
    NonBlankAppend(Init(pieces), [Last(pieces)]);
    assert Init(pieces) + [Last(pieces)] == pieces;
    PiecesFree(BlankLine, text);
    NonBlankKeeps(pieces);
  }

  lemma {:induction false} NonBlankKeeps(pieces: seq<string>)
    ensures forall f :: f in NonBlank(pieces) ==> f in pieces && !Blank(f)
  {
    if pieces != [] {
      NonBlankKeeps(pieces[1..]);
    }
  }

  /** One more chunk completes the frames of the whole text that were not complete before. */
  lemma FramesArrive(seen: string, chunk: string)
    ensures CompleteFrames(seen + chunk) == CompleteFrames(seen) + CompleteFrames(OpenFrame(seen) + chunk)
    ensures OpenFrame(seen + chunk) == OpenFrame(OpenFrame(seen) + chunk)
  {
    SplitAppend(seen, chunk);
    var head := Init(Split(BlankLine, seen));
    var tail := Split(BlankLine, OpenFrame(seen) + chunk);
    assert Init(head + tail) == head + Init(tail);
    NonBlankAppend(head, Init(tail));
  }
}
