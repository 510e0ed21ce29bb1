/** Truncation of tool output: whole lines from one end within a line and a byte budget, or a sample
    of one line.  Text is a sequence of characters; a slice at a character boundary is a prefix or a
    suffix of it, and its size is the number of bytes its UTF-8 form takes. */
module Truncation {
  import opened Text

  /** A longer prefix takes more bytes. */
  lemma PrefixBytes(s: string, i: nat, j: nat)
    requires i < j <= |s|
    ensures Bytes(s[..i]) < Bytes(s[..j])
  {
    assert s[..j] == s[..i] + s[i..j];
    BytesAppend(s[..i], s[i..j]);
    assert s[i..j] != "";
  }

  // --- Character boundaries ------------------------------------------------------------------------

  /** `floor_char_boundary`, counted in characters. */
  function Floor(s: string, budget: nat): (n: nat)
    ensures n <= |s|
    decreases |s|
  {
    if s == "" || Width(s[0]) > budget then 0 else 1 + Floor(s[1..], budget - Width(s[0]))
  }

  lemma {:induction false} FloorIsLongest(s: string, budget: nat)
    ensures Bytes(s[..Floor(s, budget)]) <= budget
    ensures forall n: nat :: Floor(s, budget) < n <= |s| ==> Bytes(s[..n]) > budget
    decreases |s|
  {
    var k := Floor(s, budget);
    if s != "" {
      if Width(s[0]) <= budget {
        var rest, left := s[1..], budget - Width(s[0]);
        FloorIsLongest(rest, left);
        assert s[..k] == [s[0]] + rest[..k - 1];
      }
      forall n: nat | k < n <= |s| ensures Bytes(s[..n]) > budget {
        assert s[..n] == [s[0]] + s[1..][..n - 1];
      }
    }
  }

  function SampleLineHead(line: string, maxBytes: nat): string {
    line[..Floor(line, maxBytes)]
  }

  /** `ceil_char_boundary` of a byte index, counted in characters. */
  function Ceil(s: string, index: nat): (n: nat)
    ensures n <= |s|
    decreases |s|
  {
    if s == "" || index == 0 then 0
    else 1 + Ceil(s[1..], if index <= Width(s[0]) then 0 else index - Width(s[0]))
  }

  function SampleLineTail(line: string, maxBytes: nat): string {
    line[Ceil(line, if Bytes(line) <= maxBytes then 0 else Bytes(line) - maxBytes)..]
  }

  /** The boundary is the first one at or past the index. */
  lemma {:induction false} CeilIsFirst(s: string, index: nat)
    requires index <= Bytes(s)
    ensures Bytes(s[..Ceil(s, index)]) >= index
    ensures forall n: nat :: n < Ceil(s, index) ==> Bytes(s[..n]) < index
    decreases |s|
  {
    var k := Ceil(s, index);
    if s != "" && index > 0 {
      var left: nat := if index <= Width(s[0]) then 0 else index - Width(s[0]);
      CeilIsFirst(s[1..], left);
      assert s[..k] == [s[0]] + s[1..][..k - 1];
      forall n: nat | n < k ensures Bytes(s[..n]) < index {
        if n > 0 {
          assert s[..n] == [s[0]] + s[1..][..n - 1];
        }
      }
    }
  }

  function Suffix(s: string, n: nat): string
    requires n <= |s|
  {
    s[|s| - n..]
  }

  lemma HeadSampleIsLongest(line: string, maxBytes: nat)
    ensures var head := SampleLineHead(line, maxBytes);
            && head <= line && Bytes(head) <= maxBytes
            && forall n: nat :: |head| < n <= |line| ==> Bytes(line[..n]) > maxBytes
  {
    FloorIsLongest(line, maxBytes);
  }

  /** The samples are the longest prefix and the longest suffix of whole characters that fit. */
  lemma TailSampleIsLongest(line: string, maxBytes: nat)
    ensures var tail := SampleLineTail(line, maxBytes);
            && |tail| <= |line| && tail == Suffix(line, |tail|) && Bytes(tail) <= maxBytes
            && forall n: nat :: |tail| < n <= |line| ==> Bytes(Suffix(line, n)) > maxBytes
  {
    var index := if Bytes(line) <= maxBytes then 0 else Bytes(line) - maxBytes;
    var start := Ceil(line, index);
    CeilIsFirst(line, index);
    SplitBytes(line, start);
    forall n: nat | |line| - start < n <= |line| ensures Bytes(Suffix(line, n)) > maxBytes {
      SplitBytes(line, |line| - n);
    }
  }

  lemma SplitBytes(s: string, at: nat)
    requires at <= |s|
    ensures Bytes(s) == Bytes(s[..at]) + Bytes(s[at..])
  {
    assert s == s[..at] + s[at..];
    BytesAppend(s[..at], s[at..]);
  }

  // --- One text cut to a budget ----------------------------------------------------------------------

  /** `rfind`. */
  function LastIndexOf(s: string, c: char): (at: int)
    ensures -1 <= at < |s|
    ensures at >= 0 ==> s[at] == c
    ensures forall i | at < i < |s| :: s[i] != c
  {
    if s == "" then -1 else if s[|s| - 1] == c then |s| - 1 else LastIndexOf(s[..|s| - 1], c)
  }

  function TruncateToBudget(text: string, budget: nat): string {
    if Bytes(text) <= budget then text
    else
      var within := text[..Floor(text, budget)];
      var at := LastIndexOf(within, '\n');
      if at >= 0 then within[..at] else within
  }

  /** Cutting here loses no part of a line: a newline follows, within the budget. */
  predicate LineEnd(text: string, budget: nat, n: nat) {
    n < |text| && text[n] == '\n' && Bytes(text[..n + 1]) <= budget
  }

  /** Text over budget is cut at its last line end within the budget, or, if there is none, after as
      many characters as fit. */
  lemma CutsAtTheLastLineEnd(text: string, budget: nat)
    ensures var cut := TruncateToBudget(text, budget);
            && cut <= text && Bytes(cut) <= budget
            && (Bytes(text) <= budget ==> cut == text)
            && (Bytes(text) > budget ==>
                  if exists n: nat :: LineEnd(text, budget, n)
                  then LineEnd(text, budget, |cut|) && forall n: nat :: LineEnd(text, budget, n) ==> n <= |cut|
                  else forall n: nat :: |cut| < n <= |text| ==> Bytes(text[..n]) > budget)
  {
    if Bytes(text) > budget {
      var k := Floor(text, budget);
      var within := text[..k];
      FloorIsLongest(text, budget);
      var at := LastIndexOf(within, '\n');
      forall n: nat | LineEnd(text, budget, n) ensures n <= at {
        assert n + 1 <= k;
        assert within[n] == '\n';
      }
      if at >= 0 {
        assert text[..at + 1] == within[..at + 1] && text[..at] == within[..at];
        if at + 1 < k {
          PrefixBytes(text, at + 1, k);
        }
        PrefixBytes(text, at, at + 1);
        assert LineEnd(text, budget, at);
      }
    }
  }

  // --- Whole lines -------------------------------------------------------------------------------------

  function Join(lines: seq<string>): string {
    if lines == [] then "" else if |lines| == 1 then lines[0] else lines[0] + "\n" + Join(lines[1..])
  }

  function JoinedBytes(lines: seq<string>): nat
    decreases |lines|
  {
    if lines == [] then 0
    else JoinedBytes(lines[..|lines| - 1]) + Bytes(lines[|lines| - 1]) + if |lines| == 1 then 0 else 1
  }

  lemma {:induction false} JoinSnoc(lines: seq<string>, line: string)
    requires lines != []
    ensures Join(lines + [line]) == Join(lines) + "\n" + line
    decreases |lines|
  {
    assert (lines + [line])[1..] == lines[1..] + [line];
    if |lines| > 1 {
      JoinSnoc(lines[1..], line);
    } else {
      assert lines + [line] == [lines[0], line];
      assert Join([lines[0], line][1..]) == line;
    }
  }

  /** What the collector counts is the size of the joined lines. */
  lemma {:induction false} JoinedBytesIsSize(lines: seq<string>)
    ensures Bytes(Join(lines)) == JoinedBytes(lines)
    decreases |lines|
  {
    if |lines| > 1 {
      var init, line := lines[..|lines| - 1], lines[|lines| - 1];
      JoinedBytesIsSize(init);
      JoinSnoc(init, line);
      assert init + [line] == lines;
      BytesAppend(Join(init) + "\n", line);
      BytesAppend(Join(init), "\n");
      assert Bytes("\n") == 1;
    } else if |lines| == 1 {
      assert lines[..0] == [];
    }
  }

  /** The first `n` lines fit. */
  predicate Fits(lines: seq<string>, maxLines: nat, maxBytes: nat, n: nat) {
    n <= |lines| && n <= maxLines && JoinedBytes(lines[..n]) <= maxBytes
  }

  lemma {:induction false} MoreLinesMoreBytes(lines: seq<string>, i: nat, j: nat)
    requires i <= j <= |lines|
    ensures JoinedBytes(lines[..i]) <= JoinedBytes(lines[..j])
    decreases j
  {
    if i < j {
      MoreLinesMoreBytes(lines, i, j - 1);
      assert lines[..j][..j - 1] == lines[..j - 1];
    }
  }

  /** Takes lines while they fit: as many as fit at all. */
  method CollectWithin(lines: seq<string>, maxLines: nat, maxBytes: nat) returns (kept: seq<string>)
    ensures |kept| <= |lines| && kept == lines[..|kept|] && Fits(lines, maxLines, maxBytes, |kept|)
    ensures forall n: nat :: Fits(lines, maxLines, maxBytes, n) ==> n <= |kept|
  {
    kept := [];
    var bytes := 0;
    var taken := if maxLines < |lines| then maxLines else |lines|;
    for i := 0 to taken
      invariant kept == lines[..i] && bytes == JoinedBytes(kept) <= maxBytes
    {
      var size := Bytes(lines[i]) + if kept == [] then 0 else 1;
      assert lines[..i + 1][..i] == lines[..i];
      if bytes + size > maxBytes {
        forall n: nat | Fits(lines, maxLines, maxBytes, n) ensures n <= |kept| {
          if n > i {
            MoreLinesMoreBytes(lines, i + 1, n);
          }
        }
        return;
      }
      kept := kept + [lines[i]];
      bytes := bytes + size;
    }
  }

  function Reversed<T>(lines: seq<T>): (r: seq<T>)
    ensures |r| == |lines|
  {
    if lines == [] then [] else Reversed(lines[1..]) + [lines[0]]
  }

  lemma {:induction false} JoinedBytesFront(line: string, lines: seq<string>)
    ensures JoinedBytes([line] + lines) == JoinedBytes(lines) + Bytes(line) + if lines == [] then 0 else 1
    decreases |lines|
  {
    if lines == [] {
      assert [line] + lines == [line];
      assert [line][..0] == [];
    } else {
      var init := lines[..|lines| - 1];
      assert ([line] + lines)[..|lines|] == [line] + init;
      JoinedBytesFront(line, init);
    }
  }

  lemma JoinedBytesSnoc(lines: seq<string>, line: string)
    ensures JoinedBytes(lines + [line]) == JoinedBytes(lines) + Bytes(line) + if lines == [] then 0 else 1
  {
    assert (lines + [line])[..|lines|] == lines;
  }

  lemma {:induction false} ReversedSameBytes(lines: seq<string>)
    ensures JoinedBytes(Reversed(lines)) == JoinedBytes(lines)
    decreases |lines|
  {
    if lines != [] {
      var first, rest := lines[0], lines[1..];
      ReversedSameBytes(rest);
      JoinedBytesSnoc(Reversed(rest), first);
      JoinedBytesFront(first, rest);
      assert [first] + rest == lines;
    }
  }

  lemma {:induction false} ReversedAt<T>(lines: seq<T>, i: nat)
    requires i < |lines|
    ensures Reversed(lines)[i] == lines[|lines| - 1 - i]
    decreases |lines|
  {
    if i < |lines| - 1 {
      ReversedAt(lines[1..], i);
    }
  }

  lemma {:induction false} ReversedPrefix<T>(lines: seq<T>, n: nat)
    requires n <= |lines|
    ensures Reversed(lines)[..n] == Reversed(lines[|lines| - n..])
    decreases |lines|
  {
    if n == |lines| {
      assert lines[0..] == lines;
    } else {
      var rest := lines[1..];
      ReversedPrefix(rest, n);
      assert rest[|rest| - n..] == lines[|lines| - n..];
      assert (Reversed(rest) + [lines[0]])[..n] == Reversed(rest)[..n];
    }
  }

  lemma ReversedTwice<T>(lines: seq<T>)
    ensures Reversed(Reversed(lines)) == lines
  {
    forall i | 0 <= i < |lines| ensures Reversed(Reversed(lines))[i] == lines[i] {
      ReversedAt(Reversed(lines), i);
      ReversedAt(lines, |lines| - 1 - i);
    }
  }

  /** The last `n` lines fit. */
  predicate FitsTail(lines: seq<string>, maxLines: nat, maxBytes: nat, n: nat) {
    n <= |lines| && n <= maxLines && JoinedBytes(lines[|lines| - n..]) <= maxBytes
  }

  lemma TailFitsReversed(lines: seq<string>, maxLines: nat, maxBytes: nat, n: nat)
    ensures FitsTail(lines, maxLines, maxBytes, n) <==> Fits(Reversed(lines), maxLines, maxBytes, n)
  {
    if n <= |lines| {
      ReversedPrefix(lines, n);
      ReversedSameBytes(lines[|lines| - n..]);
    }
  }

  method CollectHead(lines: seq<string>, maxLines: nat, maxBytes: nat) returns (kept: seq<string>)
    ensures |kept| <= |lines| && kept == lines[..|kept|] && Fits(lines, maxLines, maxBytes, |kept|)
    ensures forall n: nat :: Fits(lines, maxLines, maxBytes, n) ==> n <= |kept|
  {
    kept := CollectWithin(lines, maxLines, maxBytes);
  }

  method CollectTail(lines: seq<string>, maxLines: nat, maxBytes: nat) returns (kept: seq<string>)
    ensures FitsTail(lines, maxLines, maxBytes, |kept|) && kept == lines[|lines| - |kept|..]
    ensures forall n: nat :: FitsTail(lines, maxLines, maxBytes, n) ==> n <= |kept|
  {
    var last := CollectWithin(Reversed(lines), maxLines, maxBytes);
    TailIsReversed(lines, maxLines, maxBytes, last);
    kept := Reversed(last);
  }

  lemma TailIsReversed(lines: seq<string>, maxLines: nat, maxBytes: nat, last: seq<string>)
    requires |last| <= |lines| && last == Reversed(lines)[..|last|] && Fits(Reversed(lines), maxLines, maxBytes, |last|)
    requires forall n: nat :: Fits(Reversed(lines), maxLines, maxBytes, n) ==> n <= |last|
    ensures FitsTail(lines, maxLines, maxBytes, |last|) && Reversed(last) == lines[|lines| - |last|..]
    ensures forall n: nat :: FitsTail(lines, maxLines, maxBytes, n) ==> n <= |last|
  {
    TailFitsReversed(lines, maxLines, maxBytes, |last|);
    forall n: nat | FitsTail(lines, maxLines, maxBytes, n) ensures n <= |last| {
      TailFitsReversed(lines, maxLines, maxBytes, n);
    }
    BackAgain(lines, |last|);
  }

  lemma BackAgain<T>(lines: seq<T>, n: nat)
    requires n <= |lines|
    ensures Reversed(Reversed(lines)[..n]) == lines[|lines| - n..]
  {
    ReversedPrefix(lines, n);
    ReversedTwice(lines[|lines| - n..]);
  }

  // --- A tool result -------------------------------------------------------------------------------------

  datatype Direction = Head | Tail

  datatype ContentPart = TextPart(text: string) | OtherPart(data: string)

  /** What the truncation notice tells; its wording is a parameter. */
  datatype Notice = Cut(from: Direction, omitted: nat, total: nat, preview: string)

  function Texts(parts: seq<ContentPart>): seq<string> {
    if parts == [] then []
    else (if parts[0].TextPart? then [parts[0].text] else []) + Texts(parts[1..])
  }

  function Others(parts: seq<ContentPart>): seq<ContentPart> {
    if parts == [] then []
    else (if parts[0].TextPart? then [] else [parts[0]]) + Others(parts[1..])
  }

  function IndexOf(s: string, c: char): (at: nat)
    ensures at <= |s| && (at < |s| ==> s[at] == c) && forall i | 0 <= i < at :: s[i] != c
  {
    if s == "" || s[0] == c then 0 else 1 + IndexOf(s[1..], c)
  }

  function StripCarriageReturn(line: string): string {
    if line != "" && line[|line| - 1] == '\r' then line[..|line| - 1] else line
  }

  /** `str::lines`: a line ends at a newline, with a carriage return before it; the last may lack one. */
  function Lines(s: string): seq<string>
    decreases |s|
  {
    if s == "" then []
    else
      var at := IndexOf(s, '\n');
      if at == |s| then [s] else [StripCarriageReturn(s[..at])] + Lines(s[at + 1..])
  }

  const PARTIAL := "[partial line]"

  function MarkedHead(line: string, maxBytes: nat): string {
    SampleLineHead(line, maxBytes) + ("\n" + PARTIAL)
  }

  function MarkedTail(line: string, maxBytes: nat): string {
    PARTIAL + "\n" + SampleLineTail(line, maxBytes)
  }

  /** The preview keeps the most lines of its end that fit, or a sample of the one line that does
      not; what it omits is counted. */
  ghost predicate Previews(lines: seq<string>, maxLines: nat, maxBytes: nat, notice: Notice) {
    && notice.total == |lines| && notice.omitted <= |lines|
    && var kept := |lines| - notice.omitted;
    match notice.from
    case Head =>
      && Fits(lines, maxLines, maxBytes, kept)
      && (forall n: nat :: Fits(lines, maxLines, maxBytes, n) ==> n <= kept)
      && notice.preview == if kept == 0 && lines != [] then MarkedHead(lines[0], maxBytes) else Join(lines[..kept])
    case Tail =>
      && FitsTail(lines, maxLines, maxBytes, kept)
      && (forall n: nat :: FitsTail(lines, maxLines, maxBytes, n) ==> n <= kept)
      && notice.preview == if kept == 0 && lines != [] then MarkedTail(lines[|lines| - 1], maxBytes)
                           else Join(lines[notice.omitted..])
  }

  method PreviewHead(lines: seq<string>, maxLines: nat, maxBytes: nat) returns (notice: Notice)
    ensures notice.from == Head && Previews(lines, maxLines, maxBytes, notice)
  {
    var kept := CollectHead(lines, maxLines, maxBytes);
    assert kept == lines[..|kept|];
    var preview := if kept == [] && lines != [] then MarkedHead(lines[0], maxBytes) else Join(kept);
    notice := Cut(Head, |lines| - |kept|, |lines|, preview);
  }

  method PreviewTail(lines: seq<string>, maxLines: nat, maxBytes: nat) returns (notice: Notice)
    ensures notice.from == Tail && Previews(lines, maxLines, maxBytes, notice)
  {
    var kept := CollectTail(lines, maxLines, maxBytes);
    var preview := if kept == [] && lines != [] then MarkedTail(lines[|lines| - 1], maxBytes) else Join(kept);
    notice := Cut(Tail, |lines| - |kept|, |lines|, preview);
  }

  /** Output within both limits stays as it is; otherwise one notice with a preview takes the place of
      all text, before the other parts in their order. */
  method TruncateForTool(content: seq<ContentPart>, maxLines: nat, maxBytes: nat, from: Direction,
                         wording: Notice -> string)
    returns (result: seq<ContentPart>)
    ensures var full := Join(Texts(content)); var lines := Lines(full);
            if |lines| <= maxLines && Bytes(full) <= maxBytes then result == content
            else exists notice :: Previews(lines, maxLines, maxBytes, notice)
                                  && notice.from == from && result == [TextPart(wording(notice))] + Others(content)
  {
    var full := Join(Texts(content));
    var lines := Lines(full);
    if |lines| <= maxLines && Bytes(full) <= maxBytes {
      return content;
    }
    var notice;
    match from {
      case Head => notice := PreviewHead(lines, maxLines, maxBytes);
      case Tail => notice := PreviewTail(lines, maxLines, maxBytes);
    }
    result := [TextPart(wording(notice))] + Others(content);
  }

  /** Whole lines shown are within the byte budget; a sample is, but for its marker. */
  lemma {:induction false} PreviewIsBounded(lines: seq<string>, maxLines: nat, maxBytes: nat, notice: Notice)
    requires Previews(lines, maxLines, maxBytes, notice)
    ensures Bytes(notice.preview)
            <= maxBytes + if notice.omitted == |lines| && lines != [] then Bytes("\n" + PARTIAL) else 0
  {
    var kept := |lines| - notice.omitted;
    if kept == 0 && lines != [] {
      if notice.from.Head? {
        HeadSampleIsLongest(lines[0], maxBytes);
        BytesAppend(SampleLineHead(lines[0], maxBytes), "\n" + PARTIAL);
      } else {
        TailSampleIsLongest(lines[|lines| - 1], maxBytes);
        Swapped(PARTIAL, "\n", SampleLineTail(lines[|lines| - 1], maxBytes));
      }
    } else if notice.from.Head? {
      JoinedBytesIsSize(lines[..kept]);
    } else {
      JoinedBytesIsSize(lines[notice.omitted..]);
    }
  }

  lemma Swapped(a: string, b: string, sample: string)
    ensures Bytes(a + b + sample) == Bytes(sample) + Bytes(b + a)
  {
    BytesAppend(a + b, sample);
    BytesAppend(a, b);
    BytesAppend(b, a);
  }

  // --- Lines and parts, piece by piece ------------------------------------------------------------------

  lemma {:induction false} FirstNewline(line: string, rest: string)
    requires '\n' !in line
    ensures IndexOf(line + "\n" + rest, '\n') == |line|
    decreases |line|
  {
    var s := line + "\n" + rest;
    if line != "" {
      assert s[0] == line[0] && line[0] in line && s[1..] == line[1..] + "\n" + rest;
      FirstNewline(line[1..], rest);
    }
  }

  lemma {:induction false} NoNewline(line: string)
    requires '\n' !in line
    ensures IndexOf(line, '\n') == |line|
    decreases |line|
  {
    if line != "" {
      assert line[0] in line;
      NoNewline(line[1..]);
    }
  }

  /** A line ends at its newline; a carriage return right before that belongs to the ending. */
  lemma LineByLine(line: string, rest: string)
    requires '\n' !in line && (line == "" || line[|line| - 1] != '\r')
    ensures Lines(line + "\n" + rest) == [line] + Lines(rest)
    ensures Lines(line + "\r\n" + rest) == [line] + Lines(rest)
    ensures line != "" ==> Lines(line) == [line]
  {
    FirstNewline(line, rest);
    var s := line + "\n" + rest;
    assert s[..|line|] == line && s[|line| + 1..] == rest;
    CarriageLine(line, rest);
    NoNewline(line);
  }

  lemma CarriageLine(line: string, rest: string)
    requires '\n' !in line
    ensures Lines(line + "\r\n" + rest) == [line] + Lines(rest)
  {
    var with := line + "\r";
    var s := line + "\r\n" + rest;
    assert s == with + "\n" + rest;
    FirstNewline(with, rest);
    assert s[..|with|] == with && s[|with| + 1..] == rest && with[..|line|] == line;
  }

  lemma JoinedFirst(first: string, rest: seq<string>)
    ensures Join([first] + rest) == if rest == [] then first else first + "\n" + Join(rest)
    ensures Lines("") == []
  {
    assert ([first] + rest)[1..] == rest;
  }

  /** Reading the lines of joined lines gives them back; a newline at the very end adds none. */
  lemma {:induction false} LinesOfJoined(lines: seq<string>)
    requires lines != [] && lines[|lines| - 1] != ""
    requires forall l <- lines :: '\n' !in l && (l == "" || l[|l| - 1] != '\r')
    ensures Lines(Join(lines)) == lines && Lines(Join(lines) + "\n") == lines
    decreases |lines|
  {
    hide Lines, Join;
    var first, rest := lines[0], lines[1..];
    assert lines == [first] + rest && first in lines;
    JoinedFirst(first, rest);
    if rest == [] {
      LineByLine(first, "");
      assert first + "\n" + "" == first + "\n";
    } else {
      LinesOfJoined(rest);
      LineByLine(first, Join(rest));
      LineByLine(first, Join(rest) + "\n");
      assert first + "\n" + (Join(rest) + "\n") == first + "\n" + Join(rest) + "\n";
    }
  }

  /** The other parts stay, all of them and in their order. */
  lemma {:induction false} OthersStay(a: seq<ContentPart>, part: ContentPart, b: seq<ContentPart>)
    ensures Others(a + [part] + b) == Others(a) + (if part.OtherPart? then [part] else []) + Others(b)
    ensures Others([]) == []
    decreases |a|
  {
    var all := a + [part] + b;
    if a == [] {
      assert all[0] == part && all[1..] == b;
    } else {
      assert all[0] == a[0] && all[1..] == a[1..] + [part] + b;
      OthersStay(a[1..], part, b);
    }
  }

  /** So do the texts that are joined. */
  lemma {:induction false} TextsStay(a: seq<ContentPart>, part: ContentPart, b: seq<ContentPart>)
    ensures Texts(a + [part] + b) == Texts(a) + (if part.TextPart? then [part.text] else []) + Texts(b)
    ensures Texts([]) == []
    decreases |a|
  {
    var all := a + [part] + b;
    if a == [] {
      assert all[0] == part && all[1..] == b;
    } else {
      assert all[0] == a[0] && all[1..] == a[1..] + [part] + b;
      TextsStay(a[1..], part, b);
    }
  }

  /** A first or last line that alone does not fit is shown as its longest fitting end, marked. */
  lemma OversizedLineIsSampled(lines: seq<string>, maxLines: nat, maxBytes: nat, notice: Notice)
    requires Previews(lines, maxLines, maxBytes, notice) && notice.omitted == |lines| && lines != []
    ensures match notice.from
            case Head =>
              exists n: nat ::
                && n <= |lines[0]| && notice.preview == lines[0][..n] + "\n[partial line]"
                && Bytes(lines[0][..n]) <= maxBytes
                && forall m: nat :: n < m <= |lines[0]| ==> Bytes(lines[0][..m]) > maxBytes
            case Tail =>
              var line := lines[|lines| - 1];
              exists n: nat ::
                && n <= |line| && notice.preview == "[partial line]\n" + Suffix(line, n)
                && Bytes(Suffix(line, n)) <= maxBytes
                && forall m: nat :: n < m <= |line| ==> Bytes(Suffix(line, m)) > maxBytes
  {
    match notice.from {
      case Head =>
        HeadSampleIsLongest(lines[0], maxBytes);
        var head := SampleLineHead(lines[0], maxBytes);
        assert lines[0][..|head|] == head;
      case Tail =>
        var line := lines[|lines| - 1];
        TailSampleIsLongest(line, maxBytes);
        var tail := SampleLineTail(line, maxBytes);
        assert Suffix(line, |tail|) == tail;
    }
  }
}
