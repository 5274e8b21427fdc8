/**
 * Wrapping of long code lines in scripts/pump.py.
 *
 * `WrapCode` may run forever. The method here returns `false` exactly where the
 * program would not return, and `Wrappable` says which lines those are.
 */
module PumpWrap {
  import opened Sequences
  import opened PumpText

  const COLUMNS := 80

  // ---- Segments: pieces of a line that end at a comma or semicolon ----------

  predicate IsSeparator(c: char) {
    c == ',' || c == ';'
  }

  /** How many leading characters are separators (`sep`) or are not. */
  function Run(s: string, sep: bool): (n: nat)
    ensures n <= |s|
    ensures forall i :: 0 <= i < n ==> IsSeparator(s[i]) == sep
    ensures n < |s| ==> IsSeparator(s[n]) != sep
  {
    if s == "" || IsSeparator(s[0]) != sep then 0 else 1 + Run(s[1..], sep)
  }

  function SegmentLength(s: string): (n: nat)
    requires s != ""
    ensures 0 < n <= |s|
  {
    if IsSeparator(s[0]) then Run(s, true)
    else if Run(s, false) < |s| then Run(s, false) + 1 else |s|
  }

  /** The non-empty results of splitting around `[^,;]+[,;]?`. */
  function Segments(s: string): seq<string> {
    if s == "" then [] else [s[..SegmentLength(s)]] + Segments(s[SegmentLength(s)..])
  }

  function Concat(ss: seq<string>): string {
    if ss == [] then "" else ss[0] + Concat(ss[1..])
  }

  predicate EndsInInk(s: string) {
    s != "" && !IsSpace(s[|s| - 1])
  }

  lemma SegmentEnds(s: string)
    requires EndsInInk(s)
    ensures var n := SegmentLength(s); EndsInInk(s[..n]) && (n < |s| ==> EndsInInk(s[n..]))
  {
    var n := SegmentLength(s);
    assert n < |s| ==> IsSeparator(s[n - 1]);
    assert s[..n][n - 1] == s[n - 1];
  }

  lemma {:induction false} SegmentsPartition(s: string)
    ensures Concat(Segments(s)) == s
    ensures if s == "" then Segments(s) == [] else Segments(s) != [] && Segments(s)[0] == s[..SegmentLength(s)]
    decreases |s|
  {
    if s != "" {
      var n := SegmentLength(s);
      SegmentsPartition(s[n..]);
      assert s[..n] + s[n..] == s;
      assert Segments(s)[1..] == Segments(s[n..]);
    }
  }

  /** Commas and semicolons only, or one of them at the end at most, which all but the last piece have. */
  predicate IsSegment(piece: string, isLast: bool) {
    && piece != ""
    && if piece[0] == ',' || piece[0] == ';' then forall i :: 0 <= i < |piece| ==> piece[i] == ',' || piece[i] == ';'
       else
         && (forall i :: 0 <= i < |piece| - 1 ==> piece[i] != ',' && piece[i] != ';')
         && (!isLast ==> piece[|piece| - 1] == ',' || piece[|piece| - 1] == ';')
  }

  lemma FirstSegmentIs(s: string)
    requires s != ""
    ensures IsSegment(s[..SegmentLength(s)], SegmentLength(s) == |s|)
  {
    var n := SegmentLength(s);
    var piece := s[..n];
    assert forall i :: 0 <= i < n ==> piece[i] == s[i];
    assert !IsSeparator(s[0]) ==> n == |s| || IsSeparator(s[n - 1]);
  }

  /** A line is cut behind every comma or semicolon, or run of them, and nowhere else. */
  lemma {:induction false} SegmentsAre(s: string, k: nat)
    requires k < |Segments(s)|
    ensures IsSegment(Segments(s)[k], k == |Segments(s)| - 1)
    decreases k
  {
    var n := SegmentLength(s);
    SegmentsPartition(s[n..]);
    assert s[n..] == "" <==> n == |s|;
    FirstSegmentIs(s);
    hide IsSegment, SegmentLength;
    if k > 0 {
      SegmentsAre(s[n..], k - 1);
    }
  }

  lemma {:induction false} SegmentsInked(s: string, k: nat)
    requires EndsInInk(s) && k < |Segments(s)|
    ensures EndsInInk(Segments(s)[k])
    decreases k
  {
    SegmentEnds(s);
    if k > 0 {
      SegmentsInked(s[SegmentLength(s)..], k - 1);
    }
  }

  // ---- Ink: the characters of a string that are not white space -------------

  function Ink(s: string): string {
    if s == "" then "" else (if IsSpace(s[0]) then "" else [s[0]]) + Ink(s[1..])
  }

  lemma {:induction false} InkConcat(s: string, t: string)
    ensures Ink(s + t) == Ink(s) + Ink(t)
    decreases |s|
  {
    if s == "" {
      assert s + t == t;
    } else {
      InkConcat(s[1..], t);
      assert (s + t)[1..] == s[1..] + t;
      hide IsSpace;
      Assoc(if IsSpace(s[0]) then "" else [s[0]], Ink(s[1..]), Ink(t));
    }
  }

  lemma {:induction false} InkBlank(s: string)
    requires Blank(s)
    ensures Ink(s) == ""
    decreases |s|
  {
    if s != "" {
      InkBlank(s[1..]);
    }
  }

  lemma {:induction false} InkLStrip(s: string)
    ensures Ink(LStrip(s)) == Ink(s)
    decreases |s|
  {
    if s != "" && IsSpace(s[0]) {
      InkLStrip(s[1..]);
    }
  }

  lemma {:induction false} InkRStrip(s: string)
    ensures Ink(RStrip(s)) == Ink(s)
    decreases |s|
  {
    if s != "" && IsSpace(s[|s| - 1]) {
      InkRStrip(s[..|s| - 1]);
      InkConcat(s[..|s| - 1], [s[|s| - 1]]);
      assert s[..|s| - 1] + [s[|s| - 1]] == s;
    }
  }

  lemma InkStrip(s: string)
    ensures Ink(Strip(s)) == Ink(s)
  {
    InkLStrip(s);
    InkRStrip(LStrip(s));
  }

  lemma {:induction false} LStripInked(s: string)
    requires EndsInInk(s)
    ensures EndsInInk(LStrip(s)) && Strip(s) == LStrip(s)
    decreases |s|
  {
    if IsSpace(s[0]) {
      LStripInked(s[1..]);
    }
  }

  lemma {:induction false} RStripShift(s: string)
    requires s != ""
    ensures |RStrip(s[1..])| <= |RStrip(s)|
    decreases |s|
  {
    if |s| > 1 && IsSpace(s[|s| - 1]) {
      RStripShift(s[..|s| - 1]);
      assert s[..|s| - 1][1..] == s[1..][..|s| - 2];
    }
  }

  lemma {:induction false} StripShorter(s: string)
    ensures |Strip(s)| <= |RStrip(s)| <= |s|
    decreases |s|
  {
    if s != "" && IsSpace(s[0]) {
      StripShorter(s[1..]);
      RStripShift(s);
    }
  }

  /** A non-blank stripped string starts and ends with ink. */
  lemma {:induction false} StripEnds(s: string)
    ensures Strip(s) != "" ==> EndsInInk(Strip(s)) && !IsSpace(Strip(s)[0])
  {
    RStripKeepsHead(LStrip(s));
  }

  lemma {:induction false} RStripKeepsHead(s: string)
    ensures RStrip(s) != "" ==> RStrip(s)[0] == s[0]
    decreases |s|
  {
    if s != "" && IsSpace(s[|s| - 1]) {
      RStripKeepsHead(s[..|s| - 1]);
    }
  }

  // ---- The splitting loop ---------------------------------------------------

  /** `len` characters seen through Python's slice bound `end`. */
  function Clip(len: nat, end: int): (n: nat)
    ensures n <= len
  {
    if end > len then len else if end >= 0 then end else if len + end >= 0 then len + end else 0
  }

  /** `s.rfind(' ', 0, end)`. */
  function RFindSpace(s: string, end: int): (at: int)
    ensures -1 <= at < Clip(|s|, end)
    ensures at >= 0 ==> s[at] == ' '
    ensures forall j :: at < j < Clip(|s|, end) ==> s[j] != ' '
  {
    LastSpace(s, Clip(|s|, end))
  }

  function LastSpace(s: string, n: nat): (at: int)
    requires n <= |s|
    ensures -1 <= at < n
    ensures at >= 0 ==> s[at] == ' '
    ensures forall j :: at < j < n ==> s[j] != ' '
  {
    if n == 0 then -1 else if s[n - 1] == ' ' then n - 1 else LastSpace(s, n - 1)
  }

  /** What one turn of the loop leaves of `seg`; all of it when no space is found. */
  function Remainder(seg: string, width: int): string {
    var s := LStrip(seg);
    s[RFindSpace(s, width) + 1..]
  }

  predicate TooLong(seg: string, width: int) {
    |Strip(seg)| > width
  }

  /** The loop, started at `width` and continued at `next`, ends within `turns` turns. */
  predicate EndsWithin(seg: string, width: int, next: int, turns: nat)
    decreases turns
  {
    !TooLong(seg, width) || (turns > 0 && EndsWithin(Remainder(seg, width), next, next, turns - 1))
  }

  ghost predicate Ends(seg: string, width: int, next: int) {
    exists turns: nat :: EndsWithin(seg, width, next, turns)
  }

  lemma EndsUnfolds(seg: string, width: int, next: int)
    ensures Ends(seg, width, next) <==> !TooLong(seg, width) || Ends(Remainder(seg, width), next, next)
  {
    if !TooLong(seg, width) {
      assert EndsWithin(seg, width, next, 0);
    } else {
      forall turns: nat | EndsWithin(seg, width, next, turns) ensures Ends(Remainder(seg, width), next, next) {
        assert EndsWithin(Remainder(seg, width), next, next, turns - 1);
      }
      forall turns: nat | EndsWithin(Remainder(seg, width), next, next, turns) ensures Ends(seg, width, next) {
        assert EndsWithin(seg, width, next, turns + 1);
      }
    }
  }

  lemma RemainderInked(seg: string, width: int)
    requires EndsInInk(seg)
    ensures EndsInInk(Remainder(seg, width))
  {
    LStripInked(seg);
    var s := LStrip(seg);
    var at := RFindSpace(s, width);
    assert at >= 0 ==> s[at] == ' ';
    assert s[at + 1..][|s| - at - 2] == s[|s| - 1];
  }

  /** With no room on a continuation line the loop never ends. */
  lemma {:induction false} NoRoomNeverEnds(seg: string, width: int, next: int, turns: nat)
    requires EndsInInk(seg) && TooLong(seg, width) && next <= 0
    ensures !EndsWithin(seg, width, next, turns)
    decreases turns
  {
    var rest := Remainder(seg, width);
    RemainderInked(seg, width);
    LStripInked(rest);
    if turns > 0 {
      NoRoomNeverEnds(rest, next, next, turns - 1);
    }
  }

  /** With no space in the window the loop spins in place. */
  lemma {:induction false} NoSpaceNeverEnds(seg: string, width: int, next: int, turns: nat)
    requires EndsInInk(seg) && TooLong(seg, width) && 0 < next <= width
    requires RFindSpace(LStrip(seg), width) == -1
    ensures !EndsWithin(seg, width, next, turns)
    decreases turns
  {
    var s := LStrip(seg);
    LStripInked(seg);
    LStripInked(s);
    assert Remainder(seg, width) == s[0..] == s;
    if turns > 0 {
      NoSpaceNeverEnds(s, next, next, turns - 1);
    }
  }

  /** Only white space lies between position `i` and the start of the string or a space before it. */
  predicate LineMayStart(s: string, i: nat)
    requires i <= |s|
  {
    i == 0 || s[i - 1] == ' ' || (IsSpace(s[i - 1]) && LineMayStart(s, i - 1))
  }

  predicate SpaceFree(s: string, lo: nat, hi: nat)
    requires lo <= hi <= |s|
  {
    forall j :: lo <= j < hi ==> s[j] != ' '
  }

  /** A word starts at `i` that fills a whole line of the given width and goes on, or is followed by more. */
  predicate StuckAt(s: string, i: nat, width: nat) {
    && i + width < |s|
    && !IsSpace(s[i])
    && LineMayStart(s, i)
    && SpaceFree(s, i, i + width)
  }

  predicate Breakable(s: string, width: nat) {
    forall i: nat :: i < |s| ==> !StuckAt(s, i, width)
  }

  lemma SpaceFreeShifts(s: string, k: nat, lo: nat, hi: nat)
    requires k <= |s| && lo <= hi <= |s| - k
    ensures SpaceFree(s, lo + k, hi + k) == SpaceFree(s[k..], lo, hi)
  {
    if SpaceFree(s[k..], lo, hi) {
      forall j | lo + k <= j < hi + k ensures s[j] != ' ' {
        assert s[k..][j - k] == s[j];
      }
    }
  }

  /** Cutting a string where a line may start leaves the later line starts in place. */
  lemma {:induction false} LineStartShifts(s: string, k: nat, i: nat)
    requires k <= |s| && i <= |s| - k && LineMayStart(s, k)
    ensures LineMayStart(s, k + i) == LineMayStart(s[k..], i)
    decreases i
  {
    if i > 0 {
      LineStartShifts(s, k, i - 1);
    }
  }

  lemma StuckShifts(s: string, k: nat, i: nat, width: nat)
    requires k <= |s| && i < |s| - k && LineMayStart(s, k)
    ensures StuckAt(s, k + i, width) == StuckAt(s[k..], i, width)
  {
    LineStartShifts(s, k, i);
    if i + width < |s| - k {
      SpaceFreeShifts(s, k, i, i + width);
    }
  }

  /** Cutting there, with no sticking point before the cut, keeps the string breakable or not. */
  lemma BreakableShifts(s: string, k: nat, width: nat)
    requires k <= |s| && LineMayStart(s, k)
    requires forall i: nat :: i < k ==> !StuckAt(s, i, width)
    ensures Breakable(s, width) <==> Breakable(s[k..], width)
  {
    forall i: nat | i < |s| - k ensures StuckAt(s, k + i, width) == StuckAt(s[k..], i, width) {
      StuckShifts(s, k, i, width);
    }
    forall i: nat | k <= i < |s| ensures StuckAt(s, i, width) == StuckAt(s[k..], i - k, width) {
      StuckShifts(s, k, i - k, width);
    }
  }

  /** Dropping leading white space does not change where a line gets stuck. */
  lemma {:induction false} BreakableLStrip(s: string, width: nat)
    ensures Breakable(s, width) <==> Breakable(LStrip(s), width)
    decreases |s|
  {
    if s != "" && IsSpace(s[0]) {
      assert LineMayStart(s, 1) by { assert LineMayStart(s, 0); }
      BreakableShifts(s, 1, width);
      BreakableLStrip(s[1..], width);
    }
  }

  /** Splitting at the last space of the first window passes over no sticking point. */
  lemma BreakableSplit(s: string, width: nat)
    requires 0 < width < |s| && RFindSpace(s, width) >= 0
    ensures Breakable(s, width) <==> Breakable(s[RFindSpace(s, width) + 1..], width)
  {
    var at := RFindSpace(s, width);
    forall i: nat | i < at + 1 ensures !StuckAt(s, i, width) {
      assert s[at] == ' ';
    }
    BreakableShifts(s, at + 1, width);
  }

  lemma StuckNeverEnds(seg: string, width: int, next: int)
    requires EndsInInk(seg) && TooLong(seg, width)
    requires next <= 0 || (next <= width && RFindSpace(LStrip(seg), width) == -1)
    ensures !Ends(seg, width, next)
  {
    forall turns: nat ensures !EndsWithin(seg, width, next, turns) {
      if next <= 0 {
        NoRoomNeverEnds(seg, width, next, turns);
      } else {
        NoSpaceNeverEnds(seg, width, next, turns);
      }
    }
  }

  /** Breakability follows the loop: it holds at the end, fails when stuck, and survives a turn. */
  lemma BreakableFollows(seg: string, next: int)
    requires EndsInInk(seg) && next > 0
    ensures !TooLong(seg, next) ==> Breakable(seg, next)
    ensures TooLong(seg, next) && RFindSpace(LStrip(seg), next) == -1 ==> !Breakable(seg, next)
    ensures TooLong(seg, next) && RFindSpace(LStrip(seg), next) != -1 ==>
      (Breakable(seg, next) <==> Breakable(Remainder(seg, next), next))
  {
    var s := LStrip(seg);
    LStripInked(seg);
    BreakableLStrip(seg, next);
    if TooLong(seg, next) {
      if RFindSpace(s, next) == -1 {
        assert LineMayStart(s, 0);
        assert StuckAt(s, 0, next);
      } else {
        BreakableSplit(s, next);
      }
    }
  }

  /** On continuation lines, the loop ends exactly on breakable text. */
  lemma {:induction false} ContinuationEndsIff(seg: string, next: int)
    requires EndsInInk(seg) && next > 0
    ensures Ends(seg, next, next) <==> Breakable(seg, next)
    decreases |seg|
  {
    BreakableFollows(seg, next);
    if !TooLong(seg, next) {
      EndsUnfolds(seg, next, next);
    } else if RFindSpace(LStrip(seg), next) == -1 {
      StuckNeverEnds(seg, next, next);
    } else {
      EndsUnfolds(seg, next, next);
      RemainderInked(seg, next);
      ContinuationEndsIff(Remainder(seg, next), next);
    }
  }

  /** When the splitting loop returns on a segment that starts with ink. */
  predicate Splittable(seg: string, width: int) {
    var next := width - 4;
    |seg| <= width ||
    (next > 0 && var at := RFindSpace(seg, width); at >= 0 && Breakable(seg[at + 1..], next))
  }

  lemma SplitEndsIff(seg: string, width: int)
    requires EndsInInk(seg) && !IsSpace(seg[0])
    ensures Ends(seg, width, width - 4) <==> Splittable(seg, width)
  {
    var next := width - 4;
    LStripInked(seg);
    assert LStrip(seg) == seg;
    EndsUnfolds(seg, width, next);
    hide LStrip, RStrip, Ends, Breakable, Clip, LastSpace, IsSpace;
    if |seg| > width {
      if next <= 0 || RFindSpace(seg, width) == -1 {
        StuckNeverEnds(seg, width, next);
      } else {
        RemainderInked(seg, width);
        ContinuationEndsIff(Remainder(seg, width), next);
      }
    }
  }

  // ---- Wrapping a line ------------------------------------------------------

  function Indent(line: string): nat {
    |line| - |LStrip(line)|
  }

  /** The indentation is the white space before the first ink. */
  lemma {:induction false} IndentIsBlank(line: string)
    ensures Indent(line) <= |line| && Blank(line[..Indent(line)]) && LStrip(line) == line[Indent(line)..]
    ensures Indent(line) < |line| ==> !IsSpace(line[Indent(line)])
    decreases |line|
  {
    if line != "" && IsSpace(line[0]) {
      IndentIsBlank(line[1..]);
      var n := Indent(line[1..]);
      assert Indent(line) == n + 1 && line[1..][n..] == line[n + 1..];
      forall i | 0 <= i < n + 1 ensures IsSpace(line[i]) {
        assert i > 0 ==> line[1..][..n][i - 1] == line[i];
      }
    } else {
      assert line[0..] == line;
    }
  }

  function FirstWidth(line: string, lineConcat: string): int {
    COLUMNS - Indent(line) - |lineConcat|
  }

  function Spaces(n: nat): (s: string)
    ensures |s| == n && Blank(s)
  {
    seq(n, _ => ' ')
  }

  /** Exactly the lines on which the program returns: only the first segment is ever split. */
  predicate Wrappable(line: string, lineConcat: string) {
    Strip(line) == "" || Splittable(Segments(Strip(line))[0], FirstWidth(line, lineConcat))
  }

  predicate SolidWindow(s: string, i: nat, width: nat) {
    i + width <= |s| && SpaceFree(s, i, i + width)
  }

  predicate SpaceInEveryWindow(s: string, width: nat) {
    forall i: nat :: i <= |s| ==> !SolidWindow(s, i, width)
  }

  lemma WindowsOfPart(s: string, lo: nat, hi: nat, width: nat)
    requires lo <= hi <= |s| && SpaceInEveryWindow(s, width)
    ensures SpaceInEveryWindow(s[lo..hi], width)
  {
    forall i: nat | i <= hi - lo && i + width <= hi - lo ensures !SolidWindow(s[lo..hi], i, width) {
      assert !SolidWindow(s, lo + i, width);
      var j :| lo + i <= j < lo + i + width && s[j] == ' ';
      assert s[lo..hi][j - lo] == ' ';
    }
  }

  /** A line with a space in every window as wide as a continuation line is wrappable. */
  lemma SpacedLinesWrap(line: string, lineConcat: string)
    requires FirstWidth(line, lineConcat) > 4
    requires SpaceInEveryWindow(Strip(line), FirstWidth(line, lineConcat) - 4)
    ensures Wrappable(line, lineConcat)
  {
    hide Strip, Segments, LastSpace, LineMayStart;
    var s, width := Strip(line), FirstWidth(line, lineConcat);
    var next := width - 4;
    SegmentsPartition(s);
    if s != "" && |Segments(s)[0]| > width {
      var seg := Segments(s)[0];
      WindowsOfPart(s, 0, SegmentLength(s), next);
      assert !SolidWindow(seg, 0, next);
      var at := RFindSpace(seg, width);
      WindowsOfPart(seg, at + 1, |seg|, next);
      var rest := seg[at + 1..];
      assert seg[at + 1..|seg|] == rest;
      forall i: nat | i < |rest| ensures !StuckAt(rest, i, next) {
        assert !SolidWindow(rest, i, next);
      }
    }
  }

  /** A line of `n` characters with no space and no separator is one segment. */
  lemma {:induction false} OneWord(line: string)
    requires line != "" && forall i :: 0 <= i < |line| ==> line[i] == 'x'
    ensures Strip(line) == line && Segments(line) == [line]
  {
    assert SegmentLength(line) == |line|;
    assert line[..|line|] == line;
    assert Segments(line[|line|..]) == [];
  }

  /** 81 characters without a space: the program never returns on them. */
  lemma UnbreakableLine(line: string)
    requires |line| == 81 && forall i :: 0 <= i < |line| ==> line[i] == 'x'
    ensures Strip(line) == line && Segments(line) == [line]
    ensures !Wrappable(line, "") && !Ends(line, 80, 76)
  {
    OneWord(line);
    assert FirstWidth(line, "") == 80 by {
      hide Strip, Segments;
      assert LStrip(line) == line;
    }
    assert EndsInInk(line) && !IsSpace(line[0]);
    SolidWord(line);
    hide *;
    NotWrappable(line);
  }

  lemma NotWrappable(line: string)
    requires Strip(line) == line != "" && Segments(line) == [line] && FirstWidth(line, "") == 80
      && !Splittable(line, 80)
    ensures !Wrappable(line, "")
  {
    hide Strip, Segments, Splittable, FirstWidth;
  }

  /** A word too long for the first line is never split. */
  lemma SolidWord(seg: string)
    requires |seg| > 80 && EndsInInk(seg) && !IsSpace(seg[0]) && SpaceFree(seg, 0, |seg|)
    ensures !Splittable(seg, 80) && !Ends(seg, 80, 76)
  {
    SplitEndsIff(seg, 80);
    hide Ends, LastSpace, IsSpace, Breakable;
    assert RFindSpace(seg, 80) == -1;
  }

  /** What the splitting loop leaves of a segment, and the width it leaves it at. */
  function Leftover(seg: string, width: int, next: int): (string, int)
    decreases |seg|
  {
    if !TooLong(seg, width) || RFindSpace(LStrip(seg), width) < 0 then (seg, width)
    else Leftover(Remainder(seg, width), next, next)
  }

  /** The pieces that must fit a line without further splitting do. */
  predicate PiecesFit(line: string, lineConcat: string) {
    var segs := Segments(Strip(line));
    var width := FirstWidth(line, lineConcat);
    && (forall k :: 1 <= k < |segs| ==> |Strip(segs[k])| < width - 4)
    && (segs != [] ==> var (rest, w) := Leftover(segs[0], width, width - 4); |RStrip(rest)| < w)
  }

  /** Segments that are all shorter than a continuation line fit, and then the program returns. */
  lemma ShortSegmentsFit(line: string, lineConcat: string)
    requires forall k :: 0 <= k < |Segments(Strip(line))| ==>
      |Segments(Strip(line))[k]| < FirstWidth(line, lineConcat) - 4
    ensures PiecesFit(line, lineConcat) && Wrappable(line, lineConcat)
  {
    var segs := Segments(Strip(line));
    SegmentsPartition(Strip(line));
    hide Strip, RStrip, Segments, Breakable;
    forall k | 0 <= k < |segs| ensures |Strip(segs[k])| <= |segs[k]| && |RStrip(segs[k])| <= |segs[k]| {
      StripShorter(segs[k]);
    }
  }

  /** The texts of continued lines, without their line continuations. */
  function Bodies(lines: seq<string>, lineConcat: string): string
    requires forall k :: 0 <= k < |lines| ==> |lineConcat| <= |lines[k]|
  {
    if lines == [] then ""
    else Bodies(lines[..|lines| - 1], lineConcat) + lines[|lines| - 1][..|lines[|lines| - 1]| - |lineConcat|]
  }

  predicate Continued(lines: seq<string>, lineConcat: string) {
    forall k :: 0 <= k < |lines| ==>
      |lineConcat| <= |lines[k]| && lines[k][|lines[k]| - |lineConcat|..] == lineConcat
  }

  lemma BodiesAppend(lines: seq<string>, text: string, lineConcat: string)
    requires Continued(lines, lineConcat)
    ensures Continued(lines + [text + lineConcat], lineConcat)
    ensures Ink(Bodies(lines + [text + lineConcat], lineConcat)) == Ink(Bodies(lines, lineConcat)) + Ink(text)
  {
    hide Ink;
    var all := lines + [text + lineConcat];
    assert all[..|all| - 1] == lines;
    assert (text + lineConcat)[..|text|] == text;
    InkConcat(Bodies(lines, lineConcat), text);
  }

  lemma InkIndented(n: nat, s: string)
    ensures Ink(Spaces(n) + s) == Ink(s)
  {
    InkConcat(Spaces(n), s);
    InkBlank(Spaces(n));
  }

  class Lines {
    var lines: seq<string>

    constructor ()
      ensures lines == []
    {
      lines := [];
    }

    method Append(line: string)
      modifies this
      ensures lines == old(lines) + [line]
    {
      lines := lines + [line];
    }
  }

  /** A line that starts with `n` spaces, continued. */
  function ContinuedLine(n: nat, text: string, lineConcat: string): (line: string)
    ensures |line| == n + |text| + |lineConcat|
  {
    Spaces(n) + text + lineConcat
  }

  lemma BodiesGrow(lines: seq<string>, n: nat, text: string, lineConcat: string)
    requires Continued(lines, lineConcat)
    ensures Continued(lines + [ContinuedLine(n, text, lineConcat)], lineConcat)
    ensures Ink(Bodies(lines + [ContinuedLine(n, text, lineConcat)], lineConcat)) ==
      Ink(Bodies(lines, lineConcat)) + Ink(text)
  {
    BodiesAppend(lines, Spaces(n) + text, lineConcat);
    InkIndented(n, text);
  }

  /** One split of a segment loses no ink: the dropped character is a space. */
  lemma SplitKeepsInk(seg: string, at: nat)
    requires at < |LStrip(seg)| && LStrip(seg)[at] == ' '
    ensures Ink(Strip(LStrip(seg)[..at])) + Ink(LStrip(seg)[at + 1..]) == Ink(seg)
  {
    var s := LStrip(seg);
    InkLStrip(seg);
    InkStrip(s[..at]);
    InkConcat(s[..at], s[at..]);
    InkConcat([' '], s[at + 1..]);
    assert s[..at] + s[at..] == s && [' '] + s[at + 1..] == s[at..];
    assert Ink(" ") == "";
  }

  predicate Under80(lines: seq<string>) {
    forall k :: 0 <= k < |lines| ==> |lines[k]| < COLUMNS
  }

  lemma Under80More(lines: seq<string>, line: string)
    requires Under80(lines) && |line| < COLUMNS
    ensures Under80(lines + [line])
  {
  }

  /** Added lines are all continued, and with `left` they hold the ink of `whole`. */
  predicate Holds(whole: string, lineConcat: string, added: seq<string>, left: string) {
    Continued(added, lineConcat) && Ink(Bodies(added, lineConcat)) + Ink(left) == Ink(whole)
  }

  lemma HoldsNothing(whole: string, lineConcat: string)
    ensures Holds(whole, lineConcat, [], whole)
  {
    assert "" + Ink(whole) == Ink(whole);
  }

  /** Moving `text` from what is left to a new continued line. */
  lemma HoldsMore(whole: string, lineConcat: string, added: seq<string>, n: nat, text: string, left: string,
      left': string)
    requires Holds(whole, lineConcat, added, left)
    requires Ink(text) + Ink(left') == Ink(left)
    ensures Holds(whole, lineConcat, added + [ContinuedLine(n, text, lineConcat)], left')
  {
    BodiesGrow(added, n, text, lineConcat);
    Assoc(Ink(Bodies(added, lineConcat)), Ink(text), Ink(left'));
  }

  /** The indentation of the next line: four more than the first line's. */
  function NextIndent(added: seq<string>, indent: nat): nat {
    if added == [] then indent else indent + 4
  }

  /** The first line is indented like the original, the continuation lines by four more. */
  predicate Indented(added: seq<string>, indent: nat) {
    forall k :: 0 <= k < |added| ==> Spaces(if k == 0 then indent else indent + 4) <= added[k]
  }

  lemma FlushIndents(added: seq<string>, indent: nat)
    requires added != []
    ensures NextIndent(added, indent) == indent + 4
  {
  }

  lemma IndentedMore(added: seq<string>, indent: nat, text: string, lineConcat: string)
    requires Indented(added, indent)
    ensures Indented(added + [ContinuedLine(NextIndent(added, indent), text, lineConcat)], indent)
    ensures Indented(added + [Spaces(NextIndent(added, indent)) + text], indent)
  {
    hide Spaces;
    assert ContinuedLine(NextIndent(added, indent), text, lineConcat) ==
      Spaces(NextIndent(added, indent)) + (text + lineConcat);
  }

  /** How far the splitting loop has come: it ends, and leaves, just as it would have from the start. */
  ghost predicate Splitting(segment: string, width: int, seg: string, w: int) {
    && EndsInInk(seg)
    && (w == width || w == width - 4)
    && (Ends(segment, width, width - 4) <==> Ends(seg, w, width - 4))
    && Leftover(segment, width, width - 4) == Leftover(seg, w, width - 4)
  }

  lemma SplitTurn(segment: string, width: int, seg: string, w: int)
    requires Splitting(segment, width, seg, w)
    requires TooLong(seg, w) && RFindSpace(LStrip(seg), w) >= 0
    ensures Splitting(segment, width, Remainder(seg, w), width - 4)
    ensures |Remainder(seg, w)| < |seg|
  {
    EndsUnfolds(seg, w, width - 4);
    RemainderInked(seg, w);
  }

  lemma SplitDone(segment: string, width: int, seg: string, w: int)
    requires Splitting(segment, width, seg, w) && !TooLong(seg, w)
    ensures Ends(segment, width, width - 4) && (seg, w) == Leftover(segment, width, width - 4)
  {
    EndsUnfolds(seg, w, width - 4);
  }

  /** The loop has not cut the segment. */
  predicate Untouched(segment: string, width: int, seg: string, w: int, added: seq<string>) {
    seg == segment && w == width && added == []
  }

  /** A segment with room is never cut. */
  lemma NeverCut(segment: string, width: int)
    ensures forall seg, w, added ::
      Untouched(segment, width, seg, w, added) && |segment| <= width ==> |Strip(seg)| <= w
  {
    StripShorter(segment);
  }

  /**
   * The inner loop: while the segment is too long for the line, cut it at the
   * last space that fits. `false` when the program would loop forever.
   */
  method SplitSegment(segment: string, indent: nat, width: int, lineConcat: string, output: Lines)
    returns (done: bool, seg: string, w: int, prefix: nat, ghost added: seq<string>)
    requires EndsInInk(segment) && !IsSpace(segment[0])
    requires indent + width + |lineConcat| == COLUMNS
    modifies output
    ensures done <==> Splittable(segment, width)
    ensures output.lines == old(output.lines) + added
    ensures done ==> (seg, w) == Leftover(segment, width, width - 4) && EndsInInk(seg)
    ensures |segment| <= width ==> done && Untouched(segment, width, seg, w, added)
    ensures done ==> Holds(segment, lineConcat, added, seg) && Under80(added)
    ensures prefix + w + |lineConcat| == COLUMNS && (w == width || (w == width - 4 && prefix == indent + 4))
    ensures Indented(added, indent) && prefix == NextIndent(added, indent)
  {
    hide Ends, EndsWithin, Leftover, Splittable, Bodies, Ink, Strip, LStrip, RStrip, LastSpace, IsSpace;
    seg, w, prefix, added := segment, width, indent, [];
    SplitEndsIff(segment, width);
    HoldsNothing(segment, lineConcat);
    NeverCut(segment, width);
    assert Untouched(segment, width, seg, w, added);
    assert Splitting(segment, width, seg, w) && EndsInInk(seg) && Indented(added, indent) && Under80(added);
    hide Holds, ContinuedLine, Continued, Spaces, Indented, Under80, Untouched;
    while |Strip(seg)| > w
      invariant Splitting(segment, width, seg, w)
      invariant |segment| <= width ==> Untouched(segment, width, seg, w, added)
      invariant Holds(segment, lineConcat, added, seg) && Under80(added)
      invariant prefix + w + |lineConcat| == COLUMNS && (w == width || (w == width - 4 && prefix == indent + 4))
      invariant Indented(added, indent) && prefix == NextIndent(added, indent)
      invariant output.lines == old(output.lines) + added
      decreases |seg|
    {
      assert |segment| > width;
      var s := LStrip(seg);
      var at := RFindSpace(s, w);
      if width <= 4 || at < 0 {
        StuckNeverEnds(seg, w, width - 4);
        return false, seg, w, prefix, added;
      }
      var cut := Strip(s[..at]);
      SplitTurn(segment, width, seg, w);
      SplitKeepsInk(seg, at);
      StripShorter(s[..at]);
      HoldsMore(segment, lineConcat, added, prefix, cut, seg, Remainder(seg, w));
      IndentedMore(added, indent, cut, lineConcat);
      Under80More(added, ContinuedLine(prefix, cut, lineConcat));
      output.Append(ContinuedLine(prefix, cut, lineConcat));
      added := added + [ContinuedLine(prefix, cut, lineConcat)];
      seg, w, prefix := s[at + 1..], width - 4, indent + 4;
    }
    SplitDone(segment, width, seg, w);
    done := true;
  }

  /** The lines a wrap added hold the ink of the line it wrapped, in order. */
  predicate Wraps(added: seq<string>, line: string, lineConcat: string) {
    if Strip(line) == "" then added == []
    else
      && added != []
      && Continued(added[..|added| - 1], lineConcat)
      && Ink(Bodies(added[..|added| - 1], lineConcat)) + Ink(added[|added| - 1]) == Ink(line)
  }

  lemma {:induction false} ConcatAppend(ss: seq<string>, s: string)
    ensures Concat(ss + [s]) == Concat(ss) + s
    decreases |ss|
  {
    if ss == [] {
      assert [s][1..] == [] && "" + s == s && s + "" == s;
    } else {
      assert (ss + [s])[1..] == ss[1..] + [s];
      ConcatAppend(ss[1..], s);
      Assoc(ss[0], Concat(ss[1..]), s);
    }
  }

  /** The pieces as far as one of them, in one, are the start of the line. */
  lemma {:induction false} SegmentsShorter(segs: seq<string>, k: nat)
    requires k < |segs|
    ensures Concat(segs[..k + 1]) == Concat(segs[..k]) + segs[k] <= Concat(segs)
    decreases |segs| - k
  {
    assert segs[..k + 1] == segs[..k] + [segs[k]];
    ConcatAppend(segs[..k], segs[k]);
    if k + 1 < |segs| {
      SegmentsShorter(segs, k + 1);
    } else {
      assert segs[..k + 1] == segs;
    }
  }

  /** What is the start of a text that starts with ink is not stripped at its start. */
  lemma StartsInInk(whole: string, start: string)
    requires start <= whole && (whole != "" ==> !IsSpace(whole[0]))
    ensures LStrip(start) == start && |RStrip(start)| <= |start| <= |whole|
  {
  }

  lemma ConcatTail(segs: seq<string>, k: nat)
    requires k <= |segs|
    ensures Concat(segs[k..]) == if k < |segs| then segs[k] + Concat(segs[k + 1..]) else ""
  {
    assert k < |segs| ==> segs[k..][1..] == segs[k + 1..];
  }

  /** The last, uncontinued line completes the ink. */
  lemma LastLineWraps(added: seq<string>, n: nat, curLine: string, line: string, lineConcat: string)
    requires Strip(line) != "" && Holds(line, lineConcat, added, curLine)
    ensures Wraps(added + [Spaces(n) + Strip(curLine)], line, lineConcat)
  {
    InkIndented(n, Strip(curLine));
    InkStrip(curLine);
    var all := added + [Spaces(n) + Strip(curLine)];
    assert all[..|all| - 1] == added;
  }

  /** The segment goes on the current line. */
  lemma Extends(whole: string, lineConcat: string, added: seq<string>, curLine: string, seg: string, rest: string)
    requires Holds(whole, lineConcat, added, curLine + (seg + rest))
    ensures Holds(whole, lineConcat, added, LStrip(curLine + seg) + rest)
  {
    InkLStrip(curLine + seg);
    InkConcat(curLine + seg, rest);
    InkConcat(LStrip(curLine + seg), rest);
    Assoc(curLine, seg, rest);
  }

  /** The current line is emitted and the segment starts the next one. */
  lemma Flushes(whole: string, lineConcat: string, added: seq<string>, n: nat, curLine: string, seg: string,
      rest: string)
    requires Holds(whole, lineConcat, added, curLine + (seg + rest))
    ensures Holds(whole, lineConcat, added + [ContinuedLine(n, RStrip(curLine), lineConcat)], LStrip(seg) + rest)
  {
    InkConcat(curLine, seg + rest);
    InkConcat(seg, rest);
    InkConcat(LStrip(seg), rest);
    InkLStrip(seg);
    InkRStrip(curLine);
    HoldsMore(whole, lineConcat, added, n, RStrip(curLine), curLine + (seg + rest), LStrip(seg) + rest);
  }

  /** What the splitting loop did to the first segment, it did to the whole line. */
  lemma FirstFills(line: string, lineConcat: string, added: seq<string>, seg: string, first: string, rest: string)
    requires Strip(line) == first + rest && Holds(first, lineConcat, added, seg)
    ensures Holds(line, lineConcat, added, "" + (seg + rest))
  {
    InkStrip(line);
    InkConcat(first, rest);
    InkConcat(seg, rest);
    InkConcat("", seg + rest);
    Assoc(Ink(Bodies(added, lineConcat)), Ink(seg), Ink(rest));
    assert "" + (seg + rest) == seg + rest;
  }

  lemma FirstSegment(line: string)
    requires Strip(line) != ""
    ensures EndsInInk(Strip(line))
    ensures var segs := Segments(Strip(line)); segs != [] && EndsInInk(segs[0]) && !IsSpace(segs[0][0])
    ensures var segs := Segments(Strip(line)); segs != [] && Strip(line) == segs[0] + Concat(segs[1..])
  {
    StripEnds(line);
    SegmentsPartition(Strip(line));
    SegmentsInked(Strip(line), 0);
  }

  /** The lines so far are under 80 columns, and the current one will be, when the pieces fit. */
  predicate Narrow(fits: bool, added: seq<string>, curLine: string, maxLen: int) {
    fits ==> Under80(added) && (curLine != "" ==> |RStrip(curLine)| < maxLen)
  }

  /** One turn of the loop over segments keeps the width bound. */
  lemma StaysNarrow(fits: bool, added: seq<string>, n: nat, lineConcat: string, curLine: string, seg: string,
      maxLen: int, next: int)
    requires Narrow(fits, added, curLine, maxLen) && EndsInInk(seg)
    requires n + maxLen + |lineConcat| == COLUMNS
    ensures |RStrip(curLine + seg)| < maxLen ==> Narrow(fits, added, LStrip(curLine + seg), maxLen)
    ensures (fits ==> curLine != "" && |Strip(seg)| < next) ==>
      Narrow(fits, added + [ContinuedLine(n, RStrip(curLine), lineConcat)], LStrip(seg), next)
  {
    StripShorter(curLine + seg);
  }

  // ---- Lines that are too long anyway ---------------------------------------

  /** No line has room for the piece: neither a started one nor a continuation line of its own. */
  predicate Overlong(seg: string, width: int, lineConcat: string) {
    |Strip(seg)| >= width - 1 && |Strip(seg)| >= width - 4 + |lineConcat|
  }

  /** Some piece but the first, which is the only one that is ever split, is too long. */
  predicate LaterOverlong(line: string, lineConcat: string) {
    var segs := Segments(Strip(line));
    exists k :: 1 <= k < |segs| && Overlong(segs[k], FirstWidth(line, lineConcat), lineConcat)
  }

  /** A line of 80 columns or more is there, or is being made. */
  predicate Broad(broad: bool, added: seq<string>, curLine: string, prefix: nat) {
    broad ==> !Under80(added) || prefix + |Strip(curLine)| >= COLUMNS
  }

  lemma {:induction false} LStripConcat(s: string, t: string)
    ensures LStrip(s + t) == if LStrip(s) == "" then LStrip(t) else LStrip(s) + t
    decreases |s|
  {
    if s == "" {
      assert s + t == t;
    } else {
      assert (s + t)[1..] == s[1..] + t;
      hide IsSpace;
      LStripConcat(s[1..], t);
    }
  }

  /** With ink at the end, what a text is stripped of is at its start, and more text in front makes it no shorter. */
  lemma StripGrows(s: string, t: string)
    requires EndsInInk(t)
    ensures |Strip(LStrip(s + t))| >= |Strip(s)|
    ensures s != "" ==> |RStrip(s + t)| > |Strip(t)|
    ensures Strip(LStrip(t)) == Strip(t)
  {
    Inked(s, t);
    LStripConcat(s, t);
    LStripInked(t);
    LStripInked(s + t);
    LStripInked(LStrip(s + t));
    LStripInked(LStrip(t));
    hide LStrip;
    StripShorter(s);
  }

  lemma BroadExtends(broad: bool, added: seq<string>, curLine: string, prefix: nat, seg: string, maxLen: int,
      width: int, lineConcat: string)
    requires Broad(broad, added, curLine, prefix) && EndsInInk(seg) && |RStrip(curLine + seg)| < maxLen <= width
    ensures Broad(broad || (curLine != "" && Overlong(seg, width, lineConcat)), added, LStrip(curLine + seg), prefix)
  {
    hide LStrip, RStrip, Under80, EndsInInk;
    StripGrows(curLine, seg);
  }

  lemma BroadFlushes(broad: bool, added: seq<string>, curLine: string, prefix: nat, seg: string, indent: nat,
      width: int, lineConcat: string)
    requires Broad(broad, added, curLine, prefix) && EndsInInk(seg) && indent + width + |lineConcat| == COLUMNS
    ensures Broad(broad || Overlong(seg, width, lineConcat),
      added + [ContinuedLine(prefix, RStrip(curLine), lineConcat)], LStrip(seg), indent + 4)
  {
    hide LStrip, RStrip, EndsInInk;
    StripGrows("", seg);
    StripShorter(curLine);
    BroadStays(added, ContinuedLine(prefix, RStrip(curLine), lineConcat));
    hide Under80;
  }

  lemma FlushedBroad(broad: bool, started: bool, seg: string, width: int, lineConcat: string, added: seq<string>,
      curLine: string, prefix: nat)
    requires Broad(broad || Overlong(seg, width, lineConcat), added, curLine, prefix)
    ensures Broad(broad || (started && Overlong(seg, width, lineConcat)), added, curLine, prefix)
  {
    hide Overlong, Under80, Strip;
  }

  lemma BroadStays(added: seq<string>, line: string)
    ensures Under80(added + [line]) ==> Under80(added) && |line| < COLUMNS
  {
    var all := added + [line];
    assert all[|added|] == line && forall k :: 0 <= k < |added| ==> all[k] == added[k];
  }

  /** `a;` and 80 characters without a space or separator: the program returns, with a line of 80 columns or more. */
  lemma OverlongLine(line: string)
    requires |line| == 82 && line[..2] == "a;" && forall i :: 2 <= i < |line| ==> line[i] == 'x'
    ensures Wrappable(line, "") && LaterOverlong(line, "")
  {
    var word := line[2..];
    OneWord(word);
    TwoSegments(line);
    assert LStrip(line) == line;
    var segs := Segments(Strip(line));
    assert segs == ["a;", word];
    hide Strip, Segments, LStrip;
    assert FirstWidth(line, "") == 80;
    assert Overlong(segs[1], 80, "");
  }

  lemma TwoSegments(line: string)
    requires |line| > 2 && line[..2] == "a;" && Segments(line[2..]) == [line[2..]]
    requires !IsSpace(line[|line| - 1])
    ensures Strip(line) == line && Segments(line) == ["a;", line[2..]]
  {
    assert line[0] == line[..2][0] && line[1] == line[..2][1];
    NotStripped(line);
    hide LStrip, RStrip, IsSpace;
    FirstTwo(line);
    hide Run, SegmentLength;
    assert Segments(line) == [line[..2]] + Segments(line[2..]);
  }

  lemma NotStripped(line: string)
    requires line != "" && !IsSpace(line[0]) && !IsSpace(line[|line| - 1])
    ensures Strip(line) == line
  {
  }

  lemma FirstTwo(line: string)
    requires |line| > 2 && line[0] == 'a' && line[1] == ';'
    ensures SegmentLength(line) == 2
  {
    assert !IsSeparator(line[0]) && IsSeparator(line[1]);
    assert Run(line, false) == 1;
  }

  lemma Inked(s: string, t: string)
    ensures EndsInInk(t) ==> EndsInInk(s + t) && t != ""
    ensures EndsInInk(s) ==> s != ""
  {
  }

  lemma LastLineNarrow(fits: bool, added: seq<string>, n: nat, curLine: string, maxLen: int)
    requires Narrow(fits, added, curLine, maxLen) && curLine != "" && n + maxLen <= COLUMNS
    ensures fits ==> Under80(added + [Spaces(n) + Strip(curLine)])
  {
    hide Strip;
    StripShorter(curLine);
  }

  lemma LastLineBroad(broad: bool, added: seq<string>, n: nat, curLine: string)
    requires Broad(broad, added, curLine, n)
    ensures broad ==> !Under80(added + [Spaces(n) + Strip(curLine)])
  {
    BroadStays(added, Spaces(n) + Strip(curLine));
    hide Strip, Under80;
  }

  /** The current line, the indentation and width it is written with, and the lines before it. */
  ghost predicate Wrapping(line: string, lineConcat: string, width: int, prefix: nat, maxLen: int, curLine: string,
      fits: bool, added: seq<string>) {
    && prefix + maxLen + |lineConcat| == COLUMNS
      && (maxLen == width || (maxLen == width - 4 && prefix == Indent(line) + 4))
    && Narrow(fits, added, curLine, maxLen)
    && Indented(added, Indent(line)) && prefix == NextIndent(added, Indent(line))
  }

  /** A segment goes on the current line if there is room for it, and on a line of its own if there is not. */
  predicate Placed(prefix0: nat, maxLen0: int, curLine0: string, seg: string, lineConcat: string, prefix: nat,
      maxLen: int, curLine: string, more: seq<string>) {
    if |RStrip(curLine0 + seg)| < maxLen0
    then more == [] && curLine == LStrip(curLine0 + seg) && prefix == prefix0 && maxLen == maxLen0
    else more == [ContinuedLine(prefix0, RStrip(curLine0), lineConcat)] && curLine == LStrip(seg)
  }

  /** A line that has room is still whole: nothing is written yet, and the current line is its start. */
  predicate Whole(short: bool, line: string, width: int, added: seq<string>, prefix: nat, maxLen: int, curLine: string,
      start: string) {
    short ==> added == [] && prefix == Indent(line) && maxLen == width && curLine == start
  }

  /** The line has room, and the text is its start. */
  predicate HasRoom(line: string, width: int, start: string) {
    && |Strip(line)| < width && Strip(line) != "" && !IsSpace(Strip(line)[0])
    && start <= Strip(line)
  }

  lemma WholeOn(short: bool, line: string, lineConcat: string, width: int, added: seq<string>, prefix0: nat,
      maxLen0: int, curLine0: string, start: string, seg: string, prefix: nat, maxLen: int, curLine: string,
      more: seq<string>)
    requires Whole(short, line, width, added, prefix0, maxLen0, curLine0, start)
    requires Placed(prefix0, maxLen0, curLine0, seg, lineConcat, prefix, maxLen, curLine, more)
    requires short ==> HasRoom(line, width, start + seg)
    ensures Whole(short, line, width, added + more, prefix, maxLen, curLine, start + seg)
  {
    if short {
      StartsInInk(Strip(line), start + seg);
      hide Strip, Indent, IsSpace, LStrip, RStrip;
      assert added + more == [];
    }
  }

  /** The pieces as far as the next one. */
  lemma RoomForNext(short: bool, line: string, width: int, segs: seq<string>, k: nat)
    requires k < |segs| && Concat(segs) == Strip(line) && Strip(line) != "" && !IsSpace(Strip(line)[0])
    requires short ==> |Strip(line)| < width
    ensures Concat(segs[..k + 1]) == Concat(segs[..k]) + segs[k]
    ensures short ==> HasRoom(line, width, Concat(segs[..k]) + segs[k])
  {
    SegmentsShorter(segs, k);
    hide Strip, Concat, IsSpace;
  }

  lemma WholeStarts(segs: seq<string>)
    ensures Concat(segs[..0]) == ""
  {
  }

  lemma StillWhole(short: bool, line: string, width: int, added: seq<string>, prefix: nat, maxLen: int, curLine: string,
      start: string, start': string)
    requires Whole(short, line, width, added, prefix, maxLen, curLine, start) && (short ==> start' == start)
    ensures Whole(short, line, width, added, prefix, maxLen, curLine, start')
  {
  }

  lemma WholeEnds(short: bool, line: string, width: int, added: seq<string>, prefix: nat, maxLen: int, curLine: string)
    requires Strip(line) != "" && Whole(short, line, width, added, prefix, maxLen, curLine, Strip(line))
    ensures short ==> added + [Spaces(prefix) + Strip(curLine)] == [Spaces(Indent(line)) + Strip(line)]
  {
    StripEnds(line);
    LStripInked(Strip(line));
    StartsInInk(Strip(line), Strip(line));
    hide Indent, Spaces;
  }

  /** The first segment of a line that there is room for has room. */
  lemma FirstIsWhole(line: string, width: int, segs: seq<string>)
    requires segs == Segments(Strip(line)) && segs != []
    ensures |Strip(line)| < width ==> |segs[0]| <= width
  {
    SegmentsPartition(Strip(line));
  }

  /** The loop body: a segment goes on the current line if it fits, otherwise it starts the next one. */
  method PlaceSegment(line: string, lineConcat: string, width: int, prefix0: nat, maxLen0: int, curLine0: string,
      seg: string, output: Lines, ghost fits: bool, ghost broad: bool, ghost short: bool, ghost start: string,
      ghost added: seq<string>, ghost rest: string)
    returns (prefix: nat, maxLen: int, curLine: string, ghost more: seq<string>)
    requires Indent(line) + width + |lineConcat| == COLUMNS
    requires Wrapping(line, lineConcat, width, prefix0, maxLen0, curLine0, fits, added)
    requires EndsInInk(seg) && Holds(line, lineConcat, added, curLine0 + (seg + rest))
    requires fits ==> if curLine0 == "" then |RStrip(seg)| < maxLen0 else |Strip(seg)| < width - 4
    requires Broad(broad, added, curLine0, prefix0)
    requires Whole(short, line, width, added, prefix0, maxLen0, curLine0, start)
    requires short ==> HasRoom(line, width, start + seg)
    modifies output
    ensures output.lines == old(output.lines) + more
    ensures Wrapping(line, lineConcat, width, prefix, maxLen, curLine, fits, added + more)
    ensures EndsInInk(curLine) && Holds(line, lineConcat, added + more, curLine + rest)
    ensures Whole(short, line, width, added + more, prefix, maxLen, curLine, start + seg)
    ensures Placed(prefix0, maxLen0, curLine0, seg, lineConcat, prefix, maxLen, curLine, more)
    ensures Broad(broad || (curLine0 != "" && Overlong(seg, width, lineConcat)), added + more, curLine, prefix)
  {
    hide Broad, Overlong, Holds, Narrow, Indented, ContinuedLine, RStrip, LStrip, Strip, Indent, EndsInInk, NextIndent;
    hide Whole, HasRoom;
    prefix, maxLen, more := prefix0, maxLen0, [];
    assert curLine0 == "" ==> curLine0 + seg == seg;
    Inked(curLine0, seg);
    StaysNarrow(fits, added, prefix, lineConcat, curLine0, seg, maxLen, width - 4);
    if |RStrip(curLine0 + seg)| < maxLen {
      Extends(line, lineConcat, added, curLine0, seg, rest);
      LStripInked(curLine0 + seg);
      BroadExtends(broad, added, curLine0, prefix, seg, maxLen, width, lineConcat);
      curLine := LStrip(curLine0 + seg);
      assert added + more == added && old(output.lines) + more == output.lines;
    } else {
      Flushes(line, lineConcat, added, prefix, curLine0, seg, rest);
      LStripInked(seg);
      BroadFlushes(broad, added, curLine0, prefix, seg, Indent(line), width, lineConcat);
      FlushedBroad(broad, curLine0 != "", seg, width, lineConcat,
        added + [ContinuedLine(prefix, RStrip(curLine0), lineConcat)], LStrip(seg), Indent(line) + 4);
      IndentedMore(added, Indent(line), RStrip(curLine0), lineConcat);
      more := [ContinuedLine(prefix, RStrip(curLine0), lineConcat)];
      output.Append(ContinuedLine(prefix, RStrip(curLine0), lineConcat));
      FlushIndents(added + more, Indent(line));
      prefix, maxLen, curLine := Indent(line) + 4, width - 4, LStrip(seg);
    }
    WholeOn(short, line, lineConcat, width, added, prefix0, maxLen0, curLine0, start, seg, prefix, maxLen, curLine,
      more);
  }

  /** Some segment but the first, of the first `k`, being too long is not overlooked. */
  predicate CountsOverlong(segs: seq<string>, k: nat, width: int, lineConcat: string, broad: bool)
    requires k <= |segs|
  {
    forall j :: 1 <= j < k && Overlong(segs[j], width, lineConcat) ==> broad
  }

  lemma CountsOneMore(segs: seq<string>, k: nat, width: int, lineConcat: string, broad: bool, curLine: string,
      seg: string)
    requires k < |segs| && CountsOverlong(segs, k, width, lineConcat, broad)
    requires if k == 0 then curLine == "" else curLine != "" && seg == segs[k]
    ensures CountsOverlong(segs, k + 1, width, lineConcat, broad || (curLine != "" && Overlong(seg, width, lineConcat)))
  {
    hide Overlong;
  }

  /** What is left to place, `seg` first. */
  function Left(segs: seq<string>, k: nat, seg: string): string
    requires k <= |segs|
  {
    if k < |segs| then seg + Concat(segs[k + 1..]) else ""
  }

  lemma LeftBehind(segs: seq<string>, k: nat, seg: string)
    requires k <= |segs|
    ensures Left(segs, k, NextOf(segs, k, seg)) == Concat(segs[k..])
  {
    ConcatTail(segs, k);
    hide Concat;
  }

  /** How the loop over the segments stands: `k` of them are placed, and `seg` is next. */
  ghost predicate Placing(line: string, lineConcat: string, width: int, segs: seq<string>, k: nat, fits: bool,
      short: bool, broad: bool, added: seq<string>, prefix: nat, maxLen: int, curLine: string, seg: string) {
    && k <= |segs|
    && (if k == 0 then curLine == "" else EndsInInk(curLine))
    && (k < |segs| ==> EndsInInk(seg) && if k == 0 then fits ==> |RStrip(seg)| < maxLen else seg == segs[k])
    && Holds(line, lineConcat, added, curLine + Left(segs, k, seg))
    && Wrapping(line, lineConcat, width, prefix, maxLen, curLine, fits, added)
    && Broad(broad, added, curLine, prefix)
    && CountsOverlong(segs, k, width, lineConcat, broad)
    && Whole(short, line, width, added, prefix, maxLen, curLine, Concat(segs[..k]))
    && (short && k < |segs| ==> seg == segs[k])
  }

  /** The next segment can be placed. */
  lemma PlacingGives(line: string, lineConcat: string, width: int, segs: seq<string>, k: nat, fits: bool, short: bool,
      broad: bool, added: seq<string>, prefix: nat, maxLen: int, curLine: string, seg: string)
    requires Placing(line, lineConcat, width, segs, k, fits, short, broad, added, prefix, maxLen, curLine, seg)
    requires k < |segs| && segs == Segments(Strip(line)) && Strip(line) != ""
    requires short ==> |Strip(line)| < width
    requires fits ==> forall j :: 1 <= j < |segs| ==> |Strip(segs[j])| < width - 4
    ensures EndsInInk(seg) && Holds(line, lineConcat, added, curLine + (seg + Concat(segs[k + 1..])))
    ensures fits ==> if curLine == "" then |RStrip(seg)| < maxLen else |Strip(seg)| < width - 4
    ensures Broad(broad, added, curLine, prefix)
    ensures Wrapping(line, lineConcat, width, prefix, maxLen, curLine, fits, added)
    ensures Whole(short, line, width, added, prefix, maxLen, curLine, Concat(segs[..k]))
    ensures short ==> HasRoom(line, width, Concat(segs[..k]) + seg)
  {
    SegmentsPartition(Strip(line));
    StripEnds(line);
    Inked("", curLine);
    hide Holds, Wrapping, Broad, Whole, HasRoom, Segments, Concat, Strip, RStrip, CountsOverlong, IsSpace;
    RoomForNext(short, line, width, segs, k);
  }

  /** What comes after a segment is the next one. */
  function NextOf(segs: seq<string>, k: nat, seg: string): string {
    if k < |segs| then segs[k] else seg
  }

  lemma PlacingStarts(line: string, lineConcat: string, width: int, segs: seq<string>, fits: bool, short: bool,
      added: seq<string>, prefix: nat, maxLen: int, first: string)
    requires segs == Segments(Strip(line)) && Strip(line) != "" && EndsInInk(first)
    requires Holds(line, lineConcat, added, first + Concat(segs[1..]))
    requires Wrapping(line, lineConcat, width, prefix, maxLen, "", fits, added)
    requires fits ==> |RStrip(first)| < maxLen
    requires Whole(short, line, width, added, prefix, maxLen, "", "")
    requires short ==> segs != [] && first == segs[0]
    ensures Placing(line, lineConcat, width, segs, 0, fits, short, false, added, prefix, maxLen, "", first)
  {
    SegmentsPartition(Strip(line));
    WholeStarts(segs);
    assert "" + (first + Concat(segs[1..])) == first + Concat(segs[1..]);
    hide Holds, Wrapping, Whole, Segments, Concat, Strip, RStrip, Overlong, IsSpace;
  }

  lemma PlacingEnds(line: string, lineConcat: string, width: int, segs: seq<string>, fits: bool, short: bool,
      broad: bool, added: seq<string>, prefix: nat, maxLen: int, curLine: string, seg: string)
    requires Placing(line, lineConcat, width, segs, |segs|, fits, short, broad, added, prefix, maxLen, curLine, seg)
    requires segs == Segments(Strip(line)) && Strip(line) != ""
    ensures EndsInInk(curLine) && Holds(line, lineConcat, added, curLine)
    ensures Wrapping(line, lineConcat, width, prefix, maxLen, curLine, fits, added)
    ensures Broad(broad, added, curLine, prefix)
    ensures forall j :: 1 <= j < |segs| && Overlong(segs[j], width, lineConcat) ==> broad
    ensures Whole(short, line, width, added, prefix, maxLen, curLine, Strip(line))
  {
    SegmentsPartition(Strip(line));
    assert segs[..|segs|] == segs && curLine + "" == curLine;
    hide Holds, Wrapping, Broad, Whole, Segments, Concat, Strip, RStrip, Overlong, IsSpace;
  }

  lemma PlacingNext(line: string, lineConcat: string, width: int, segs: seq<string>, k: nat, fits: bool, short: bool,
      broad: bool, added: seq<string>, prefix0: nat, maxLen0: int, curLine0: string, seg: string,
      broad': bool, added': seq<string>, prefix: nat, maxLen: int, curLine: string)
    requires Placing(line, lineConcat, width, segs, k, fits, short, broad, added, prefix0, maxLen0, curLine0, seg)
    requires k < |segs| && segs == Segments(Strip(line)) && Strip(line) != ""
    requires Wrapping(line, lineConcat, width, prefix, maxLen, curLine, fits, added')
    requires EndsInInk(curLine) && Holds(line, lineConcat, added', curLine + Concat(segs[k + 1..]))
    requires Broad(broad || (curLine0 != "" && Overlong(seg, width, lineConcat)), added', curLine, prefix)
    requires Whole(short, line, width, added', prefix, maxLen, curLine, Concat(segs[..k]) + seg)
    requires broad' == (broad || (curLine0 != "" && Overlong(seg, width, lineConcat)))
    ensures Placing(line, lineConcat, width, segs, k + 1, fits, short, broad', added', prefix, maxLen, curLine,
      NextOf(segs, k + 1, seg))
  {
    SegmentsPartition(Strip(line));
    SegmentsShorter(segs, k);
    LeftBehind(segs, k + 1, seg);
    StripEnds(line);
    if k + 1 < |segs| {
      SegmentsInked(Strip(line), k + 1);
    }
    Inked("", curLine0);
    hide Left, Holds, Wrapping, Broad, Whole, Segments, Concat, Strip, RStrip, Overlong, IsSpace, EndsInInk;
    hide CountsOverlong;
    StillWhole(short, line, width, added', prefix, maxLen, curLine, Concat(segs[..k]) + seg, Concat(segs[..k + 1]));
    CountsOneMore(segs, k, width, lineConcat, broad, curLine0, seg);
  }

  /** The loop over the segments; the first is what the splitting loop left of it. */
  method PlaceAll(line: string, lineConcat: string, width: int, prefix0: nat, maxLen0: int, first: string,
      segs: seq<string>, output: Lines, ghost fits: bool, ghost short: bool, ghost before: seq<string>,
      ghost added: seq<string>)
    returns (prefix: nat, maxLen: int, curLine: string, ghost broad: bool, ghost all: seq<string>)
    requires Indent(line) + width + |lineConcat| == COLUMNS && output.lines == before + added
    requires segs == Segments(Strip(line)) && Strip(line) != "" && EndsInInk(first)
    requires Holds(line, lineConcat, added, first + Concat(segs[1..]))
    requires Wrapping(line, lineConcat, width, prefix0, maxLen0, "", fits, added)
    requires fits ==> |RStrip(first)| < maxLen0 && forall k :: 1 <= k < |segs| ==> |Strip(segs[k])| < width - 4
    requires Whole(short, line, width, added, prefix0, maxLen0, "", "")
    requires short ==> |Strip(line)| < width && segs != [] && first == segs[0]
    modifies output
    ensures output.lines == before + all && EndsInInk(curLine)
    ensures Holds(line, lineConcat, all, curLine)
    ensures Wrapping(line, lineConcat, width, prefix, maxLen, curLine, fits, all)
    ensures Broad(broad, all, curLine, prefix)
    ensures forall j :: 1 <= j < |segs| && Overlong(segs[j], width, lineConcat) ==> broad
    ensures Whole(short, line, width, all, prefix, maxLen, curLine, Strip(line))
  {
    PlacingStarts(line, lineConcat, width, segs, fits, short, added, prefix0, maxLen0, first);
    var seg, k := first, 0;
    prefix, maxLen, curLine, broad, all := prefix0, maxLen0, "", false, added;
    hide *;
    while k < |segs|
      invariant k <= |segs| && output.lines == before + all
      invariant Placing(line, lineConcat, width, segs, k, fits, short, broad, all, prefix, maxLen, curLine, seg)
    {
      ghost var broad0, prefix0, maxLen0, curLine0 := broad, prefix, maxLen, curLine;
      ghost var next;
      PlacingGives(line, lineConcat, width, segs, k, fits, short, broad, all, prefix, maxLen, curLine, seg);
      prefix, maxLen, curLine, next :=
        PlaceSegment(line, lineConcat, width, prefix, maxLen, curLine, seg, output, fits, broad, short,
          Concat(segs[..k]), all, Concat(segs[k + 1..]));
      broad := broad || (curLine0 != "" && Overlong(seg, width, lineConcat));
      PlacingNext(line, lineConcat, width, segs, k, fits, short, broad0, all, prefix0, maxLen0, curLine0,
        seg, broad, all + next, prefix, maxLen, curLine);
      Assoc(before, all, next);
      all := all + next;
      k := k + 1;
      seg := NextOf(segs, k, seg);
    }
    PlacingEnds(line, lineConcat, width, segs, fits, short, broad, all, prefix, maxLen, curLine, seg);
  }

  /** What the splitting loop leaves is what the loop over the segments starts with. */
  lemma SplitLeaves(line: string, lineConcat: string, segs: seq<string>, seg: string, maxLen: int, prefix: nat,
      added: seq<string>)
    requires Strip(line) != "" && segs == Segments(Strip(line)) && segs != []
    requires var width := FirstWidth(line, lineConcat);
      && (seg, maxLen) == Leftover(segs[0], width, width - 4)
      && (|segs[0]| <= width ==> Untouched(segs[0], width, seg, maxLen, added))
      && prefix + maxLen + |lineConcat| == COLUMNS
        && (maxLen == width || (maxLen == width - 4 && prefix == Indent(line) + 4))
    requires Holds(segs[0], lineConcat, added, seg) && Under80(added)
    requires Indented(added, Indent(line)) && prefix == NextIndent(added, Indent(line))
    ensures var width, fits := FirstWidth(line, lineConcat), PiecesFit(line, lineConcat);
      && Holds(line, lineConcat, added, seg + Concat(segs[1..]))
      && (fits ==> |RStrip(seg)| < maxLen && forall k :: 1 <= k < |segs| ==> |Strip(segs[k])| < width - 4)
      && Wrapping(line, lineConcat, width, prefix, maxLen, "", fits, added)
      && Whole(|Strip(line)| < width, line, width, added, prefix, maxLen, "", "")
      && (|Strip(line)| < width ==> seg == segs[0])
      && (LaterOverlong(line, lineConcat) ==> exists k :: 1 <= k < |segs| && Overlong(segs[k], width, lineConcat))
  {
    FirstSegment(line);
    FirstFills(line, lineConcat, added, seg, segs[0], Concat(segs[1..]));
    FirstIsWhole(line, FirstWidth(line, lineConcat), segs);
    assert "" + (seg + Concat(segs[1..])) == seg + Concat(segs[1..]);
    hide Leftover, Holds, Under80, Strip, LStrip, RStrip, Concat, Segments, Indented, Overlong;
  }

  /**
   * Wrapping changes nothing but white space. The program returns exactly on
   * `Wrappable` lines; what it then adds holds the line's ink in order. A line
   * that there is room for stays one line. Every added line is under 80 columns
   * when the unsplit pieces fit, but not when some later piece is too long for
   * any line.
   */
  method WrapCode(line: string, lineConcat: string, output: Lines) returns (done: bool, ghost added: seq<string>)
    modifies output
    ensures done <==> Wrappable(line, lineConcat)
    ensures output.lines == old(output.lines) + added
    ensures done ==> Wraps(added, line, lineConcat)
    ensures 0 < |Strip(line)| < FirstWidth(line, lineConcat) ==>
      done && added == [Spaces(Indent(line)) + Strip(line)]
    ensures done && PiecesFit(line, lineConcat) ==> Under80(added)
    ensures done && LaterOverlong(line, lineConcat) ==> !Under80(added)
    ensures Indented(added, Indent(line))
  {
    hide Leftover, Splittable, Bodies, Ink, Strip, LStrip, RStrip, Concat, Segments;
    var segs := Segments(Strip(line));
    ghost var fits := PiecesFit(line, lineConcat);
    SegmentsPartition(Strip(line));
    added := [];
    if segs == [] {
      return true, [];
    }
    // Only the first segment finds `curLine` empty, so only it is ever split at spaces.
    FirstSegment(line);
    var width := FirstWidth(line, lineConcat);
    var seg, maxLen, prefix;
    done, seg, maxLen, prefix, added := SplitSegment(segs[0], Indent(line), width, lineConcat, output);
    assert done <==> Wrappable(line, lineConcat);
    if !done {
      return;
    }
    ghost var short := |Strip(line)| < width;
    SplitLeaves(line, lineConcat, segs, seg, maxLen, prefix, added);
    hide *;
    var curLine;
    ghost var broad;
    prefix, maxLen, curLine, broad, added :=
      PlaceAll(line, lineConcat, width, prefix, maxLen, seg, segs, output, fits, short, old(output.lines), added);
    WholeEnds(short, line, width, added, prefix, maxLen, curLine);
    ghost var last := EmitLast(line, lineConcat, width, prefix, maxLen, curLine, output, fits, broad, added);
    Assoc(old(output.lines), added, last);
    added := added + last;
  }

  /** The current line, which is the last, is written without a line continuation. */
  method EmitLast(line: string, lineConcat: string, width: int, prefix: nat, maxLen: int, curLine: string,
      output: Lines, ghost fits: bool, ghost broad: bool, ghost added: seq<string>) returns (ghost last: seq<string>)
    requires Indent(line) + width + |lineConcat| == COLUMNS && Strip(line) != "" && EndsInInk(curLine)
    requires Wrapping(line, lineConcat, width, prefix, maxLen, curLine, fits, added)
    requires Holds(line, lineConcat, added, curLine) && Broad(broad, added, curLine, prefix)
    modifies output
    ensures last == [Spaces(prefix) + Strip(curLine)] && output.lines == old(output.lines) + last
    ensures Wraps(added + last, line, lineConcat) && Indented(added + last, Indent(line))
    ensures fits ==> Under80(added + last)
    ensures broad ==> !Under80(added + last)
  {
    LStripInked(curLine);
    Inked(curLine, LStrip(curLine));
    LastLineWraps(added, prefix, curLine, line, lineConcat);
    LastLineNarrow(fits, added, prefix, curLine, maxLen);
    LastLineBroad(broad, added, prefix, curLine);
    IndentedMore(added, Indent(line), Strip(curLine), lineConcat);
    hide *;
    last := [];
    if Strip(curLine) != "" {
      output.Append(Spaces(prefix) + Strip(curLine));
      last := [Spaces(prefix) + Strip(curLine)];
    }
  }
}
