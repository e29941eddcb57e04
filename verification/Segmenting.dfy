/** Splitting text into segments with line ranges (text_plain.py `split`). */
module Segmenting {
  const MAX_SEGMENT_CHARACTERS := 1500

  /** A segment and its first and last line, counted from one. */
  datatype Segment = Segment(text: string, start: nat, end: nat)

  // ------------------------------------------------------------------ strip and join

  function Leading(space: char -> bool, s: string): string {
    if s != [] && space(s[0]) then Leading(space, s[1..]) else s
  }

  function Trailing(space: char -> bool, s: string): string {
    if s != [] && space(s[|s| - 1]) then Trailing(space, s[..|s| - 1]) else s
  }

  function Strip(space: char -> bool, s: string): string {
    Trailing(space, Leading(space, s))
  }

  function Join(lines: seq<string>): string {
    if lines == [] then ""
    else if |lines| == 1 then lines[0]
    else Join(lines[..|lines| - 1]) + "\n" + lines[|lines| - 1]
  }

  predicate Blank(space: char -> bool, line: string) {
    forall i :: 0 <= i < |line| ==> space(line[i])
  }

  /** Every line, with its line break. */
  function Size(lines: seq<string>): nat {
    if lines == [] then 0 else Size(lines[..|lines| - 1]) + |lines[|lines| - 1]| + 1
  }

  lemma {:induction false} LeadingEmpty(space: char -> bool, s: string)
    ensures Leading(space, s) == "" <==> Blank(space, s)
    ensures Blank(space, Leading(space, s)) <==> Blank(space, s)
  {
    if s != [] && space(s[0]) {
      LeadingEmpty(space, s[1..]);
      assert Blank(space, s[1..]) ==> Blank(space, s) by {
        if Blank(space, s[1..]) {
          forall i | 0 <= i < |s| ensures space(s[i]) {
            assert i > 0 ==> s[i] == s[1..][i - 1];
          }
        }
      }
    }
  }

  lemma {:induction false} TrailingEmpty(space: char -> bool, s: string)
    ensures Trailing(space, s) == "" <==> Blank(space, s)
  {
    if s != [] && space(s[|s| - 1]) {
      TrailingEmpty(space, s[..|s| - 1]);
    }
  }

  /** A body is empty exactly when it has nothing but space. */
  lemma StripEmpty(space: char -> bool, s: string)
    ensures Strip(space, s) == "" <==> Blank(space, s)
  {
    LeadingEmpty(space, s);
    TrailingEmpty(space, Leading(space, s));
  }

  /** A part of a text without the space around it. */
  ghost predicate Core(space: char -> bool, s: string, t: string) {
    exists i, j :: 0 <= i <= j <= |s| && t == s[i..j] && Blank(space, s[..i]) && Blank(space, s[j..])
  }

  lemma {:induction false} LeadingGoes(space: char -> bool, s: string) returns (i: nat)
    ensures i <= |s| && Leading(space, s) == s[i..] && Blank(space, s[..i]) && (i < |s| ==> !space(s[i]))
  {
    i := 0;
    if s != [] && space(s[0]) {
      var k := LeadingGoes(space, s[1..]);
      i := k + 1;
      assert s[..i] == [s[0]] + s[1..][..k];
    }
  }

  lemma {:induction false} TrailingGoes(space: char -> bool, s: string) returns (j: nat)
    ensures j <= |s| && Trailing(space, s) == s[..j] && Blank(space, s[j..]) && (j > 0 ==> !space(s[j - 1]))
  {
    j := |s|;
    if s != [] && space(s[|s| - 1]) {
      j := TrailingGoes(space, s[..|s| - 1]);
      assert s[j..] == s[..|s| - 1][j..] + [s[|s| - 1]];
      assert s[..|s| - 1][..j] == s[..j];
    }
  }

  /** A stripped text is the text but for the space around it, and has none at either end. */
  lemma StripIsCore(space: char -> bool, s: string)
    ensures Core(space, s, Strip(space, s))
    ensures Strip(space, s) != "" ==>
      !space(Strip(space, s)[0]) && !space(Strip(space, s)[|Strip(space, s)| - 1])
  {
    var i := LeadingGoes(space, s);
    var t := Leading(space, s);
    var j := TrailingGoes(space, t);
    assert t[..j] == s[i..i + j] && t[j..] == s[i + j..];
  }

  lemma {:induction false} SizeUpTo(lines: seq<string>, k: nat)
    requires k < |lines|
    ensures Size(lines[..k + 1]) == Size(lines[..k]) + |lines[k]| + 1 <= Size(lines)
    ensures k + 1 < |lines| ==> Size(lines[..k + 1]) < Size(lines)
  {
    var n := |lines| - 1;
    assert lines[..k + 1][..k] == lines[..k];
    if k < n {
      SizeUpTo(lines[..n], k);
      assert lines[..n][..k + 1] == lines[..k + 1] && lines[..n][..k] == lines[..k];
    } else {
      assert lines[..n + 1] == lines;
    }
  }

  lemma {:induction false} JoinSize(lines: seq<string>)
    requires lines != []
    ensures |Join(lines)| + 1 == Size(lines)
  {
    if |lines| > 1 {
      JoinSize(lines[..|lines| - 1]);
    }
  }

  /** Joined lines are found one after the other, each but the last with its line break. */
  lemma {:induction false} JoinHolds(lines: seq<string>, k: nat)
    requires k < |lines|
    ensures |Join(lines)| + 1 == Size(lines) && Size(lines[..k + 1]) == Size(lines[..k]) + |lines[k]| + 1 <= Size(lines)
    ensures Join(lines)[Size(lines[..k])..Size(lines[..k + 1]) - 1] == lines[k]
    ensures k + 1 < |lines| ==> Size(lines[..k + 1]) < Size(lines) && Join(lines)[Size(lines[..k + 1]) - 1] == '\n'
  {
    hide Size;
    var n := |lines| - 1;
    SizeUpTo(lines, k);
    JoinSize(lines);
    if n > 0 {
      var front := lines[..n];
      JoinSize(front);
      if k < n {
        JoinHolds(front, k);
        assert front[..k] == lines[..k] && front[..k + 1] == lines[..k + 1];
      }
    }
  }

  predicate AllBlank(space: char -> bool, lines: seq<string>) {
    forall i :: 0 <= i < |lines| ==> Blank(space, lines[i])
  }

  lemma {:induction false} JoinBlank(space: char -> bool, lines: seq<string>)
    requires space('\n')
    ensures Blank(space, Join(lines)) <==> AllBlank(space, lines)
  {
    if |lines| > 1 {
      var front, last := lines[..|lines| - 1], lines[|lines| - 1];
      JoinBlank(space, front);
      BlankParts(space, Join(front), last);
    } else if |lines| == 1 {
      assert Join(lines) == lines[0];
    }
  }

  lemma BlankParts(space: char -> bool, a: string, b: string)
    requires space('\n')
    ensures Blank(space, a + "\n" + b) <==> Blank(space, a) && Blank(space, b)
  {
    var all := a + "\n" + b;
    assert forall i :: 0 <= i < |a| ==> all[i] == a[i];
    assert forall i :: 0 <= i < |b| ==> all[|a| + 1 + i] == b[i];
    assert all[|a|] == '\n';
  }

  // ------------------------------------------------------------------ what a split is

  /** A segment stands for its lines: stripped, begun on a line with text, and all but the last line under the cap. */
  ghost predicate Faithful(space: char -> bool, lines: seq<string>, g: Segment) {
    1 <= g.start <= g.end <= |lines| && g.text == Strip(space, Join(lines[g.start - 1..g.end])) && g.text != ""
    && !Blank(space, lines[g.start - 1]) && Size(lines[g.start - 1..g.end - 1]) < MAX_SEGMENT_CHARACTERS
  }

  ghost predicate Covers(segments: seq<Segment>, line: nat) {
    exists k :: 0 <= k < |segments| && segments[k].start <= line <= segments[k].end
  }

  ghost predicate Ordered(segments: seq<Segment>) {
    forall i, j :: 0 <= i < j < |segments| ==> segments[i].end < segments[j].start
  }

  /** Why a segment ends where it does: a paragraph break, the cap, or the end of the text. */
  ghost predicate Ends(space: char -> bool, lines: seq<string>, g: Segment)
    requires 1 <= g.start <= g.end <= |lines|
  {
    Blank(space, lines[g.end - 1]) || Size(lines[g.start - 1..g.end]) >= MAX_SEGMENT_CHARACTERS || g.end == |lines|
  }

  /** The segments of the first n lines, with lines `start..n` still in the buffer. */
  ghost predicate SplitSoFar(space: char -> bool, lines: seq<string>, n: nat, start: nat, segments: seq<Segment>) {
    n <= |lines| && 1 <= start <= n + 1 && Ordered(segments) &&
    (forall k :: 0 <= k < |segments| ==>
      Faithful(space, lines, segments[k]) && Ends(space, lines, segments[k]) && segments[k].end < start) &&
    (forall line :: 1 <= line < start && !Blank(space, lines[line - 1]) ==> Covers(segments, line))
  }

  lemma NothingSplit(space: char -> bool, lines: seq<string>)
    ensures SplitSoFar(space, lines, 0, 1, [])
  {
  }

  method Flush(space: char -> bool, lines: seq<string>, ghost was: nat, start: nat, end: nat, segments: seq<Segment>)
    returns (more: seq<Segment>)
    requires space('\n') && SplitSoFar(space, lines, was, start, segments) && 1 <= start <= end <= |lines| && was <= end
    requires Size(lines[start - 1..end - 1]) < MAX_SEGMENT_CHARACTERS
    requires Blank(space, lines[start - 1]) ==> AllBlank(space, lines[start - 1..end])
    requires Blank(space, lines[end - 1]) || Size(lines[start - 1..end]) >= MAX_SEGMENT_CHARACTERS || end == |lines|
    ensures SplitSoFar(space, lines, end, end + 1, more)
  {
    hide Strip, Join, Size, SplitSoFar, AllBlank;
    var buffer := lines[start - 1..end];
    var body := Strip(space, Join(buffer));
    StripEmpty(space, Join(buffer));
    JoinBlank(space, buffer);
    more := segments;
    if body != "" {
      more := segments + [Segment(body, start, end)];
      Added(space, lines, was, start, end, segments);
    } else {
      Skipped(space, lines, was, start, end, segments);
    }
  }

  lemma Added(space: char -> bool, lines: seq<string>, was: nat, start: nat, end: nat, segments: seq<Segment>)
    requires SplitSoFar(space, lines, was, start, segments) && start <= end <= |lines| && was <= end
    requires Size(lines[start - 1..end - 1]) < MAX_SEGMENT_CHARACTERS && Strip(space, Join(lines[start - 1..end])) != ""
    requires !Blank(space, lines[start - 1])
    requires Blank(space, lines[end - 1]) || Size(lines[start - 1..end]) >= MAX_SEGMENT_CHARACTERS || end == |lines|
    ensures SplitSoFar(space, lines, end, end + 1, segments + [Segment(Strip(space, Join(lines[start - 1..end])), start, end)])
  {
    hide Strip, Join, Size, Blank;
    var last := Segment(Strip(space, Join(lines[start - 1..end])), start, end);
    var more := segments + [last];
    assert more[|segments|] == last;
    assert Faithful(space, lines, last) && Ends(space, lines, last);
    forall line | 1 <= line < end + 1 && !Blank(space, lines[line - 1]) ensures Covers(more, line) {
      if line < start {
        assert Covers(segments, line);
        var k :| 0 <= k < |segments| && segments[k].start <= line <= segments[k].end;
        assert more[k] == segments[k];
      }
    }
  }

  lemma Skipped(space: char -> bool, lines: seq<string>, was: nat, start: nat, end: nat, segments: seq<Segment>)
    requires SplitSoFar(space, lines, was, start, segments) && start <= end <= |lines| && was <= end
    requires AllBlank(space, lines[start - 1..end])
    ensures SplitSoFar(space, lines, end, end + 1, segments)
  {
    hide Faithful, Ends, Covers, Ordered, Blank;
    var buffer := lines[start - 1..end];
    forall k | start - 1 <= k < end ensures Blank(space, lines[k]) {
      assert buffer[k - (start - 1)] == lines[k];
    }
    forall line | 1 <= line < end + 1 && !Blank(space, lines[line - 1]) ensures Covers(segments, line) {
      assert line - 1 < start - 1;
    }
  }

  lemma ButLast(lines: seq<string>, a: nat, b: nat)
    requires a < b <= |lines|
    ensures lines[a..b] != [] && lines[a..b][..|lines[a..b]| - 1] == lines[a..b - 1]
  {
  }

  /**
   Paragraphs where there are any, length otherwise. Every line with text lies in exactly one segment, segments come in
   order and do not overlap, and each is its lines, stripped.
  */
  method Split(space: char -> bool, lines: seq<string>) returns (segments: seq<Segment>)
    requires space('\n')
    ensures Ordered(segments)
    ensures forall k :: 0 <= k < |segments| ==> Faithful(space, lines, segments[k]) && Ends(space, lines, segments[k])
    ensures forall line :: 1 <= line <= |lines| && !Blank(space, lines[line - 1]) ==> Covers(segments, line)
  {
    hide Strip, Ordered, Faithful, Ends;
    segments := [];
    NothingSplit(space, lines);
    var start, n := 1, 0;
    while n < |lines|
      invariant 0 <= n <= |lines| && SplitSoFar(space, lines, n, start, segments)
      invariant start <= n ==> !Blank(space, lines[start - 1]) && Size(lines[start - 1..n]) < MAX_SEGMENT_CHARACTERS
    {
      var line := lines[n];
      n := n + 1;
      var blank := Strip(space, line) == "";
      StripEmpty(space, line);
      var buffer := lines[start - 1..n];
      ButLast(lines, start - 1, n);
      var longEnough := Size(buffer) >= MAX_SEGMENT_CHARACTERS;
      var anyText := !AllBlank(space, buffer);
      assert anyText ==> exists i :: 0 <= i < |buffer| && !Blank(space, buffer[i]);
      if start < n {
        assert buffer[0] == lines[start - 1];
      }
      if (blank && anyText) || longEnough {
        segments := Flush(space, lines, n - 1, start, n, segments);
        start := n + 1;
      } else if blank {
        start := n + 1;
      }
    }
    if start <= n {
      ButLast(lines, start - 1, n);
      segments := Flush(space, lines, n, start, n, segments);
    }
  }

  /** No line is in two segments. */
  lemma OnlyOnce(segments: seq<Segment>, i: nat, j: nat, line: nat)
    requires Ordered(segments) && i < |segments| && j < |segments|
    requires segments[i].start <= line <= segments[i].end && segments[j].start <= line <= segments[j].end
    ensures i == j
  {
  }
}
