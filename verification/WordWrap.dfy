/**
 Greedy word wrap, used to lay text out on a post image: no word is lost or moved, only a
 word that is too long by itself makes a line too long, and no other way of breaking the
 text under those rules needs fewer lines.
 */
module WordWrap {
  import opened Text

  type Word = string
  type Line = seq<Word>

  predicate IsWord(w: string) {
    w != [] && forall i :: 0 <= i < |w| ==> !IsSpace(w[i])
  }

  /** How many characters precede the first white space. */
  function WordLength(s: string): (n: nat)
    ensures n <= |s|
    ensures forall i :: 0 <= i < n ==> !IsSpace(s[i])
    ensures n < |s| ==> IsSpace(s[n])
  {
    if s == [] || IsSpace(s[0]) then 0 else 1 + WordLength(s[1..])
  }

  /** The words of a text, separated by white space of any length. */
  function Fields(s: string): (words: seq<Word>)
    ensures forall i :: 0 <= i < |words| ==> IsWord(words[i])
    decreases |s|
  {
    if s == [] then []
    else if IsSpace(s[0]) then Fields(s[1..])
    else [s[..WordLength(s)]] + Fields(s[WordLength(s)..])
  }

  /** w is a longest stretch of s without white space, and begins at start. */
  predicate Stretch(s: string, w: Word, start: nat) {
    && IsWord(w) && start + |w| <= |s| && w == s[start..start + |w|]
    && (start == 0 || IsSpace(s[start - 1]))
    && (start + |w| == |s| || IsSpace(s[start + |w|]))
  }

  /** Character i is in the word that begins at start. */
  predicate Within(i: int, w: Word, start: nat) {
    start <= i < start + |w|
  }

  /** The words of a text in order: starts[k] is where the k-th begins, and nothing else is left but white space. */
  ghost predicate Stretches(s: string, words: seq<Word>, starts: seq<nat>) {
    && |starts| == |words|
    && (forall k :: 0 <= k < |words| ==> Stretch(s, words[k], starts[k]))
    && (forall k, m :: 0 <= k < m < |words| ==> starts[k] + |words[k]| < starts[m])
    && (forall i :: 0 <= i < |s| && !IsSpace(s[i]) ==>
          exists k :: 0 <= k < |words| && Within(i, words[k], starts[k]))
  }

  lemma {:induction false} FieldsAreStretches(s: string) returns (starts: seq<nat>)
    ensures Stretches(s, Fields(s), starts)
    decreases |s|
  {
    if s == [] { return []; }
    hide Stretches;
    if IsSpace(s[0]) {
      var rest := FieldsAreStretches(s[1..]);
      starts := Shifted(rest, 1);
      SpaceBefore(s, Fields(s), rest);
    } else {
      var n := WordLength(s);
      var rest := FieldsAreStretches(s[n..]);
      starts := [0] + Shifted(rest, n);
      WordBefore(s, n, Fields(s[n..]), rest);
    }
  }

  function Shifted(starts: seq<nat>, n: nat): seq<nat> {
    seq(|starts|, k requires 0 <= k < |starts| => starts[k] + n)
  }

  lemma StretchShift(s: string, n: nat, w: Word, start: nat)
    requires 0 < n <= |s| && Stretch(s[n..], w, start) && (start == 0 ==> IsSpace(s[n - 1]))
    ensures Stretch(s, w, start + n)
  {
    hide IsSpace, IsWord;
    var tail := s[n..];
    assert tail[start..start + |w|] == s[start + n..start + n + |w|];
    if start > 0 { assert tail[start - 1] == s[start + n - 1]; }
    if start + |w| < |tail| { assert tail[start + |w|] == s[start + n + |w|]; }
  }

  lemma SpaceBefore(s: string, words: seq<Word>, rest: seq<nat>)
    requires s != [] && IsSpace(s[0]) && Stretches(s[1..], words, rest)
    ensures Stretches(s, words, Shifted(rest, 1))
  {
    hide IsSpace, Stretch;
    var tail, starts := s[1..], Shifted(rest, 1);
    forall k | 0 <= k < |words|
      ensures Stretch(s, words[k], starts[k])
    {
      StretchShift(s, 1, words[k], rest[k]);
    }
    forall i | 0 <= i < |s| && !IsSpace(s[i])
      ensures exists k :: 0 <= k < |words| && Within(i, words[k], starts[k])
    {
      assert tail[i - 1] == s[i];
      var k :| 0 <= k < |words| && Within(i - 1, words[k], rest[k]);
      assert Within(i, words[k], starts[k]);
    }
  }

  /** After a word comes white space or the end. */
  lemma NextIsLater(s: string, n: nat, w: Word, start: nat)
    requires 0 < n <= |s| && (n < |s| ==> IsSpace(s[n])) && Stretch(s[n..], w, start)
    ensures start > 0
  {
    hide IsSpace;
  }

  lemma WordBefore(s: string, n: nat, words: seq<Word>, rest: seq<nat>)
    requires 0 < n == WordLength(s) && Stretches(s[n..], words, rest)
    ensures Stretches(s, [s[..n]] + words, [0] + Shifted(rest, n))
  {
    hide IsSpace, WordLength, Stretch;
    var tail, all, starts := s[n..], [s[..n]] + words, [0] + Shifted(rest, n);
    assert Stretch(s, s[..n], 0) by { FirstStretch(s, n); }
    forall k | 0 <= k < |words|
      ensures Stretch(s, words[k], rest[k] + n) && 0 < rest[k]
    {
      NextIsLater(s, n, words[k], rest[k]);
      StretchShift(s, n, words[k], rest[k]);
    }
    forall k | 0 <= k < |all|
      ensures Stretch(s, all[k], starts[k]) && (k > 0 ==> n < starts[k])
    {
      if k > 0 { assert all[k] == words[k - 1] && starts[k] == rest[k - 1] + n; }
    }
    forall i | 0 <= i < |s| && !IsSpace(s[i])
      ensures exists k :: 0 <= k < |all| && Within(i, all[k], starts[k])
    {
      if i < n {
        assert Within(i, all[0], starts[0]);
      } else {
        assert tail[i - n] == s[i];
        var k :| 0 <= k < |words| && Within(i - n, words[k], rest[k]);
        assert Within(i, all[k + 1], starts[k + 1]);
      }
    }
    AllInOrder(n, words, rest, all, starts);
  }

  lemma AllInOrder(n: nat, words: seq<Word>, rest: seq<nat>, all: seq<Word>, starts: seq<nat>)
    requires |rest| == |words| && all != [] && |all[0]| == n && all[1..] == words && starts == [0] + Shifted(rest, n)
    requires forall k :: 0 <= k < |rest| ==> 0 < rest[k]
    requires forall k, m :: 0 <= k < m < |words| ==> rest[k] + |words[k]| < rest[m]
    ensures forall k, m :: 0 <= k < m < |all| ==> starts[k] + |all[k]| < starts[m]
  {
    forall k, m | 0 <= k < m < |all|
      ensures starts[k] + |all[k]| < starts[m]
    {
      assert all[m] == words[m - 1] && starts[m] == rest[m - 1] + n;
      if k > 0 { assert all[k] == words[k - 1] && starts[k] == rest[k - 1] + n; }
    }
  }

  lemma FirstStretch(s: string, n: nat)
    requires 0 < n == WordLength(s)
    ensures Stretch(s, s[..n], 0)
  {
    hide IsSpace;
  }

  function Join(line: Line): string {
    if line == [] then []
    else if |line| == 1 then line[0]
    else Join(line[..|line| - 1]) + " " + line[|line| - 1]
  }

  function Joined(lines: seq<Line>): seq<string> {
    seq(|lines|, i requires 0 <= i < |lines| => Join(lines[i]))
  }

  function Flat(lines: seq<Line>): seq<Word> {
    if lines == [] then [] else lines[0] + Flat(lines[1..])
  }

  /** The line under construction and those after it. */
  function Greedy(cur: Line, rest: seq<Word>, width: int): seq<Line>
    decreases |rest|
  {
    if rest == [] then [cur]
    else if |Join(cur)| + 1 + |rest[0]| > width then [cur] + Greedy([rest[0]], rest[1..], width)
    else Greedy(cur + [rest[0]], rest[1..], width)
  }

  function Lines(s: string, width: int): seq<Line> {
    var words := Fields(s);
    if words == [] then [] else Greedy([words[0]], words[1..], width)
  }

  method Wrap(s: string, width: int) returns (lines: seq<string>)
    ensures lines == Joined(Lines(s, width))
  {
    hide Fields;
    var words := Fields(s);
    if |words| == 0 { return []; }
    lines := [];
    var cur := words[0];
    ghost var done: seq<Line>, line: Line := [], [words[0]];
    for i := 1 to |words|
      invariant line != [] && cur == Join(line) && lines == Joined(done)
      invariant done + Greedy(line, words[i..], width) == Lines(s, width)
    {
      var w := words[i];
      assert words[i..][0] == w && words[i..][1..] == words[i + 1..];
      if |cur| + 1 + |w| > width {
        lines := lines + [cur];
        cur := w;
        done, line := done + [line], [w];
      } else {
        cur := cur + " " + w;
        assert (line + [w])[..|line|] == line;
        line := line + [w];
      }
    }
    lines := lines + [cur];
    assert lines == Joined(done + [line]);
  }

  // ---- the rules a layout has to keep ----

  predicate Fits(line: Line, width: int) {
    line != [] && (|line| == 1 || |Join(line)| <= width)
  }

  /** A layout of these words, in this order, whose lines all fit. */
  ghost predicate Layout(lines: seq<Line>, words: seq<Word>, width: int) {
    Flat(lines) == words && forall i :: 0 <= i < |lines| ==> Fits(lines[i], width)
  }

  lemma LayoutAfter(line: Line, lines: seq<Line>, words: seq<Word>, width: int)
    requires Fits(line, width) && Layout(lines, words, width)
    ensures Layout([line] + lines, line + words, width)
  {
    hide Fits;
    assert ([line] + lines)[1..] == lines;
  }

  lemma {:induction false} GreedyIsLayout(cur: Line, rest: seq<Word>, width: int)
    requires Fits(cur, width)
    ensures Layout(Greedy(cur, rest, width), cur + rest, width)
    decreases |rest|
  {
    hide Layout;
    if rest == [] {
      assert Layout([], [], width) by { EmptyLayout(width); }
      LayoutAfter(cur, [], [], width);
      assert [cur] + [] == [cur] && cur + [] == cur + rest;
    } else {
      var w := rest[0];
      assert rest == [w] + rest[1..];
      if |Join(cur)| + 1 + |w| > width {
        GreedyIsLayout([w], rest[1..], width);
        LayoutAfter(cur, Greedy([w], rest[1..], width), rest, width);
      } else {
        assert (cur + [w])[..|cur|] == cur;
        GreedyIsLayout(cur + [w], rest[1..], width);
        assert cur + [w] + rest[1..] == cur + rest;
      }
    }
  }

  lemma EmptyLayout(width: int)
    ensures Layout([], [], width)
  {
  }

  /** The lines hold the words of the text in order, and a line too long is one word. */
  lemma LinesKeepTheWords(s: string, width: int)
    ensures Layout(Lines(s, width), Fields(s), width)
  {
    var words := Fields(s);
    if words != [] {
      GreedyIsLayout([words[0]], words[1..], width);
      assert words == [words[0]] + words[1..];
    }
  }

  // ---- no layout is shorter ----

  lemma {:induction false} JoinPrefix(line: Line, n: nat)
    requires 1 <= n <= |line|
    ensures |Join(line[..n])| <= |Join(line)|
    decreases |line|
  {
    if n < |line| {
      var front := line[..|line| - 1];
      assert front[..n] == line[..n];
      JoinPrefix(front, n);
    } else {
      assert line[..n] == line;
    }
  }

  lemma {:induction false} JoinSuffix(pre: Line, line: Line)
    requires line != []
    ensures |Join(line)| <= |Join(pre + line)|
    decreases |line|
  {
    var whole := pre + line;
    if |line| > 1 {
      JoinSuffix(pre, line[..|line| - 1]);
      assert whole[..|whole| - 1] == pre + line[..|line| - 1];
    } else if pre != [] {
      assert whole[|whole| - 1] == line[0];
    }
  }

  /** A line that holds cur and the next word, and perhaps more on both sides, is too long. */
  lemma TooMuch(h: Line, pre: Line, cur: Line, w: Word, width: int)
    requires cur != [] && |Join(cur)| + 1 + |w| > width
    requires |h| > |pre + cur| && h[..|pre + cur| + 1] == pre + (cur + [w])
    ensures !Fits(h, width)
  {
    JoinPrefix(h, |pre + cur| + 1);
    JoinSuffix(pre, cur + [w]);
    assert (cur + [w])[..|cur|] == cur;
  }

  /**
   The greedy line never starts before the corresponding line of another layout: if the other
   still has the words pre to place before cur, it needs at least as many lines.
   */
  lemma {:induction false} GreedyIsAhead(pre: Line, cur: Line, rest: seq<Word>, width: int, other: seq<Line>)
    requires cur != [] && Layout(other, pre + cur + rest, width)
    ensures |Greedy(cur, rest, width)| <= |other|
    decreases |rest|
  {
    hide Join, Fits;
    if rest == [] {
      assert |pre + cur + rest| > 0;
    } else {
      var w, tail := rest[0], rest[1..];
      assert rest == [w] + tail;
      if |Join(cur)| + 1 + |w| > width {
        var h, others := other[0], other[1..];
        var words := pre + cur + rest;
        assert words == h + Flat(others);
        if |h| > |pre + cur| {
          assert h[..|pre + cur| + 1] == words[..|pre + cur| + 1] == pre + (cur + [w]);
          TooMuch(h, pre, cur, w, width);
          assert false;
        } else {
          var pre' := (pre + cur)[|h|..];
          assert Flat(others) == words[|h|..] == pre' + [w] + tail;
          GreedyIsAhead(pre', [w], tail, width, others);
        }
      } else {
        assert pre + (cur + [w]) + tail == pre + cur + rest;
        GreedyIsAhead(pre, cur + [w], tail, width, other);
      }
    }
  }

  /** The words of a line are set apart by one space each. */
  lemma OneSpaceBetween(line: Line, w: Word)
    ensures Join([w]) == w
    ensures line != [] ==> Join(line + [w]) == Join(line) + " " + w
  {
    assert (line + [w])[..|line|] == line;
  }

  lemma {:induction false} GreedyBreaksWhenFull(cur: Line, rest: seq<Word>, width: int, k: nat)
    requires cur != [] && k + 1 < |Greedy(cur, rest, width)|
    ensures var lines := Greedy(cur, rest, width);
            lines[k + 1] != [] && |Join(lines[k])| + 1 + |lines[k + 1][0]| > width
    decreases |rest|
  {
    hide Join;
    if |Join(cur)| + 1 + |rest[0]| > width {
      GreedyStarts([rest[0]], rest[1..], width);
      if k > 0 { GreedyBreaksWhenFull([rest[0]], rest[1..], width, k - 1); }
    } else {
      GreedyBreaksWhenFull(cur + [rest[0]], rest[1..], width, k);
    }
  }

  lemma {:induction false} GreedyStarts(cur: Line, rest: seq<Word>, width: int)
    requires cur != []
    ensures var lines := Greedy(cur, rest, width); lines != [] && lines[0] != [] && lines[0][0] == cur[0]
    decreases |rest|
  {
    hide Join;
    if rest != [] && |Join(cur)| + 1 + |rest[0]| <= width { GreedyStarts(cur + [rest[0]], rest[1..], width); }
  }

  /** A line ends only where its next word would not have fitted. */
  lemma BreaksOnlyWhenFull(s: string, width: int, k: nat)
    requires k + 1 < |Lines(s, width)|
    ensures var lines := Lines(s, width);
            lines[k + 1] != [] && |Join(lines[k])| + 1 + |lines[k + 1][0]| > width
  {
    GreedyBreaksWhenFull([Fields(s)[0]], Fields(s)[1..], width, k);
  }

  /** No layout of the text uses fewer lines. */
  lemma FewestLines(s: string, width: int, other: seq<Line>)
    requires Layout(other, Fields(s), width)
    ensures |Lines(s, width)| <= |other|
  {
    var words := Fields(s);
    if words != [] {
      assert [] + [words[0]] + words[1..] == words;
      GreedyIsAhead([], [words[0]], words[1..], width, other);
    }
  }

  // ---- the words can be read back from the lines ----

  lemma {:induction false} WordThenRest(w: Word, s: string)
    requires IsWord(w) && (s == [] || IsSpace(s[0]))
    ensures Fields(w + s) == [w] + Fields(s)
  {
    var n := WordLength(w + s);
    assert forall i :: 0 <= i < |w| ==> (w + s)[i] == w[i];
    assert s != [] ==> (w + s)[|w|] == s[0];
    assert n == |w|;
    assert (w + s)[..n] == w && (w + s)[n..] == s;
  }

  /** Join read from the front. */
  lemma {:induction false} JoinFromFront(line: Line)
    requires |line| > 1
    ensures Join(line) == line[0] + " " + Join(line[1..])
  {
    if |line| > 2 {
      var front, last := line[..|line| - 1], line[|line| - 1];
      JoinFromFront(front);
      assert front[1..] == line[1..][..|line| - 2];
      assert Join(line) == line[0] + " " + (Join(front[1..]) + " " + last);
    }
  }

  lemma {:induction false} WordsOfLine(line: Line)
    requires forall i :: 0 <= i < |line| ==> IsWord(line[i])
    ensures Fields(Join(line)) == line
  {
    if |line| == 1 {
      WordThenRest(line[0], []);
      assert line[0] + [] == line[0];
    } else if |line| > 1 {
      JoinFromFront(line);
      var rest := " " + Join(line[1..]);
      assert line[0] + " " + Join(line[1..]) == line[0] + rest;
      WordThenRest(line[0], rest);
      assert rest[1..] == Join(line[1..]);
      WordsOfLine(line[1..]);
    }
  }

  function AllFields(lines: seq<string>): seq<Word> {
    if lines == [] then [] else Fields(lines[0]) + AllFields(lines[1..])
  }

  lemma {:induction false} FieldsOfLines(lines: seq<Line>)
    requires forall i :: 0 <= i < |Flat(lines)| ==> IsWord(Flat(lines)[i])
    ensures AllFields(Joined(lines)) == Flat(lines)
  {
    if lines != [] {
      var head, tail := lines[0], lines[1..];
      assert Flat(lines) == head + Flat(tail);
      assert forall i :: 0 <= i < |head| ==> head[i] == Flat(lines)[i];
      assert forall i :: 0 <= i < |Flat(tail)| ==> Flat(tail)[i] == Flat(lines)[|head| + i];
      WordsOfLine(head);
      FieldsOfLines(tail);
      assert Joined(lines)[1..] == Joined(tail);
    }
  }

  /** Wrapping loses and reorders no word: the lines read back as the words of the text. */
  lemma WrapIsLossless(s: string, width: int)
    ensures AllFields(Joined(Lines(s, width))) == Fields(s)
  {
    LinesKeepTheWords(s, width);
    FieldsOfLines(Lines(s, width));
  }
}
