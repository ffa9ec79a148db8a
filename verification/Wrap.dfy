/** Wrapping prose (`wrapAt`, internal/cli/help.go).

`WrapAt` is the loop, and `Greedy` the breaking of the words that it writes. It keeps the words (`WrapKeepsWords`), no
line passes the width unless it holds one word (`LinesFit`), and no breaking that fits has fewer lines
(`GreedyIsLeast`).
*/
module Wrap {
  import opened Text

  /** A line that starts in column `start`. */
  ghost predicate Fits(line: seq<string>, start: int, width: int) {
    line != [] && (|line| == 1 || start + |Join(line, ' ')| <= width)
  }

  /** The lines from one that holds `line` already and reaches `column`. */
  function Lines(line: seq<string>, column: int, words: seq<string>, indent: nat, width: int): seq<seq<string>>
    decreases words
  {
    if words == [] then [line]
    else
      var next := column + 1 + |words[0]|;
      if next > width then [line] + Lines([words[0]], indent + |words[0]|, words[1..], indent, width)
      else Lines(line + [words[0]], next, words[1..], indent, width)
  }

  function Greedy(words: seq<string>, first: int, indent: nat, width: int): seq<seq<string>>
    requires words != []
  {
    Lines([words[0]], first + |words[0]|, words[1..], indent, width)
  }

  /** A line after the first stands behind `indent` spaces. */
  function LineText(lines: seq<seq<string>>, k: nat, indent: nat): string
    requires k < |lines| && lines[k] != []
  {
    if k == 0 then Join(lines[k], ' ') else Repeat(' ', indent) + Join(lines[k], ' ')
  }

  ghost predicate Written(texts: seq<string>, lines: seq<seq<string>>, indent: nat) {
    && |texts| == |lines|
    && forall k :: 0 <= k < |lines| ==> lines[k] != [] && texts[k] == LineText(lines, k, indent)
  }

  ghost predicate Stands(out: string, texts: seq<string>, lines: seq<seq<string>>, indent: nat) {
    texts != [] && Written(texts, lines, indent) && out == Join(texts, '\n')
  }

  method WrapAt(text: string, first: int, indent: nat, width: int) returns (out: string, ghost texts: seq<string>)
    ensures Fields(text) == [] ==> out == ""
    ensures Fields(text) != [] ==> Stands(out, texts, Greedy(Fields(text), first, indent, width), indent)
  {
    var words := Fields(text);
    out, texts := "", [];
    var column := first;
    var i := 0;
    ghost var done, line := [], [];
    while i < |words|
      invariant 0 <= i <= |words|
      invariant i == 0 ==> out == "" && column == first && done == [] && texts == []
      invariant i > 0 ==> Stands(out, texts, done + [line], indent)
      invariant i > 0 ==> done + Lines(line, column, words[i..], indent, width) == Greedy(words, first, indent, width)
    {
      var word := words[i];
      var n := |word|;
      assert words[i..][0] == word && words[i..][1..] == words[i + 1..];
      ghost var before := out;
      if i == 0 {
        column := first + n;
        done, line, texts := [], [word], [word];
        FirstWord(word, indent);
      } else if column + 1 + n > width {
        out := out + "\n" + Repeat(' ', indent);
        column := indent + n;
        NewLine(before, texts, done + [line], indent, word);
        MoveOn(done, line, Lines([word], indent + n, words[i + 1..], indent, width));
        texts, done, line := texts + [Repeat(' ', indent) + word], done + [line], [word];
      } else {
        out := out + " ";
        column := column + 1 + n;
        texts := SameLine(before, texts, done, line, indent, word);
        line := line + [word];
      }
      out := out + word;
      i := i + 1;
    }
    if words != [] {
      assert words[i..] == [];
    }
  }

  lemma MoveOn(done: seq<seq<string>>, line: seq<string>, rest: seq<seq<string>>)
    ensures done + ([line] + rest) == (done + [line]) + rest
  {}

  lemma FirstWord(word: string, indent: nat)
    ensures Stands("" + word, [word], [] + [[word]], indent)
  {
    assert LineText([[word]], 0, indent) == word;
  }

  lemma NewLine(out: string, texts: seq<string>, lines: seq<seq<string>>, indent: nat, word: string)
    requires Stands(out, texts, lines, indent)
    ensures Stands(out + "\n" + Repeat(' ', indent) + word, texts + [Repeat(' ', indent) + word], lines + [[word]], indent)
  {
    JoinAppends(texts, Repeat(' ', indent) + word, '\n');
    forall k | 0 <= k < |lines| ensures (lines + [[word]])[k] != [] && texts[k] == LineText(lines + [[word]], k, indent) {
      assert texts[k] == LineText(lines, k, indent);
    }
  }

  lemma SameLine(out: string, texts: seq<string>, done: seq<seq<string>>, line: seq<string>, indent: nat, word: string)
    returns (more: seq<string>)
    requires Stands(out, texts, done + [line], indent)
    ensures Stands(out + " " + word, more, done + [line + [word]], indent)
  {
    var n := |done|;
    var front, last := texts[..n], texts[n];
    more := front + [last + (" " + word)];
    assert texts == front + [last];
    JoinExtends(front, last, " " + word, '\n');
    assert out + " " + word == out + (" " + word);
    var was, now := done + [line], done + [line + [word]];
    assert more[n] == LineText(now, n, indent) by {
      assert texts[n] == LineText(was, n, indent);
      JoinAppends(line, word, ' ');
      assert Join(line + [word], ' ') == Join(line, ' ') + (" " + word);
    }
    forall k | 0 <= k < n ensures now[k] != [] && more[k] == LineText(now, k, indent) {
      assert texts[k] == LineText(was, k, indent);
    }
  }

  // Words and order.

  function Flatten(lines: seq<seq<string>>): seq<string> {
    if lines == [] then [] else lines[0] + Flatten(lines[1..])
  }

  lemma {:induction false} LinesFlatten(line: seq<string>, column: int, words: seq<string>, indent: nat, width: int)
    ensures Flatten(Lines(line, column, words, indent, width)) == line + words
    decreases words
  {
    if words != [] {
      var w := words[0];
      LinesFlatten([w], indent + |w|, words[1..], indent, width);
      LinesFlatten(line + [w], column + 1 + |w|, words[1..], indent, width);
    }
  }

  /** The breaking holds exactly the words, in their order. */
  lemma {:induction false} FieldsOfLines(texts: seq<string>, lines: seq<seq<string>>, indent: nat, n: nat)
    requires Written(texts, lines, indent) && n <= |lines| && AllWords(Flatten(lines[n..]))
    ensures AllFields(texts[n..]) == Flatten(lines[n..])
    decreases |lines| - n
  {
    if n < |lines| {
      var line := lines[n];
      assert lines[n..][1..] == lines[n + 1..] && texts[n..][1..] == texts[n + 1..];
      assert Flatten(lines[n..]) == line + Flatten(lines[n + 1..]);
      WordsOfParts(line, Flatten(lines[n + 1..]));
      FieldsOfLines(texts, lines, indent, n + 1);
      FieldsOfJoin(line, ' ');
      FieldsOfWords(line);
      if n > 0 { FieldsSkipsSpace(Repeat(' ', indent), Join(line, ' ')); }
      assert texts[n] == LineText(lines, n, indent);
    }
  }

  lemma WordsOfParts(a: seq<string>, b: seq<string>)
    requires AllWords(a + b)
    ensures AllWords(a) && AllWords(b)
  {
    forall i | 0 <= i < |a| ensures IsWord(a[i]) { assert (a + b)[i] == a[i]; }
    forall i | 0 <= i < |b| ensures IsWord(b[i]) { assert (a + b)[|a| + i] == b[i]; }
  }

  /** The wrapped text has the words of the text, in their order. */
  lemma WrapKeepsWords(text: string, out: string, texts: seq<string>, first: int, indent: nat, width: int)
    requires Fields(text) != [] && Stands(out, texts, Greedy(Fields(text), first, indent, width), indent)
    ensures Fields(out) == Fields(text)
  {
    var words := Fields(text);
    var lines := Greedy(words, first, indent, width);
    assert AllWords(words) by { FieldsAreWords(text, ""); }
    assert Flatten(lines) == words by {
      LinesFlatten([words[0]], first + |words[0]|, words[1..], indent, width);
      assert [words[0]] + words[1..] == words;
    }
    assert lines[0..] == lines && texts[0..] == texts;
    FieldsOfLines(texts, lines, indent, 0);
    FieldsOfJoin(texts, '\n');
  }

  // Widths.

  /** `lines` break `words` so that every line fits; only the first starts in column `start`. */
  ghost predicate Breaks(lines: seq<seq<string>>, words: seq<string>, start: int, indent: nat, width: int) {
    if lines == [] then words == []
    else
      && |lines[0]| <= |words|
      && lines[0] == words[..|lines[0]|]
      && Fits(lines[0], start, width)
      && Breaks(lines[1..], words[|lines[0]|..], indent, indent, width)
  }

  lemma LineThenLines(
      line: seq<string>, lines: seq<seq<string>>, words: seq<string>, start: int, indent: nat, width: int)
    requires Fits(line, start, width) && Breaks(lines, words, indent, indent, width)
    ensures Breaks([line] + lines, line + words, start, indent, width)
  {
    assert (line + words)[..|line|] == line && (line + words)[|line|..] == words && ([line] + lines)[1..] == lines;
  }

  lemma {:induction false} LinesBreak(
      line: seq<string>, column: int, words: seq<string>, start: int, indent: nat, width: int)
    requires Fits(line, start, width) && column == start + |Join(line, ' ')|
    ensures Breaks(Lines(line, column, words, indent, width), line + words, start, indent, width)
    decreases words
  {
    if words == [] {
      LineThenLines(line, [], [], start, indent, width);
    } else {
      var w := words[0];
      assert [w] + words[1..] == words;
      if column + 1 + |w| > width {
        LinesBreak([w], indent + |w|, words[1..], indent, indent, width);
        LineThenLines(line, Lines([w], indent + |w|, words[1..], indent, width), words, start, indent, width);
      } else {
        JoinAppends(line, w, ' ');
        LinesBreak(line + [w], column + 1 + |w|, words[1..], start, indent, width);
        assert line + [w] + words[1..] == line + words;
      }
    }
  }

  /** Dropping words from the front of a breaking leaves one of no more lines. */
  lemma {:induction false} DropWords(lines: seq<seq<string>>, words: seq<string>, k: nat, indent: nat, width: int)
    returns (fewer: seq<seq<string>>)
    requires k <= |words| && Breaks(lines, words, indent, indent, width)
    ensures Breaks(fewer, words[k..], indent, indent, width) && |fewer| <= |lines|
    decreases lines
  {
    if k == 0 {
      assert words[k..] == words;
      return lines;
    }
    var n := |lines[0]|;
    if k >= n {
      assert words[n..][k - n..] == words[k..];
      fewer := DropWords(lines[1..], words[n..], k - n, indent, width);
    } else {
      var line := words[k..n];
      assert lines[0] == words[..k] + line;
      JoinGrows(words[..k], line, ' ');
      fewer := [line] + lines[1..];
      assert fewer[1..] == lines[1..] && words[k..][..n - k] == line && words[k..][n - k..] == words[n..];
    }
  }

  /** Where no more words fit on the greedy line, any breaking needs a line for it and others for the rest. */
  lemma AfterLine(
      lines: seq<seq<string>>, line: seq<string>, words: seq<string>, start: int, indent: nat, width: int)
    returns (fewer: seq<seq<string>>)
    requires line != [] && words != [] && start + |Join(line, ' ')| + 1 + |words[0]| > width
    requires Breaks(lines, line + words, start, indent, width)
    ensures Breaks(fewer, words, indent, indent, width) && |fewer| < |lines|
  {
    FirstLineIsNoLonger(lines[0], line, words, start, width);
    var m := |lines[0]|;
    fewer := DropWords(lines[1..], (line + words)[m..], |line| - m, indent, width);
    assert (line + words)[m..][|line| - m..] == words;
  }

  lemma {:induction false} LinesAreLeast(
      lines: seq<seq<string>>, line: seq<string>, column: int, words: seq<string>, start: int, indent: nat, width: int)
    requires line != [] && column == start + |Join(line, ' ')|
    requires Breaks(lines, line + words, start, indent, width)
    ensures |Lines(line, column, words, indent, width)| <= |lines|
    decreases words
  {
    if words != [] {
      var w := words[0];
      if column + 1 + |w| > width {
        var fewer := AfterLine(lines, line, words, start, indent, width);
        assert [w] + words[1..] == words;
        LinesAreLeast(fewer, [w], indent + |w|, words[1..], indent, indent, width);
      } else {
        JoinAppends(line, w, ' ');
        assert line + [w] + words[1..] == line + words;
        LinesAreLeast(lines, line + [w], column + 1 + |w|, words[1..], start, indent, width);
      }
    }
  }

  lemma FirstLineIsNoLonger(head: seq<string>, line: seq<string>, words: seq<string>, start: int, width: int)
    requires line != [] && words != [] && start + |Join(line, ' ')| + 1 + |words[0]| > width
    requires |head| <= |line + words| && head == (line + words)[..|head|] && Fits(head, start, width)
    ensures |head| <= |line|
  {
    if |head| > |line| {
      var more := head[|line| + 1..];
      assert head == (line + [words[0]]) + more;
      JoinAppends(line, words[0], ' ');
      JoinGrows(line + [words[0]], more, ' ');
      assert false;
    }
  }

  /** The greedy breaking fits, and no breaking of the same words that fits has fewer lines. */
  lemma GreedyIsLeast(words: seq<string>, first: int, indent: nat, width: int)
    requires words != []
    ensures Breaks(Greedy(words, first, indent, width), words, first, indent, width)
    ensures forall lines :: Breaks(lines, words, first, indent, width) ==>
              |Greedy(words, first, indent, width)| <= |lines|
  {
    var w := words[0];
    assert [w] + words[1..] == words;
    LinesBreak([w], first + |w|, words[1..], first, indent, width);
    forall lines | Breaks(lines, words, first, indent, width)
      ensures |Greedy(words, first, indent, width)| <= |lines| {
      LinesAreLeast(lines, [w], first + |w|, words[1..], first, indent, width);
    }
  }

  // The lines of the written text.

  lemma {:induction false} NoBreakInside(line: seq<string>)
    requires AllWords(line) && line != []
    ensures '\n' !in Join(line, ' ')
  {
    assert '\n' !in line[0] by { assert IsWord(line[0]); }
    if |line| > 1 {
      NoBreakInside(line[1..]);
    }
  }

  lemma {:induction false} BreaksAt(
      lines: seq<seq<string>>, words: seq<string>, start: int, indent: nat, width: int, k: nat)
    requires Breaks(lines, words, start, indent, width) && AllWords(words) && k < |lines|
    ensures Fits(lines[k], if k == 0 then start else indent, width) && AllWords(lines[k])
    decreases k
  {
    var n := |lines[0]|;
    assert lines[0] + words[n..] == words;
    WordsOfParts(lines[0], words[n..]);
    if k > 0 {
      BreaksAt(lines[1..], words[n..], indent, indent, width, k - 1);
    }
  }

  /** The lines of the text that is written end within the width, unless they hold a single word. The first line stands
  at column `first`, and its indentation is not part of the text. */
  lemma LinesFit(text: string, out: string, texts: seq<string>, first: int, indent: nat, width: int)
    requires Fields(text) != [] && Stands(out, texts, Greedy(Fields(text), first, indent, width), indent)
    ensures Split(out, '\n') == texts
    ensures forall k :: 0 <= k < |texts| ==>
              (if k == 0 then first else 0) + |texts[k]| <= width || |Fields(texts[k])| == 1
  {
    var words := Fields(text);
    var lines := Greedy(words, first, indent, width);
    FieldsAreWords(text, "");
    GreedyIsLeast(words, first, indent, width);
    forall k | 0 <= k < |texts|
      ensures '\n' !in texts[k]
      ensures (if k == 0 then first else 0) + |texts[k]| <= width || |Fields(texts[k])| == 1
    {
      BreaksAt(lines, words, first, indent, width, k);
      NoBreakInside(lines[k]);
      assert texts[k] == LineText(lines, k, indent);
      FieldsOfJoin(lines[k], ' ');
      FieldsOfWords(lines[k]);
      if k > 0 { FieldsSkipsSpace(Repeat(' ', indent), Join(lines[k], ' ')); }
    }
    SplitJoin(texts, '\n');
  }

  /** `text` stands behind `from` spaces and holds the words of `line`, with one space between them. */
  ghost predicate Holds(text: string, from: nat, line: seq<string>) {
    && from < |text| && (forall i :: 0 <= i < from ==> text[i] == ' ')
    && Split(text[from..], ' ') == line
  }

  /** Each line but the first starts behind exactly the indentation, and one space stands between its words. */
  lemma LinesHoldWords(text: string, out: string, texts: seq<string>, first: int, indent: nat, width: int, k: nat)
    requires Fields(text) != [] && Stands(out, texts, Greedy(Fields(text), first, indent, width), indent) && k < |texts|
    ensures Holds(texts[k], if k == 0 then 0 else indent, Greedy(Fields(text), first, indent, width)[k])
  {
    var words := Fields(text);
    var lines := Greedy(words, first, indent, width);
    FieldsAreWords(text, "");
    GreedyIsLeast(words, first, indent, width);
    BreaksAt(lines, words, first, indent, width, k);
    assert texts[k] == LineText(lines, k, indent);
    LineHolds(lines[k], if k == 0 then 0 else indent);
    assert Repeat(' ', 0) + Join(lines[k], ' ') == Join(lines[k], ' ');
  }

  lemma LineHolds(line: seq<string>, from: nat)
    requires line != [] && AllWords(line)
    ensures Holds(Repeat(' ', from) + Join(line, ' '), from, line)
  {
    var text := Repeat(' ', from) + Join(line, ' ');
    WordsSplit(line);
    assert text[from..] == Join(line, ' ');
  }

  lemma WordsSplit(line: seq<string>)
    requires line != [] && AllWords(line)
    ensures Join(line, ' ') != "" && Split(Join(line, ' '), ' ') == line
  {
    forall i | 0 <= i < |line| ensures ' ' !in line[i] { assert IsWord(line[i]); }
    SplitJoin(line, ' ');
    assert IsWord(line[0]);
  }
}
