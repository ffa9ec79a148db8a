/** Painted tables (internal/cli/style.go and internal/cli/table.go).

A table is laid out without its escapes, and then each line is painted again. `RepaintShows` and `FlushShows` say when
what shows is exactly the layout, and `PaintStays` when the cells keep their paint.
*/
module Table {
  import opened Text

  const ESC: char := '\U{001B}'
  const RESET: string := [ESC] + "[0m"

  predicate IsParameter(c: char) { c == ';' || '0' <= c <= '9' }

  predicate IsFinal(c: char) { '@' <= c <= '~' }

  function SkipParameters(s: string): (rest: string)
    ensures |rest| <= |s|
  {
    if s != "" && IsParameter(s[0]) then SkipParameters(s[1..]) else s
  }

  /** The text after the escape sequence that `s` starts with, if it starts with a whole one. */
  function AfterEscape(s: string): (rest: Option<string>)
    ensures rest.Some? ==> |rest.value| < |s|
  {
    if |s| < 2 || s[0] != ESC || s[1] != '[' then None
    else
      var rest := SkipParameters(s[2..]);
      if rest != "" && IsFinal(rest[0]) then Some(rest[1..]) else None
  }

  /** What shows of `s`. */
  function Strip(s: string): string
    decreases |s|
  {
    if s == "" then ""
    else match AfterEscape(s)
      case Some(rest) => Strip(rest)
      case None => [s[0]] + Strip(s[1..])
  }

  method StripANSI(s: string) returns (out: string)
    ensures out == Strip(s)
  {
    if ESC !in s {
      StripPlain(s);
      return s;
    }
    out := "";
    var i := 0;
    while i < |s|
      invariant 0 <= i <= |s|
      invariant out + Strip(s[i..]) == Strip(s)
    {
      var next := i;
      if s[i] == ESC && i + 1 < |s| && s[i + 1] == '[' {
        var j := EndOfParameters(s, i + 2);
        EscapeEnds(s, i, j);
        next := if j < |s| && IsFinal(s[j]) then j + 1 else i;
      } else {
        NoEscape(s, i);
      }
      if next == i {
        StripsOne(s, i, out);
        out := out + [s[i]];
        next := i + 1;
      }
      i := next;
    }
    assert s[i..] == "";
  }

  method EndOfParameters(s: string, i: nat) returns (j: nat)
    requires i <= |s|
    ensures i <= j <= |s| && SkipParameters(s[i..]) == s[j..] && (j < |s| ==> !IsParameter(s[j]))
  {
    j := i;
    while j < |s| && IsParameter(s[j])
      invariant i <= j <= |s| && SkipParameters(s[j..]) == SkipParameters(s[i..])
    {
      SkipsOne(s, j);
      j := j + 1;
    }
  }

  lemma SkipsOne(s: string, j: nat)
    requires j < |s| && IsParameter(s[j])
    ensures SkipParameters(s[j..]) == SkipParameters(s[j + 1..])
  {
    assert s[j..][1..] == s[j + 1..];
  }

  lemma NoEscape(s: string, i: nat)
    requires i < |s| && !(s[i] == ESC && i + 1 < |s| && s[i + 1] == '[')
    ensures AfterEscape(s[i..]) == None
  {}

  lemma EscapeEnds(s: string, i: nat, j: nat)
    requires i + 2 <= j <= |s| && s[i] == ESC && s[i + 1] == '['
    requires SkipParameters(s[i + 2..]) == s[j..]
    ensures AfterEscape(s[i..]) == if j < |s| && IsFinal(s[j]) then Some(s[j + 1..]) else None
    ensures j < |s| && IsFinal(s[j]) ==> Strip(s[i..]) == Strip(s[j + 1..])
  {
    assert s[i..][2..] == s[i + 2..];
    assert j < |s| ==> s[j..][1..] == s[j + 1..];
  }

  lemma StripsOne(s: string, i: nat, out: string)
    requires i < |s| && AfterEscape(s[i..]) == None
    ensures out + Strip(s[i..]) == out + [s[i]] + Strip(s[i + 1..])
  {
    assert s[i..][1..] == s[i + 1..] && s[i..][0] == s[i];
  }

  lemma {:induction false} StripPlain(s: string)
    requires ESC !in s
    ensures Strip(s) == s && Closed(s)
  {
    if s != "" {
      StripPlain(s[1..]);
    }
  }

  /** Every escape character starts a whole sequence. */
  predicate Closed(s: string)
    decreases |s|
  {
    || s == ""
    || match AfterEscape(s)
       case Some(rest) => Closed(rest)
       case None => s[0] != ESC && Closed(s[1..])
  }

  lemma {:induction false} SkipAppends(a: string, b: string)
    requires SkipParameters(a) != ""
    ensures SkipParameters(a + b) == SkipParameters(a) + b
  {
    if IsParameter(a[0]) {
      assert (a + b)[1..] == a[1..] + b;
      SkipAppends(a[1..], b);
    }
  }

  lemma EscapeAppends(a: string, b: string)
    requires AfterEscape(a).Some?
    ensures AfterEscape(a + b) == Some(AfterEscape(a).value + b)
  {
    assert (a + b)[2..] == a[2..] + b;
    SkipAppends(a[2..], b);
    assert (SkipParameters(a[2..]) + b)[1..] == SkipParameters(a[2..])[1..] + b;
  }

  /** Stripping works through closed text piece by piece. */
  lemma {:induction false} StripAppends(a: string, b: string)
    requires Closed(a)
    ensures Strip(a + b) == Strip(a) + Strip(b)
    ensures Closed(b) ==> Closed(a + b)
    decreases |a|
  {
    if a == "" {
      assert a + b == b;
    } else if AfterEscape(a).Some? {
      EscapeAppends(a, b);
      StripAppends(AfterEscape(a).value, b);
    } else {
      assert (a + b)[1..] == a[1..] + b;
      StripAppends(a[1..], b);
      assert [a[0]] + (Strip(a[1..]) + Strip(b)) == [a[0]] + Strip(a[1..]) + Strip(b);
    }
  }

  /** Of closed text no escape character shows, and stripping only takes characters away. */
  lemma {:induction false} StripKeeps(s: string)
    ensures Closed(s) ==> ESC !in Strip(s)
    ensures forall c :: c in Strip(s) ==> c in s
    decreases |s|
  {
    if s != "" {
      if AfterEscape(s).Some? {
        SkipKeeps(s[2..]);
        StripKeeps(AfterEscape(s).value);
        assert forall c :: c in s[2..] ==> c in s;
      } else {
        StripKeeps(s[1..]);
      }
    }
  }

  lemma {:induction false} SkipKeeps(s: string)
    ensures forall c :: c in SkipParameters(s) ==> c in s
  {
    if s != "" {
      SkipKeeps(s[1..]);
    }
  }

  function Paint(on: bool, code: string, s: string): string {
    if !on || s == "" then s else code + s + RESET
  }

  /** Paint does not show, and painted text stays closed. */
  lemma PaintShowsNothing(on: bool, code: string, s: string)
    requires Closed(code) && Strip(code) == "" && Closed(s)
    ensures Strip(Paint(on, code, s)) == Strip(s) && Closed(Paint(on, code, s))
  {
    assert Closed(RESET) && Strip(RESET) == "" by {
      assert RESET[2..] == "0m" && RESET[2..][1..] == "m";
      assert SkipParameters("m") == "m" && AfterEscape(RESET) == Some("");
    }
    if on && s != "" {
      StripAppends(code, s);
      StripAppends(code + s, RESET);
    }
  }

  function PadTo(s: string, width: int): string {
    var n := width - |Strip(s)|;
    if n > 0 then s + Repeat(' ', n) else s
  }

  lemma {:induction false} SkipSpaces(s: string, n: nat)
    ensures SkipParameters(s + Repeat(' ', n)) == SkipParameters(s) + Repeat(' ', n)
  {
    if s == "" {
      assert s + Repeat(' ', n) == Repeat(' ', n);
    } else {
      assert (s + Repeat(' ', n))[1..] == s[1..] + Repeat(' ', n);
      SkipSpaces(s[1..], n);
    }
  }

  lemma EscapeBeforeSpaces(s: string, n: nat)
    requires s != ""
    ensures AfterEscape(s + Repeat(' ', n)) == match AfterEscape(s) case Some(rest) => Some(rest + Repeat(' ', n)) case None => None
  {
    var spaces := Repeat(' ', n);
    var longer := s + spaces;
    if |s| >= 2 {
      assert longer[2..] == s[2..] + spaces;
      SkipSpaces(s[2..], n);
      var rest := SkipParameters(s[2..]);
      if rest != "" {
        assert (rest + spaces)[1..] == rest[1..] + spaces;
      }
    }
  }

  /** Spaces close no sequence, so whatever stands before them is stripped as it would be alone. */
  lemma {:induction false} StripSpaces(s: string, n: nat)
    ensures Strip(s + Repeat(' ', n)) == Strip(s) + Repeat(' ', n)
    decreases |s|
  {
    var spaces := Repeat(' ', n);
    if s == "" {
      assert s + spaces == spaces;
      StripPlain(spaces);
    } else {
      EscapeBeforeSpaces(s, n);
      if AfterEscape(s).Some? {
        StripSpaces(AfterEscape(s).value, n);
      } else {
        assert (s + spaces)[1..] == s[1..] + spaces;
        StripSpaces(s[1..], n);
      }
    }
  }

  /** What shows is what showed before, and then spaces up to the width. */
  lemma PadToShows(s: string, width: int)
    ensures var shown := Strip(PadTo(s, width));
            && |shown| == (if width > |Strip(s)| then width else |Strip(s)|)
            && shown == Strip(s) + Repeat(' ', |shown| - |Strip(s)|)
  {
    var n := width - |Strip(s)|;
    if n > 0 {
      StripSpaces(s, n);
    } else {
      assert Strip(s) == Strip(s) + Repeat(' ', 0);
    }
  }

  // One line.

  function Lead(s: string): (n: nat)
    ensures n <= |s|
  {
    if s != "" && s[0] == ' ' then 1 + Lead(s[1..]) else 0
  }

  predicate Starts(s: string, prefix: string) {
    |prefix| <= |s| && s[..|prefix|] == prefix
  }

  predicate IsSpaces(s: string) { Lead(s) == |s| }

  lemma {:induction false} LeadIsSpaces(s: string, n: nat)
    requires n <= Lead(s)
    ensures IsSpaces(s[..n])
  {
    if n > 0 {
      LeadIsSpaces(s[1..], n - 1);
      assert s[..n][1..] == s[1..][..n - 1];
    }
  }

  /** What stands after `text` in the layout: the gap before `next`, and the layout from there. */
  function NextGap(text: string, next: string, laid: string): Option<(string, string)> {
    if !Starts(laid, text) then None
    else
      var rest := laid[|text|..];
      var gap := Lead(rest) - Lead(next);
      if gap < 0 then None else Some((rest[..gap], rest[gap..]))
  }

  lemma NextGapIsOfTheLayout(text: string, next: string, laid: string)
    requires NextGap(text, next, laid).Some?
    ensures var (gap, left) := NextGap(text, next, laid).value;
            laid == text + gap + left && IsSpaces(gap)
  {
    var rest := laid[|text|..];
    LeadIsSpaces(rest, Lead(rest) - Lead(next));
    assert laid == text + rest;
  }

  /** What stands after each of the texts, while the layout runs in step with them. */
  function Gaps(texts: seq<string>, laid: string): (gaps: Option<seq<string>>)
    requires texts != []
    ensures gaps.Some? ==> |gaps.value| == |texts|
  {
    if |texts| == 1 then (if Starts(laid, texts[0]) then Some([laid[|texts[0]|..]]) else None)
    else match NextGap(texts[0], texts[1], laid)
      case None => None
      case Some(step) =>
        match Gaps(texts[1..], step.1)
        case None => None
        case Some(more) => Some([step.0] + more)
  }

  /** The cells, each with what stands after it. */
  function Weave(cells: seq<string>, gaps: seq<string>): string
    requires |cells| == |gaps| != 0
  {
    if |cells| == 1 then cells[0] + gaps[0] else cells[0] + gaps[0] + Weave(cells[1..], gaps[1..])
  }

  function Texts(cells: seq<string>): (texts: seq<string>)
    ensures |texts| == |cells|
  {
    if cells == [] then [] else [Strip(cells[0])] + Texts(cells[1..])
  }

  lemma {:induction false} TextAt(cells: seq<string>, i: nat)
    requires i < |cells|
    ensures Texts(cells)[i] == Strip(cells[i])
  {
    if i > 0 { TextAt(cells[1..], i - 1); }
  }

  function RepaintRow(cells: seq<string>, laid: string): string
    requires cells != []
  {
    match Gaps(Texts(cells), laid)
    case Some(gaps) => Weave(cells, gaps)
    case None => laid
  }

  function Repaint(written: string, laid: string): string {
    var cells := Split(written, '\t');
    if |cells| == 1 then written else RepaintRow(cells, laid)
  }

  method RepaintLine(written: string, laid: string) returns (out: string)
    ensures out == Repaint(written, laid)
  {
    var cells := Split(written, '\t');
    if |cells| == 1 {
      return written;
    }
    out := RepaintCells(cells, laid);
  }

  method RepaintCells(cells: seq<string>, laid: string) returns (out: string)
    requires |cells| > 1
    ensures out == RepaintRow(cells, laid)
  {
    out := "";
    var left := laid;
    var i := 0;
    ghost var texts := Texts(cells);
    while i < |cells| - 1
      invariant 0 <= i < |cells|
      invariant Brushed(cells, texts, i, laid) == Some(Brush(out, left))
    {
      var text := TextOf(cells, i);
      var next := TextOf(cells, i + 1);
      var step := NextGap(text, next, left);
      if step.None? {
        BrushStops(cells, texts, i + 1, laid);
        return laid;
      }
      out := out + cells[i] + step.value.0;
      left := step.value.1;
      i := i + 1;
    }
    BrushEnds(cells, texts, laid);
    var text := TextOf(cells, i);
    if !Starts(left, text) {
      return laid;
    }
    out := out + cells[i] + left[|text|..];
  }

  method TextOf(cells: seq<string>, i: nat) returns (text: string)
    requires i < |cells|
    ensures text == Texts(cells)[i]
  {
    text := StripANSI(cells[i]);
    TextAt(cells, i);
  }

  /** The loop's state: what is written, and what is left of the layout. */
  datatype Brush = Brush(out: string, left: string)

  /** The state before cell `i`, if the loop gets there. */
  ghost function Brushed(cells: seq<string>, texts: seq<string>, i: nat, laid: string): Option<Brush>
    requires i < |cells| == |texts|
  {
    if i == 0 then Some(Brush("", laid))
    else match Brushed(cells, texts, i - 1, laid)
      case None => None
      case Some(b) =>
        match NextGap(texts[i - 1], texts[i], b.left)
        case None => None
        case Some(step) => Some(Brush(b.out + cells[i - 1] + step.0, step.1))
  }

  ghost function BrushOn(cells: seq<string>, texts: seq<string>, i: nat, b: Option<Brush>): Option<string>
    requires i < |cells| == |texts|
  {
    match b
    case None => None
    case Some(b) => Repainted(b.out, cells[i..], Gaps(texts[i..], b.left))
  }

  lemma {:induction false} BrushGoesOn(cells: seq<string>, texts: seq<string>, i: nat, laid: string)
    requires i < |cells| == |texts|
    ensures BrushOn(cells, texts, i, Brushed(cells, texts, i, laid)) == Repainted("", cells, Gaps(texts, laid))
  {
    if i == 0 {
      assert cells[0..] == cells && texts[0..] == texts;
    } else {
      BrushGoesOn(cells, texts, i - 1, laid);
      var was := Brushed(cells, texts, i - 1, laid);
      if was.Some? {
        RepaintsOne(was.value.out, cells[i - 1..], texts[i - 1..], was.value.left);
        Reslice(cells, i - 1, 1);
        Reslice(texts, i - 1, 1);
      }
    }
  }

  lemma BrushStops(cells: seq<string>, texts: seq<string>, i: nat, laid: string)
    requires i < |cells| == |texts| && Brushed(cells, texts, i, laid) == None
    ensures Gaps(texts, laid) == None
  {
    BrushGoesOn(cells, texts, i, laid);
  }

  lemma BrushEnds(cells: seq<string>, texts: seq<string>, laid: string)
    requires |cells| == |texts| != 0
    ensures var i := |cells| - 1;
            match Brushed(cells, texts, i, laid)
            case None => true
            case Some(b) =>
              if Starts(b.left, texts[i]) then
                Gaps(texts, laid).Some? && Weave(cells, Gaps(texts, laid).value) == b.out + cells[i] + b.left[|texts[i]|..]
              else Gaps(texts, laid) == None
  {
    var i := |cells| - 1;
    BrushGoesOn(cells, texts, i, laid);
    var b := Brushed(cells, texts, i, laid);
    if b.Some? && Starts(b.value.left, texts[i]) {
      RepaintsLast(b.value.out, cells[i..], texts[i..], b.value.left);
      var gaps := Gaps(texts, laid).value;
      assert "" + Weave(cells, gaps) == Weave(cells, gaps);
    }
  }

  /** The cells in the gaps of the layout, behind `out`; nothing when the two do not run in step. */
  ghost function Repainted(out: string, cells: seq<string>, gaps: Option<seq<string>>): Option<string>
    requires cells != [] && (gaps.Some? ==> |gaps.value| == |cells|)
  {
    if gaps.None? then None else Some(out + Weave(cells, gaps.value))
  }

  lemma Reslice<T>(s: seq<T>, from: nat, n: nat)
    requires from + n <= |s|
    ensures s[from..][..n] == s[from..from + n] && s[from..][n..] == s[from + n..]
  {}

  lemma RepaintsOne(out: string, cells: seq<string>, texts: seq<string>, left: string)
    requires |cells| == |texts| > 1
    ensures Repainted(out, cells, Gaps(texts, left)) ==
            match NextGap(texts[0], texts[1], left)
            case None => None
            case Some(step) => Repainted(out + cells[0] + step.0, cells[1..], Gaps(texts[1..], step.1))
  {
    var step := NextGap(texts[0], texts[1], left);
    if step.Some? {
      var later := Gaps(texts[1..], step.value.1);
      if later.Some? {
        WeaveOne(out, cells, step.value.0, later.value);
      }
    }
  }

  lemma WeaveOne(out: string, cells: seq<string>, gap: string, gaps: seq<string>)
    requires |cells| == 1 + |gaps| > 1
    ensures out + Weave(cells, [gap] + gaps) == out + cells[0] + gap + Weave(cells[1..], gaps)
  {
    assert ([gap] + gaps)[1..] == gaps;
    Regroup(out, cells[0], gap, Weave(cells[1..], gaps));
  }

  lemma Regroup(a: string, b: string, c: string, d: string)
    ensures a + (b + c + d) == a + b + c + d
  {}

  lemma RepaintsLast(out: string, cells: seq<string>, texts: seq<string>, left: string)
    requires |cells| == |texts| == 1 && Starts(left, texts[0])
    ensures Repainted(out, cells, Gaps(texts, left)) == Some(out + cells[0] + left[|texts[0]|..])
  {
    assert out + Weave(cells, [left[|texts[0]|..]]) == out + cells[0] + left[|texts[0]|..];
  }

  /** Only spaces stand between the cells. */
  ghost predicate Padded(gaps: seq<string>) {
    forall i :: 0 <= i < |gaps| - 1 ==> IsSpaces(gaps[i])
  }

  /** The layout is the texts with these gaps, so a repainted line keeps every cell, and keeps them in place. */
  lemma {:induction false} GapsAreOfTheLayout(texts: seq<string>, laid: string)
    requires texts != [] && Gaps(texts, laid).Some?
    ensures Weave(texts, Gaps(texts, laid).value) == laid && Padded(Gaps(texts, laid).value)
  {
    var gaps := Gaps(texts, laid).value;
    if |texts| > 1 {
      var step := NextGap(texts[0], texts[1], laid).value;
      NextGapIsOfTheLayout(texts[0], texts[1], laid);
      GapsAreOfTheLayout(texts[1..], step.1);
      assert gaps[1..] == Gaps(texts[1..], step.1).value;
      forall i | 0 <= i < |gaps| - 1 ensures IsSpaces(gaps[i]) {
        if i > 0 { assert gaps[i] == gaps[1..][i - 1]; }
      }
    }
  }

  ghost predicate AllClosed(cells: seq<string>) {
    forall i :: 0 <= i < |cells| ==> Closed(cells[i])
  }

  lemma {:induction false} StripWeave(cells: seq<string>, gaps: seq<string>)
    requires |cells| == |gaps| != 0 && AllClosed(cells)
    requires ESC !in Weave(Texts(cells), gaps)
    ensures Strip(Weave(cells, gaps)) == Weave(Texts(cells), gaps) && Closed(Weave(cells, gaps))
  {
    var gap := gaps[0];
    var later := if |cells| == 1 then "" else Weave(cells[1..], gaps[1..]);
    var laterTexts := if |cells| == 1 then "" else Weave(Texts(cells[1..]), gaps[1..]);
    assert Texts(cells)[1..] == Texts(cells[1..]);
    assert Weave(Texts(cells), gaps) == Strip(cells[0]) + gap + laterTexts;
    NotIn(ESC, Strip(cells[0]), gap, laterTexts);
    if |cells| > 1 {
      StripWeave(cells[1..], gaps[1..]);
    }
    StripPlain(gap);
    StripAppends(cells[0], gap);
    StripAppends(cells[0] + gap, later);
  }

  lemma NotIn(c: char, a: string, b: string, d: string)
    requires c !in a + b + d
    ensures c !in b && c !in d
  {
    forall i | 0 <= i < |b| ensures b[i] != c { assert (a + b + d)[|a| + i] == b[i]; }
    forall i | 0 <= i < |d| ensures d[i] != c { assert (a + b + d)[|a + b| + i] == d[i]; }
  }

  /** What shows of a repainted row is the laid-out line; a line of one cell is not laid out again, so it shows the
  layout exactly when the layout did not change it. */
  lemma RepaintShows(written: string, laid: string)
    requires AllClosed(Split(written, '\t')) && ESC !in laid
    ensures Strip(Repaint(written, laid)) == laid <==> (|Split(written, '\t')| > 1 || Strip(written) == laid)
    ensures Closed(Repaint(written, laid))
  {
    var cells := Split(written, '\t');
    StripPlain(laid);
    if |cells| == 1 {
      JoinSplit(written, '\t');
    } else if Gaps(Texts(cells), laid).Some? {
      GapsAreOfTheLayout(Texts(cells), laid);
      StripWeave(cells, Gaps(Texts(cells), laid).value);
    }
  }

  // Which rows keep their paint.

  /** No blank cell, after the first, stands before one that starts with a space. */
  predicate Steady(texts: seq<string>) {
    |texts| <= 2 || ((IsSpaces(texts[1]) ==> Lead(texts[2]) == 0) && Steady(texts[1..]))
  }

  function Unlead(s: string): string { s[Lead(s)..] }

  /** What stands after the first text. */
  function After(texts: seq<string>, pads: seq<string>): string
    requires |texts| == |pads| != 0
  {
    pads[0] + if |texts| == 1 then "" else Weave(texts[1..], pads[1..])
  }

  lemma WeaveIs(texts: seq<string>, pads: seq<string>)
    requires |texts| == |pads| != 0
    ensures Weave(texts, pads) == texts[0] + After(texts, pads)
  {}

  lemma {:induction false} LeadAppends(a: string, b: string)
    ensures Lead(a + b) == if IsSpaces(a) then |a| + Lead(b) else Lead(a)
  {
    if a == "" {
      assert a + b == b;
    } else {
      assert (a + b)[1..] == a[1..] + b;
      LeadAppends(a[1..], b);
    }
  }

  lemma {:induction false} LeadChars(s: string)
    ensures forall i :: 0 <= i < Lead(s) ==> s[i] == ' '
    ensures Lead(Unlead(s)) == 0
  {
    if Lead(s) > 0 {
      LeadChars(s[1..]);
      assert Unlead(s) == Unlead(s[1..]);
    }
  }

  /** The gap before a cell is its padding; before a blank cell it takes all the space there is. */
  lemma GapIs(text: string, next: string, rest: string, pad: string, after: string)
    requires IsSpaces(pad) && rest == pad + (next + after)
    ensures NextGap(text, next, text + rest).Some?
    ensures var left := NextGap(text, next, text + rest).value.1;
            left == next + if IsSpaces(next) then Unlead(after) else after
  {
    NextGapAfter(text, next, rest);
    if IsSpaces(next) { BlankTakesAll(next, rest, pad, after); } else { PadIsLead(next, rest, pad, after); }
  }

  lemma BlankTakesAll(next: string, rest: string, pad: string, after: string)
    requires IsSpaces(next) && IsSpaces(pad) && rest == pad + (next + after)
    ensures Lead(rest) >= Lead(next) && rest[Lead(rest) - Lead(next)..] == next + Unlead(after)
  {
    LeadAppends(pad, next + after);
    LeadAppends(next, after);
    TrimAppends(pad, next + after);
    TrimAppends(next, after);
    LastSpaces(rest, next, Lead(rest) - Lead(next));
  }

  lemma PadIsLead(next: string, rest: string, pad: string, after: string)
    requires !IsSpaces(next) && IsSpaces(pad) && rest == pad + (next + after)
    ensures Lead(rest) - Lead(next) == |pad| && rest[|pad|..] == next + after
  {
    LeadAppends(pad, next + after);
    LeadAppends(next, after);
  }

  lemma NextGapAfter(text: string, next: string, rest: string)
    ensures NextGap(text, next, text + rest) ==
              var gap := Lead(rest) - Lead(next);
              if gap < 0 then None else Some((rest[..gap], rest[gap..]))
  {
    assert (text + rest)[..|text|] == text && (text + rest)[|text|..] == rest;
  }

  lemma LastSpaces(s: string, spaces: string, from: nat)
    requires IsSpaces(spaces) && from + |spaces| == Lead(s)
    ensures s[from..] == spaces + s[Lead(s)..]
  {
    LeadChars(s);
    LeadChars(spaces);
  }

  /** Where the space before a cell is gone already, the cell may not start with any. */
  lemma NoGapIs(text: string, next: string, rest: string, pad: string, after: string)
    requires IsSpaces(pad) && rest == Unlead(pad + (next + after))
    ensures NextGap(text, next, text + rest).Some? <==> Lead(next) == 0
    ensures Lead(next) == 0 ==>
              NextGap(text, next, text + rest).value.1 == next + if IsSpaces(next) then Unlead(after) else after
  {
    NextGapAfter(text, next, rest);
    LeadChars(pad + (next + after));
    TrimAppends(pad, next + after);
    if Lead(next) == 0 {
      assert rest[0..] == rest;
      TrimAppends(next, after);
      assert IsSpaces(next) ==> next + Unlead(after) == Unlead(after);
    }
  }

  lemma TrimAppends(a: string, b: string)
    ensures IsSpaces(a) ==> Unlead(a + b) == Unlead(b)
    ensures !IsSpaces(a) && Lead(a) == 0 ==> Unlead(a + b) == a + b
  {
    LeadAppends(a, b);
  }

  lemma {:induction false} GapsExist(texts: seq<string>, pads: seq<string>, trimmed: bool, laid: string)
    requires |texts| == |pads| != 0 && Padded(pads)
    requires laid == texts[0] + if trimmed then Unlead(After(texts, pads)) else After(texts, pads)
    ensures Gaps(texts, laid).Some? <==>
              Steady(texts) && (trimmed && |texts| > 1 ==> Lead(texts[1]) == 0)
  {
    if |texts| > 1 {
      assert IsSpaces(pads[0]);
      var after := After(texts[1..], pads[1..]);
      WeaveIs(texts[1..], pads[1..]);
      if trimmed {
        NoGapIs(texts[0], texts[1], Unlead(After(texts, pads)), pads[0], after);
      } else {
        GapIs(texts[0], texts[1], After(texts, pads), pads[0], after);
      }
      var step := NextGap(texts[0], texts[1], laid);
      if step.Some? {
        assert Padded(pads[1..]) by {
          forall i | 0 <= i < |pads[1..]| - 1 ensures IsSpaces(pads[1..][i]) { assert pads[1..][i] == pads[i + 1]; }
        }
        GapsExist(texts[1..], pads[1..], IsSpaces(texts[1]), step.value.1);
      }
    } else {
      assert Starts(laid, texts[0]);
    }
  }

  /** A row laid out with padding after its cells keeps its paint exactly when its texts are steady. Then it is the cells
  with the gaps the layout has; otherwise it is the layout. */
  lemma PaintStays(cells: seq<string>, pads: seq<string>, laid: string)
    requires |cells| == |pads| > 1 && Padded(pads) && laid == Weave(Texts(cells), pads)
    ensures Gaps(Texts(cells), laid).Some? <==> Steady(Texts(cells))
    ensures Steady(Texts(cells)) ==>
              var gaps := Gaps(Texts(cells), laid).value;
              && Padded(gaps)
              && RepaintRow(cells, laid) == Weave(cells, gaps)
              && laid == Weave(Texts(cells), gaps)
    ensures !Steady(Texts(cells)) ==> RepaintRow(cells, laid) == laid
  {
    var texts := Texts(cells);
    WeaveIs(texts, pads);
    GapsExist(texts, pads, false, laid);
    if Gaps(texts, laid).Some? {
      GapsAreOfTheLayout(texts, laid);
    }
  }

  /** So a line is repainted as the cells it was written with, in the gaps of the layout, if its texts are steady; else it
  is the layout. A line of one cell stays as it was written. */
  lemma RepaintKeepsCells(written: string, laid: string, pads: seq<string>) returns (gaps: seq<string>)
    ensures '\t' !in written ==> Repaint(written, laid) == written
    ensures var cells := Split(written, '\t');
            |cells| > 1 && |pads| == |cells| && Padded(pads) && laid == Weave(Texts(cells), pads) ==>
              if Steady(Texts(cells)) then
                |gaps| == |cells| && Padded(gaps) && laid == Weave(Texts(cells), gaps) && Repaint(written, laid) == Weave(cells, gaps)
              else Repaint(written, laid) == laid
  {
    var cells := Split(written, '\t');
    if '\t' !in written { SplitWhole(written, '\t'); }
    gaps := [];
    if |cells| > 1 && |pads| == |cells| && Padded(pads) && laid == Weave(Texts(cells), pads) {
      PaintStays(cells, pads, laid);
      if Steady(Texts(cells)) { gaps := Gaps(Texts(cells), laid).value; }
    }
  }

  // A whole table.

  function RepaintAll(src: seq<string>, out: seq<string>): (lines: seq<string>)
    requires |src| == |out|
    ensures |lines| == |src|
  {
    if src == [] then [] else [Repaint(src[0], out[0])] + RepaintAll(src[1..], out[1..])
  }

  lemma {:induction false} RepaintAt(src: seq<string>, out: seq<string>, i: nat)
    requires i < |src| == |out|
    ensures RepaintAll(src, out)[i] == Repaint(src[i], out[i])
  {
    if i > 0 { RepaintAt(src[1..], out[1..], i - 1); }
  }

  function Flushed(written: string, laid: string): string {
    var src, out := Split(written, '\n'), Split(laid, '\n');
    if Strip(written) == written || |src| != |out| then laid
    else Join(RepaintAll(src, out), '\n')
  }

  method Flush(written: string, layout: string -> string) returns (shown: string)
    ensures shown == Flushed(written, layout(Strip(written)))
  {
    var plain := StripANSI(written);
    var laid := layout(plain);
    if plain == written {
      return laid;
    }
    var src, out := Split(written, '\n'), Split(laid, '\n');
    if |src| != |out| {
      return laid;
    }
    shown := FlushLines(src, out);
  }

  method FlushLines(src: seq<string>, out: seq<string>) returns (shown: string)
    requires |src| == |out| != 0
    ensures shown == Join(RepaintAll(src, out), '\n')
  {
    shown := "";
    var i := 0;
    ghost var lines := RepaintAll(src, out);
    while i < |src|
      invariant 0 <= i <= |src|
      invariant shown == Printed(lines, i)
    {
      if i > 0 {
        shown := shown + ['\n'];
      }
      var line := RepaintOne(src, out, i);
      shown := shown + line;
      i := i + 1;
    }
    PrintedIsJoined(lines, i);
    assert lines[..i] == lines;
  }

  method RepaintOne(src: seq<string>, out: seq<string>, i: nat) returns (line: string)
    requires i < |src| == |out|
    ensures line == RepaintAll(src, out)[i]
  {
    line := RepaintLine(src[i], out[i]);
    RepaintAt(src, out, i);
  }

  /** The first `n` lines as they are printed. */
  function Printed(lines: seq<string>, n: nat): string
    requires n <= |lines|
  {
    if n == 0 then "" else Printed(lines, n - 1) + (if n == 1 then "" else ['\n']) + lines[n - 1]
  }

  lemma {:induction false} PrintedIsJoined(lines: seq<string>, n: nat)
    requires 0 < n <= |lines|
    ensures Printed(lines, n) == Join(lines[..n], '\n')
  {
    assert lines[..n] == lines[..n - 1] + [lines[n - 1]];
    if n > 1 {
      PrintedIsJoined(lines, n - 1);
      JoinAppends(lines[..n - 1], lines[n - 1], '\n');
    }
  }

  lemma {:induction false} StripJoin(lines: seq<string>)
    requires lines != [] && AllClosed(lines)
    ensures Strip(Join(lines, '\n')) == Join(Texts(lines), '\n')
  {
    if |lines| > 1 {
      StripJoin(lines[1..]);
      var later := Join(lines[1..], '\n');
      assert Texts(lines)[1..] == Texts(lines[1..]);
      StripPlain("\n");
      StripAppends(lines[0], "\n");
      StripAppends(lines[0] + "\n", later);
    }
  }

  /** Lines of one cell are printed as written, so the layout must not have changed them. */
  ghost predicate ProseUnchanged(src: seq<string>, out: seq<string>)
    requires |src| == |out|
  {
    forall i :: 0 <= i < |src| ==> |Split(src[i], '\t')| > 1 || Strip(src[i]) == out[i]
  }

  /** What shows of a flushed table is its layout, exactly when its lines of one cell are laid out as they are. */
  lemma FlushShows(written: string, laid: string)
    requires forall i :: 0 <= i < |Split(written, '\n')| ==> AllClosed(Split(Split(written, '\n')[i], '\t'))
    requires ESC !in laid
    ensures var src, out := Split(written, '\n'), Split(laid, '\n');
            (Strip(Flushed(written, laid)) == laid) <==>
              (Strip(written) == written || |src| != |out| || ProseUnchanged(src, out))
  {
    var src, out := Split(written, '\n'), Split(laid, '\n');
    StripPlain(laid);
    if Strip(written) != written && |src| == |out| {
      var lines := RepaintAll(src, out);
      PiecesOf(written, '\n');
      PiecesOf(laid, '\n');
      forall i | 0 <= i < |src|
        ensures Closed(lines[i]) && '\n' !in Strip(lines[i])
        ensures Strip(lines[i]) == out[i] <==> |Split(src[i], '\t')| > 1 || Strip(src[i]) == out[i]
      {
        RepaintAt(src, out, i);
        RepaintShows(src[i], out[i]);
        StripKeeps(src[i]);
      }
      StripJoin(lines);
      TextsAre(lines);
      SplitJoin(Texts(lines), '\n');
      JoinSplit(laid, '\n');
      assert ProseUnchanged(src, out) <==> Texts(lines) == out;
    }
  }

  lemma TextsAre(cells: seq<string>)
    ensures forall i :: 0 <= i < |cells| ==> Texts(cells)[i] == Strip(cells[i])
  {
    forall i | 0 <= i < |cells| ensures Texts(cells)[i] == Strip(cells[i]) { TextAt(cells, i); }
  }

  lemma {:induction false} WeaveHasNo(c: char, cells: seq<string>, texts: seq<string>, gaps: seq<string>)
    requires |cells| == |texts| == |gaps| != 0 && c !in Weave(texts, gaps) && forall i :: 0 <= i < |cells| ==> c !in cells[i]
    ensures c !in Weave(cells, gaps)
  {
    var later := if |cells| == 1 then "" else Weave(texts[1..], gaps[1..]);
    assert Weave(texts, gaps) == texts[0] + gaps[0] + later;
    NotIn(c, texts[0], gaps[0], later);
    if |cells| > 1 { WeaveHasNo(c, cells[1..], texts[1..], gaps[1..]); }
  }

  lemma RepaintHasNoBreak(written: string, laid: string)
    requires '\n' !in written && '\n' !in laid
    ensures '\n' !in Repaint(written, laid)
  {
    var cells := Split(written, '\t');
    PiecesOf(written, '\t');
    if |cells| > 1 && Gaps(Texts(cells), laid).Some? {
      GapsAreOfTheLayout(Texts(cells), laid);
      WeaveHasNo('\n', cells, Texts(cells), Gaps(Texts(cells), laid).value);
    }
  }

  /** A table without escapes, or with another number of lines once it is laid out, is printed as laid out. Of any other,
  each line is the repainted line. */
  lemma FlushedLines(written: string, laid: string)
    ensures var src, out := Split(written, '\n'), Split(laid, '\n');
            if Strip(written) == written || |src| != |out| then Flushed(written, laid) == laid
            else
              && |Split(Flushed(written, laid), '\n')| == |src|
              && forall i :: 0 <= i < |src| ==> Split(Flushed(written, laid), '\n')[i] == Repaint(src[i], out[i])
  {
    var src, out := Split(written, '\n'), Split(laid, '\n');
    if Strip(written) != written && |src| == |out| {
      PiecesOf(written, '\n');
      PiecesOf(laid, '\n');
      var lines := RepaintAll(src, out);
      forall i | 0 <= i < |src| ensures lines[i] == Repaint(src[i], out[i]) && '\n' !in lines[i] {
        RepaintAt(src, out, i);
        RepaintHasNoBreak(src[i], out[i]);
      }
      SplitJoin(lines, '\n');
    }
  }

  /** Where a painter is on it writes the code before a text and the reset after it; it writes nothing around nothing. */
  lemma PaintIs(code: string, s: string)
    ensures Paint(false, code, s) == s && Paint(true, code, "") == ""
    ensures s != "" ==> Paint(true, code, s) == code + s + "\U{001B}[0m"
  {}

  /** Padding only adds behind the text. */
  lemma PadToKeeps(s: string, width: int)
    ensures s <= PadTo(s, width) && forall i :: |s| <= i < |PadTo(s, width)| ==> PadTo(s, width)[i] == ' '
  {}

  /** The sequences that are taken away: an escape, a bracket, digits and semicolons, and one final character. */
  lemma AfterEscapeIff(s: string, rest: string)
    ensures AfterEscape(s) == Some(rest) <==>
              exists n: nat :: IsSequence(s, n) && rest == s[n..]
  {
    if AfterEscape(s).Some? {
      var n := |s| - |SkipParameters(s[2..])| + 1;
      SkipsParameters(s[2..]);
      assert forall i :: 2 <= i < n - 1 ==> s[i] == s[2..][i - 2];
      assert SkipParameters(s[2..]) == s[2..][n - 3..];
      assert IsSequence(s, n);
      assert AfterEscape(s).value == s[n..];
      forall m: nat | IsSequence(s, m) ensures m == n { SequenceIsOne(s, m, n); }
    } else if n: nat :| IsSequence(s, n) {
      SkipsTo(s[2..], n - 3);
    }
  }

  /** The first `n` characters are a whole sequence. */
  ghost predicate IsSequence(s: string, n: nat) {
    && 3 <= n <= |s| && s[0] == '\U{001B}' && s[1] == '[' && '@' <= s[n - 1] <= '~'
    && forall i :: 2 <= i < n - 1 ==> s[i] == ';' || '0' <= s[i] <= '9'
  }

  lemma SequenceIsOne(s: string, m: nat, n: nat)
    requires IsSequence(s, m) && IsSequence(s, n)
    ensures m == n
  {
    var finals := [s[m - 1], s[n - 1]];
    assert IsFinal(finals[0]) && IsFinal(finals[1]);
  }

  lemma {:induction false} SkipsParameters(s: string)
    ensures var n := |s| - |SkipParameters(s)|;
            && SkipParameters(s) == s[n..] && (forall i :: 0 <= i < n ==> IsParameter(s[i]))
            && (n < |s| ==> !IsParameter(s[n]))
  {
    if s != "" && IsParameter(s[0]) { SkipsParameters(s[1..]); }
  }

  lemma {:induction false} SkipsTo(s: string, n: nat)
    requires n < |s| && !IsParameter(s[n]) && forall i :: 0 <= i < n ==> IsParameter(s[i])
    ensures SkipParameters(s) == s[n..]
  {
    if n > 0 {
      SkipsTo(s[1..], n - 1);
      assert s[1..][n - 1..] == s[n..];
    }
  }
}
