/** The text form of filter rules and of token counts (internal/cli/rules.go; what makes a rule valid is `Valid`,
internal/policy/policy.go).

`ReadsBack` says which lists of rules are read back from what is printed, `ReadRulesPrint` that every list that was read
is one, and `CountReadsBack` and `CountIsAsWrittenIff` the same for token counts.
*/
module Rules {
  import opened Text

  datatype Rule = Rule(pattern: string, replace: string, refuse: bool, reason: string)

  datatype Parsed = Rules(rules: seq<Rule>) | BadLine(line: nat) | NoRules

  const MAX_PATTERN := 512
  const MAX_REASON := 240

  // Reading.

  predicate ArrowAt(s: string, i: int) {
    0 <= i && i + 1 < |s| && s[i] == '=' && s[i + 1] == '>'
  }

  ghost predicate NoArrow(s: string) {
    forall i :: !ArrowAt(s, i)
  }

  /** Where the last arrow of the first `n` characters starts. */
  function LastArrow(s: string, n: nat): (at: Option<nat>)
    requires n <= |s|
    ensures at.Some? ==> at.value + 2 <= n && ArrowAt(s, at.value)
    ensures forall i :: (at.Some? ==> at.value < i) && i + 2 <= n ==> !ArrowAt(s, i)
  {
    if n < 2 then None else if ArrowAt(s, n - 2) then Some(n - 2) else LastArrow(s, n - 1)
  }

  function Upper(c: char): char { if 'a' <= c <= 'z' then 'A' + (c - 'a') else c }

  predicate SaysRefuse(s: string) {
    && |s| >= 6
    && Upper(s[0]) == 'R' && Upper(s[1]) == 'E' && Upper(s[2]) == 'F'
    && Upper(s[3]) == 'U' && Upper(s[4]) == 'S' && Upper(s[5]) == 'E'
  }

  /** The reason of a refusal; nothing for a replacement. */
  function CutRefusal(s: string): Option<string> {
    if !SaysRefuse(s) then None
    else
      var rest := if |s| > 6 && Upper(s[6]) == 'D' then s[7..] else s[6..];
      if rest == "" then Some("")
      else if rest[0] in {':', ' ', '\t'} then Some(Trim(rest[1..]))
      else None
  }

  /** `matches` says of an expression that it compiles and does not match the empty string. */
  predicate Valid(r: Rule, matches: string -> bool) {
    && Trim(r.pattern) != "" && |r.pattern| <= MAX_PATTERN
    && !(r.refuse && r.replace != "")
    && |r.reason| <= MAX_REASON
    && (!r.refuse ==> r.reason == "")
    && matches(r.pattern)
  }

  predicate Skipped(line: string) {
    var t := Trim(line);
    t == "" || t[0] == '#'
  }

  function RuleOf(pattern: string, answer: string): Rule {
    match CutRefusal(answer)
    case Some(reason) => Rule(pattern, "", true, reason)
    case None => Rule(pattern, answer, false, "")
  }

  function ReadTrimmed(t: string): Option<Rule> {
    match LastArrow(t, |t|)
    case None => None
    case Some(at) => Some(RuleOf(Trim(t[..at]), Trim(t[at + 2..])))
  }

  function ReadLine(line: string): Option<Rule> { ReadTrimmed(Trim(line)) }

  datatype Reading = Nothing | Bad | Good(rule: Rule)

  function Read(line: string, matches: string -> bool): Reading {
    if Skipped(line) then Nothing
    else if ReadLine(line).None? || !Valid(ReadLine(line).value, matches) then Bad
    else Good(ReadLine(line).value)
  }

  function ReadEach(lines: seq<string>, matches: string -> bool): (readings: seq<Reading>)
    ensures |readings| == |lines|
  {
    if lines == [] then [] else [Read(lines[0], matches)] + ReadEach(lines[1..], matches)
  }

  lemma {:induction false} ReadAt(lines: seq<string>, matches: string -> bool, i: nat)
    requires i < |lines|
    ensures ReadEach(lines, matches)[i] == Read(lines[i], matches)
  {
    if i > 0 { ReadAt(lines[1..], matches, i - 1); }
  }

  /** The rules of the first `n` lines, or the first of them that is bad. */
  function Collect(readings: seq<Reading>, n: nat): (out: Parsed)
    requires n <= |readings|
    ensures out.BadLine? || out.Rules?
  {
    if n == 0 then Rules([])
    else
      match Collect(readings, n - 1)
      case BadLine(line) => BadLine(line)
      case Rules(rules) =>
        match readings[n - 1]
        case Nothing => Rules(rules)
        case Bad => BadLine(n)
        case Good(rule) => Rules(rules + [rule])
  }

  lemma {:induction false} FirstBadLine(readings: seq<Reading>, n: nat, m: nat)
    requires n <= m <= |readings| && Collect(readings, n).BadLine?
    ensures Collect(readings, m) == Collect(readings, n)
  {
    if m > n { FirstBadLine(readings, n, m - 1); }
  }

  function Parse(text: string, matches: string -> bool): Parsed {
    var readings := ReadEach(Split(text, '\n'), matches);
    var out := Collect(readings, |readings|);
    if out == Rules([]) then NoRules else out
  }

  method ParseRules(text: string, matches: string -> bool) returns (out: Parsed)
    ensures out == Parse(text, matches)
  {
    var rules := [];
    var lines := Split(text, '\n');
    ghost var readings := ReadEach(lines, matches);
    var i := 0;
    while i < |lines|
      invariant 0 <= i <= |lines|
      invariant Collect(readings, i) == Rules(rules)
    {
      var line := lines[i];
      ReadAt(lines, matches, i);
      i := i + 1;
      if Skipped(line) {
        continue;
      }
      var rule := ReadLine(line);
      if rule.None? || !Valid(rule.value, matches) {
        FirstBadLine(readings, i, |lines|);
        return BadLine(i);
      }
      rules := rules + [rule.value];
    }
    out := if rules == [] then NoRules else Rules(rules);
  }

  // Printing.

  function Answer(r: Rule): string {
    if !r.refuse then r.replace else if r.reason == "" then "REFUSE" else "REFUSE: " + r.reason
  }

  /** What stands before the arrow. */
  function Head(r: Rule, width: nat): string {
    r.pattern + Repeat(' ', if width > |r.pattern| then width - |r.pattern| else 0) + " "
  }

  function Line(r: Rule, width: nat): string {
    Head(r, width) + "=>" + (" " + Answer(r))
  }

  function Width(rules: seq<Rule>, n: nat): nat
    requires n <= |rules|
  {
    if n == 0 then 0
    else if |rules[n - 1].pattern| > Width(rules, n - 1) then |rules[n - 1].pattern|
    else Width(rules, n - 1)
  }

  method FormatRules(rules: seq<Rule>) returns (out: seq<string>)
    ensures |out| == |rules| && forall i :: 0 <= i < |rules| ==> out[i] == Line(rules[i], Width(rules, |rules|))
  {
    var width := 0;
    for i := 0 to |rules|
      invariant width == Width(rules, i)
    {
      width := if |rules[i].pattern| > width then |rules[i].pattern| else width;
    }
    out := [];
    for i := 0 to |rules|
      invariant |out| == i && forall k :: 0 <= k < i ==> out[k] == Line(rules[k], width)
    {
      out := out + [Line(rules[i], width)];
    }
  }

  // What is read back.

  ghost predicate OneLine(s: string) { '\n' !in s }

  /** Text that stands on its line by itself and holds no arrow. */
  ghost predicate Plain(s: string) { IsTrimmed(s) && OneLine(s) && NoArrow(s) }

  ghost predicate Printable(r: Rule) {
    && IsTrimmed(r.pattern) && OneLine(r.pattern) && r.pattern != "" && r.pattern[0] != '#'
    && if r.refuse then r.replace == "" && Plain(r.reason)
       else r.reason == "" && Plain(r.replace) && CutRefusal(r.replace) == None
  }

  lemma ArrowsOf(a: string, b: string, i: int)
    requires ArrowAt(a + b, i)
    ensures ArrowAt(a, i) || ArrowAt(b, i - |a|) || (i == |a| - 1 && b != "" && b[0] == '>')
  {}

  lemma ReasonIsCut(reason: string)
    requires IsTrimmed(reason)
    ensures CutRefusal("REFUSE: " + reason) == Some(reason)
  {
    var a := "REFUSE: " + reason;
    assert a[6..] == ": " + reason && a[6..][1..] == " " + reason + "";
    TrimFinds(" ", reason, "");
  }

  lemma AnswerIsPlain(r: Rule)
    requires Printable(r)
    ensures Plain(Answer(r)) && RuleOf(r.pattern, Answer(r)) == r
  {
    if r.refuse {
      var a := Answer(r);
      if r.reason == "" {
        assert a == "REFUSE";
      } else {
        ReasonIsCut(r.reason);
        forall i ensures !ArrowAt(a, i) {
          if ArrowAt(a, i) { ArrowsOf("REFUSE: ", r.reason, i); }
        }
      }
    }
  }

  /** What stands after the arrow of a trimmed line. */
  function Tail(r: Rule): string {
    if Answer(r) == "" then "" else " " + Answer(r)
  }

  lemma HeadFirst(r: Rule, width: nat)
    requires r.pattern != ""
    ensures Head(r, width)[0] == r.pattern[0]
  {}

  lemma Regroup(a: string, b: string, c: string, d: string)
    requires b == c + d
    ensures a + b == a + c + d
  {}

  /** Text between the two ends of a trimmed line is trimmed with it. */
  lemma EndsAreTrimmed(head: string, tail: string)
    requires head != "" && !IsSpace(head[0]) && (tail != "" ==> !IsSpace(tail[|tail| - 1]))
    ensures IsTrimmed(head + "=>" + tail)
  {
    var t := head + "=>" + tail;
    assert t[0] == head[0];
    assert t[|t| - 1] == if tail == "" then '>' else tail[|tail| - 1];
  }

  lemma TailEnds(r: Rule)
    requires Plain(Answer(r))
    ensures Tail(r) != "" ==> !IsSpace(Tail(r)[|Tail(r)| - 1])
    ensures " " + Answer(r) == Tail(r) + if Answer(r) == "" then " " else ""
  {
    assert Tail(r) != "" ==> Tail(r)[|Tail(r)| - 1] == Answer(r)[|Answer(r)| - 1];
  }

  lemma TrimmedLine(r: Rule, width: nat)
    requires Printable(r)
    ensures Trim(Line(r, width)) == Head(r, width) + "=>" + Tail(r)
  {
    AnswerIsPlain(r);
    TailEnds(r);
    HeadFirst(r, width);
    EndsAreTrimmed(Head(r, width), Tail(r));
    var end := if Answer(r) == "" then " " else "";
    Regroup(Head(r, width) + "=>", " " + Answer(r), Tail(r), end);
    TrimsEnd(Head(r, width) + "=>" + Tail(r), end);
  }

  lemma TrimsEnd(s: string, end: string)
    requires IsTrimmed(s) && AllSpace(end)
    ensures Trim(s + end) == s
  {
    assert "" + s == s;
    TrimFinds("", s, end);
  }

  lemma TrimEnds(r: Rule, width: nat)
    requires Printable(r)
    ensures Trim(Head(r, width)) == r.pattern && Trim(Tail(r)) == Answer(r)
  {
    TrimsHead(r, width);
    AnswerIsPlain(r);
    if Answer(r) == "" {
      TrimsEnd("", "");
    } else {
      assert " " + Answer(r) + "" == " " + Answer(r);
      TrimFinds(" ", Answer(r), "");
    }
  }

  lemma TrimsHead(r: Rule, width: nat)
    requires IsTrimmed(r.pattern)
    ensures Trim(Head(r, width)) == r.pattern
  {
    var pad := Repeat(' ', if width > |r.pattern| then width - |r.pattern| else 0);
    Regroup(r.pattern, pad + " ", pad, " ");
    TrimsEnd(r.pattern, pad + " ");
  }

  lemma ArrowIsLast(head: string, tail: string, a: string)
    requires NoArrow(a) && tail == (if a == "" then "" else " " + a)
    ensures var t := head + "=>" + tail;
            LastArrow(t, |t|) == Some(|head|) && t[..|head|] == head && t[|head| + 2..] == tail
  {
    var t := head + "=>" + tail;
    assert ArrowAt(t, |head|);
    forall i | i > |head| ensures !ArrowAt(t, i) {
      assert !ArrowAt(a, i - |head| - 3);
    }
  }

  lemma OneLineAppend(a: string, b: string)
    ensures OneLine(a + b) <==> OneLine(a) && OneLine(b)
  {}

  /** A line that is printed is read as the rule it was printed from. */
  lemma LineReadsBack(r: Rule, width: nat)
    requires Printable(r)
    ensures OneLine(Line(r, width)) && !Skipped(Line(r, width)) && ReadLine(Line(r, width)) == Some(r)
  {
    TrimmedLine(r, width);
    TrimmedReadsBack(r, width);
    AnswerIsPlain(r);
    var pad := Repeat(' ', if width > |r.pattern| then width - |r.pattern| else 0);
    OneLineAppend(r.pattern, pad);
    OneLineAppend(r.pattern + pad, " ");
    OneLineAppend(Head(r, width), "=>");
    OneLineAppend(Head(r, width) + "=>", " " + Answer(r));
  }

  lemma TrimmedReadsBack(r: Rule, width: nat)
    requires Printable(r)
    ensures var t := Head(r, width) + "=>" + Tail(r);
            t != "" && t[0] != '#' && ReadTrimmed(t) == Some(r)
  {
    TrimEnds(r, width);
    AnswerIsPlain(r);
    ArrowIsLast(Head(r, width), Tail(r), Answer(r));
  }

  lemma LineIsGood(r: Rule, width: nat, matches: string -> bool)
    requires Fine(r, matches)
    ensures OneLine(Line(r, width)) && Read(Line(r, width), matches) == Good(r)
  {
    LineReadsBack(r, width);
  }

  ghost predicate Fine(r: Rule, matches: string -> bool) { Printable(r) && Valid(r, matches) }

  /** A rule that was read is printable. */
  lemma ReadLinePrints(line: string, matches: string -> bool)
    requires OneLine(line) && Read(line, matches).Good?
    ensures Fine(Read(line, matches).rule, matches)
  {
    var t := Trim(line);
    var a, b := TrimParts(line);
    OneLineAppend(a + t, b);
    OneLineAppend(a, t);
    ReadTrimmedPrints(t, matches);
  }

  lemma ReadTrimmedPrints(t: string, matches: string -> bool)
    requires OneLine(t) && IsTrimmed(t) && t != "" && t[0] != '#'
    requires ReadTrimmed(t).Some? && Valid(ReadTrimmed(t).value, matches)
    ensures Printable(ReadTrimmed(t).value)
  {
    var at := LastArrow(t, |t|).value;
    PatternStays(t[..at], t[at + 2..]);
    PatternIsPrintable(t, t[..at]);
    AnswerOfLine(t, at);
    RuleIsPrintable(Trim(t[..at]), Trim(t[at + 2..]));
  }

  lemma PatternStays(p: string, q: string)
    requires Trim(RuleOf(Trim(p), Trim(q)).pattern) != ""
    ensures Trim(p) != ""
  {}

  lemma PatternIsPrintable(t: string, p: string)
    requires t != "" && IsTrimmed(t) && p <= t && Trim(p) != "" && OneLine(t)
    ensures IsTrimmed(Trim(p)) && OneLine(Trim(p)) && Trim(p)[0] == t[0]
  {
    var a, b := TrimParts(p);
    FrontIsEmpty(a, Trim(p) + b);
    assert a + (Trim(p) + b) == p;
    OneLineAppend(p, t[|p|..]);
    assert p + t[|p|..] == t;
    OneLineAppend(a + Trim(p), b);
    OneLineAppend(a, Trim(p));
  }

  lemma FrontIsEmpty(a: string, rest: string)
    requires AllSpace(a) && a + rest != "" && !IsSpace((a + rest)[0])
    ensures a == ""
  {}

  lemma AnswerOfLine(t: string, at: nat)
    requires OneLine(t) && LastArrow(t, |t|) == Some(at)
    ensures Plain(Trim(t[at + 2..]))
  {
    var q := t[at + 2..];
    forall i ensures !ArrowAt(q, i) {
      assert i >= 0 ==> !ArrowAt(t, at + 2 + i);
    }
    OneLineAppend(t[..at + 2], q);
    assert t[..at + 2] + q == t && q[0..] == q;
    EndIsPlain(q, 0);
  }

  lemma PartsHaveNoArrow(a: string, s: string, b: string)
    requires NoArrow(a + s + b)
    ensures NoArrow(s) && NoArrow(b)
  {
    forall i ensures !ArrowAt(s, i) { assert !ArrowAt(a + s + b, |a| + i); }
    forall i ensures !ArrowAt(b, i) { assert !ArrowAt(a + s + b, |a + s| + i); }
  }

  lemma RuleIsPrintable(pattern: string, answer: string)
    requires IsTrimmed(pattern) && OneLine(pattern) && pattern != "" && pattern[0] != '#' && Plain(answer)
    ensures Printable(RuleOf(pattern, answer))
  {
    if CutRefusal(answer).Some? {
      var n := if |answer| > 6 && Upper(answer[6]) == 'D' then 7 else 6;
      if n < |answer| {
        assert answer[n..][1..] == answer[n + 1..];
        EndIsPlain(answer, n + 1);
      }
    }
  }

  lemma EndIsPlain(s: string, n: nat)
    requires n <= |s| && OneLine(s) && NoArrow(s)
    ensures Plain(Trim(s[n..]))
  {
    var rest := s[n..];
    assert s == s[..n] + rest;
    forall i ensures !ArrowAt(rest, i) { assert !ArrowAt(s, n + i); }
    var a, b := TrimParts(rest);
    PartsHaveNoArrow(a, Trim(rest), b);
    OneLineAppend(s[..n], rest);
    OneLineAppend(a + Trim(rest), b);
    OneLineAppend(a, Trim(rest));
  }

  lemma {:induction false} CollectedFrom(readings: seq<Reading>, n: nat, i: nat) returns (k: nat)
    requires n <= |readings| && Collect(readings, n).Rules? && i < |Collect(readings, n).rules|
    ensures k < n && readings[k] == Good(Collect(readings, n).rules[i])
  {
    k := n - 1;
    if i < |Collect(readings, n - 1).rules| {
      k := CollectedFrom(readings, n - 1, i);
    }
  }

  lemma {:induction false} CollectGood(readings: seq<Reading>, rules: seq<Rule>, n: nat)
    requires n <= |readings| == |rules| && forall i :: 0 <= i < |rules| ==> readings[i] == Good(rules[i])
    ensures Collect(readings, n) == Rules(rules[..n])
  {
    if n > 0 {
      CollectGood(readings, rules, n - 1);
      assert rules[..n] == rules[..n - 1] + [rules[n - 1]];
    }
  }

  ghost predicate AllFine(rules: seq<Rule>, matches: string -> bool) {
    forall i :: 0 <= i < |rules| ==> Fine(rules[i], matches)
  }

  /** Every list that was read is valid and printable. */
  lemma ReadRulesPrint(text: string, matches: string -> bool)
    requires Parse(text, matches).Rules?
    ensures AllFine(Parse(text, matches).rules, matches)
  {
    var lines := Split(text, '\n');
    var readings := ReadEach(lines, matches);
    PiecesOf(text, '\n');
    var rules := Parse(text, matches).rules;
    forall i | 0 <= i < |rules| ensures Fine(rules[i], matches) {
      var k := CollectedFrom(readings, |readings|, i);
      ReadAt(lines, matches, k);
      ReadLinePrints(lines[k], matches);
    }
  }

  /** Printed rules are read back as the same list exactly when each is valid and printable. */
  lemma ReadsBack(rules: seq<Rule>, lines: seq<string>, matches: string -> bool)
    requires rules != [] && |lines| == |rules|
    requires forall i :: 0 <= i < |rules| ==> lines[i] == Line(rules[i], Width(rules, |rules|))
    ensures Parse(Join(lines, '\n'), matches) == Rules(rules) <==> AllFine(rules, matches)
  {
    var text := Join(lines, '\n');
    if AllFine(rules, matches) {
      forall i | 0 <= i < |lines|
        ensures OneLine(lines[i]) && ReadEach(lines, matches)[i] == Good(rules[i])
      {
        assert Fine(rules[i], matches);
        LineIsGood(rules[i], Width(rules, |rules|), matches);
        ReadAt(lines, matches, i);
      }
      SplitJoin(lines, '\n');
      CollectGood(ReadEach(lines, matches), rules, |rules|);
      assert rules[..|rules|] == rules;
    }
    if Parse(text, matches) == Rules(rules) {
      ReadRulesPrint(text, matches);
    }
  }

  /** So what was read once is read again from its own print. */
  lemma PrintOfReadReadsBack(text: string, lines: seq<string>, matches: string -> bool)
    requires Parse(text, matches).Rules?
    requires var rules := Parse(text, matches).rules;
             |lines| == |rules| && forall i :: 0 <= i < |rules| ==> lines[i] == Line(rules[i], Width(rules, |rules|))
    ensures Parse(text, matches).rules != []
    ensures Parse(Join(lines, '\n'), matches) == Parse(text, matches)
  {
    ReadRulesPrint(text, matches);
    ReadsBack(Parse(text, matches).rules, lines, matches);
  }

  // How it looks.

  lemma {:induction false} WidthIs(rules: seq<Rule>, n: nat)
    requires n <= |rules|
    ensures forall i :: 0 <= i < n ==> |rules[i].pattern| <= Width(rules, n)
    ensures n > 0 ==> exists i :: 0 <= i < n && |rules[i].pattern| == Width(rules, n)
  {
    if n > 0 {
      WidthIs(rules, n - 1);
      if |rules[n - 1].pattern| > Width(rules, n - 1) {
        assert |rules[n - 1].pattern| == Width(rules, n);
      } else if n > 1 {
        var i :| 0 <= i < n - 1 && |rules[i].pattern| == Width(rules, n - 1);
      } else {
        assert |rules[0].pattern| == Width(rules, n);
      }
    }
  }

  /** The pattern, spaces up to the longest pattern, and an arrow in the same column of every line, before what a match
  becomes, or before the refusal and its reason. */
  lemma LinesAreAligned(rules: seq<Rule>, i: nat)
    requires i < |rules|
    ensures var r, width := rules[i], Width(rules, |rules|);
            var line := Line(r, width);
            && |r.pattern| <= width && |line| >= width + 4
            && line[..|r.pattern|] == r.pattern && (forall k :: |r.pattern| <= k < width ==> line[k] == ' ')
            && line[width..width + 4] == " => "
            && line[width + 4..] == if !r.refuse then r.replace else if r.reason == "" then "REFUSE" else "REFUSE: " + r.reason
  {
    WidthIs(rules, |rules|);
    var r, width := rules[i], Width(rules, |rules|);
    var pad := Repeat(' ', if width > |r.pattern| then width - |r.pattern| else 0);
    var line := Line(r, width);
    assert |Head(r, width)| == width + 1;
    assert line[..|r.pattern|] == r.pattern;
    assert forall k :: |r.pattern| <= k < width ==> line[k] == pad[k - |r.pattern|];
    assert line[width + 4..] == Answer(r);
  }

  /** A rule is accepted exactly when its pattern is one and it either replaces, without a reason, or refuses, without a
  replacement. */
  lemma ValidIff(r: Rule, matches: string -> bool)
    ensures Valid(r, matches) <==>
              if Trim(r.pattern) == "" || |r.pattern| > 512 || !matches(r.pattern) then false
              else if r.refuse then r.replace == "" && |r.reason| <= 240
              else r.reason == ""
  {}

  /** The word of a refusal, in any case. */
  lemma SaysRefuseIff(s: string)
    ensures SaysRefuse(s) <==>
              && |s| >= 6 && (s[0] == 'R' || s[0] == 'r') && (s[1] == 'E' || s[1] == 'e') && (s[2] == 'F' || s[2] == 'f')
              && (s[3] == 'U' || s[3] == 'u') && (s[4] == 'S' || s[4] == 's') && (s[5] == 'E' || s[5] == 'e')
  {}

  /** A refusal is that word, with a d or not, and then nothing, or a colon, a space or a tab and the reason. Anything else
  is a replacement. */
  lemma RefusalsAreRead(w: string, d: string, sep: char, t: string)
    requires |w| == 6 && SaysRefuse(w) && d in {"", "D", "d"}
    ensures CutRefusal(w + d) == Some("")
    ensures sep in {':', ' ', '\t'} ==> CutRefusal(w + d + ([sep] + t)) == Some(Trim(t))
    ensures sep !in {':', ' ', '\t'} && (d == "" ==> sep != 'D' && sep != 'd') ==> CutRefusal(w + d + ([sep] + t)) == None
  {
    assert (w + d)[6..] == d && (d != "" ==> (w + d)[7..] == "");
    var s := w + d + ([sep] + t);
    assert d == "" ==> s[6] == sep && s[6..] == [sep] + t;
    assert d != "" ==> s[6] == d[0] && s[7..] == [sep] + t;
    assert ([sep] + t)[1..] == t;
  }

  // Token counts.

  function Wrap64(n: int): int { (n + 0x8000_0000_0000_0000) % 0x1_0000_0000_0000_0000 - 0x8000_0000_0000_0000 }

  predicate Digits(s: string) { s != "" && forall i :: 0 <= i < |s| ==> IsDigit(s[i]) }

  function Atoi(s: string): Option<int> {
    var signed := s != "" && s[0] in {'+', '-'};
    var digits := if signed then s[1..] else s;
    if !Digits(digits) then None
    else
      var n := if signed && s[0] == '-' then -Value(digits) else Value(digits);
      if -MAX64 - 1 <= n <= MAX64 then Some(n) else None
  }

  datatype Count = NotANumber | NotPositive | Tokens(n: int)

  /** The last character stands for a thousand. Lower-casing makes a k of the sign for kelvin too. */
  predicate EndsInK(s: string) { s != "" && s[|s| - 1] in {'k', 'K', '\U{212A}'} }

  function Number(s: string): Option<int> { if EndsInK(s) then Atoi(s[..|s| - 1]) else Atoi(s) }

  function ParseTokenCount(s: string): Count {
    match Number(s)
    case None => NotANumber
    case Some(n) => if n <= 0 then NotPositive else Tokens(Wrap64(n * if EndsInK(s) then 1000 else 1))
  }

  function FormatTokenCount(n: nat): string {
    if n >= 1000 && n % 1000 == 0 then Itoa(n / 1000) + "k" else Itoa(n)
  }

  lemma AtoiOfItoa(n: nat)
    requires n <= MAX64
    ensures Atoi(Itoa(n)) == Some(n) && !EndsInK(Itoa(n))
  {
    ValueOfItoa(n);
    var s := Itoa(n);
    assert IsDigit(s[|s| - 1]);
  }

  lemma WithK(s: string)
    ensures EndsInK(s + "k") && Number(s + "k") == Atoi(s)
  {
    assert (s + "k")[..|s + "k"| - 1] == s;
  }

  lemma CountInThousands(n: nat)
    requires 1 <= n <= MAX64
    ensures ParseTokenCount(Itoa(n) + "k") == Tokens(Wrap64(1000 * n))
  {
    AtoiOfItoa(n);
    WithK(Itoa(n));
  }

  /** Every positive count is read back from what is printed. */
  lemma CountReadsBack(n: nat)
    requires 1 <= n <= MAX64
    ensures ParseTokenCount(FormatTokenCount(n)) == Tokens(n)
  {
    if n >= 1000 && n % 1000 == 0 {
      CountInThousands(n / 1000);
      WrapFits(n);
    } else {
      AtoiOfItoa(n);
    }
  }

  lemma WrapFits(n: int)
    ensures -MAX64 - 1 <= Wrap64(n) <= MAX64
    ensures -MAX64 - 1 <= n <= MAX64 ==> Wrap64(n) == n
  {}

  /** The count that is read is the one that was written exactly when that fits 64 bits: nothing checks the product. */
  lemma CountIsAsWrittenIff(s: string)
    requires ParseTokenCount(s).Tokens?
    ensures var written := Number(s).value * if EndsInK(s) then 1000 else 1;
            ParseTokenCount(s).n == written <==> written <= MAX64
  {
    WrapFits(Number(s).value * if EndsInK(s) then 1000 else 1);
  }

  /** So more thousands than fit are read as another count, and the most that can be written as less than nothing. */
  lemma LargeCountsWrap(n: nat)
    requires MAX64 / 1000 < n <= MAX64
    ensures ParseTokenCount(Itoa(n) + "k") == Tokens(Wrap64(1000 * n)) != Tokens(1000 * n)
    ensures Wrap64(1000 * MAX64) == -1000
  {
    CountInThousands(n);
    WrapFits(1000 * n);
  }

  /** Nothing is no count, and less than nothing is none. */
  lemma OnlyPositiveCounts(n: int)
    requires 0 <= n <= MAX64
    ensures ParseTokenCount(Itoa(0)) == NotPositive
    ensures ParseTokenCount("-" + Itoa(n)) == NotPositive && ParseTokenCount("-" + Itoa(n) + "k") == NotPositive
  {
    AtoiOfItoa(0);
    AtoiOfItoa(n);
    SignsAreRead(n, "");
    WithK("-" + Itoa(n));
    assert ("-" + Itoa(n))[|Itoa(n)|] == Itoa(n)[|Itoa(n)| - 1];
  }

  /** A sign may stand before a number, and nothing else may. */
  lemma SignsAreRead(n: int, s: string)
    requires 0 <= n <= MAX64
    ensures Atoi("+" + Itoa(n)) == Some(n) && Atoi("-" + Itoa(n)) == Some(-n)
    ensures s == "" || (!IsDigit(s[0]) && s[0] != '+' && s[0] != '-') ==> Atoi(s) == None
  {
    ValueOfItoa(n);
    assert ("+" + Itoa(n))[1..] == Itoa(n) && ("-" + Itoa(n))[1..] == Itoa(n);
  }
}
