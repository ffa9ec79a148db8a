/** Spelling suggestions (`distance`, `suggest`, `suggestSub`, internal/cli/help.go).

`Distance` fills the two-row table. `Cell` is what the table holds; `LevIsLeast` says that its last cell is the least
cost of any edit script, and the lemmas after it that this is a metric.
*/
module EditDistance {

  function Least(a: nat, b: nat, c: nat): nat {
    if a <= b && a <= c then a else if b <= c then b else c
  }

  /** The distance of the first `i` characters of `a` and the first `j` of `b`. */
  function Cell(a: string, b: string, i: nat, j: nat): nat
    requires i <= |a| && j <= |b|
    decreases i + j
  {
    if i == 0 then j
    else if j == 0 then i
    else
      Least(Cell(a, b, i - 1, j) + 1, Cell(a, b, i, j - 1) + 1,
            Cell(a, b, i - 1, j - 1) + if a[i - 1] == b[j - 1] then 0 else 1)
  }

  function Lev(a: string, b: string): nat {
    Cell(a, b, |a|, |b|)
  }

  /** Row `i` of the table. */
  ghost function Row(a: string, b: string, i: nat): seq<nat>
    requires i <= |a|
  {
    seq(|b| + 1, j requires 0 <= j <= |b| => Cell(a, b, i, j))
  }

  predicate FollowsAt(row: seq<nat>, above: seq<nat>, c: char, b: string, j: nat)
    requires |row| == |above| == |b| + 1 && 1 <= j <= |b|
  {
    row[j] == Least(above[j] + 1, row[j - 1] + 1, above[j - 1] + if c == b[j - 1] then 0 else 1)
  }

  /** `row` follows `above` in the table, for the character `c` of the first string. */
  ghost predicate Follows(row: seq<nat>, above: seq<nat>, c: char, b: string) {
    && |row| == |above| == |b| + 1
    && row[0] == above[0] + 1
    && forall j :: 1 <= j <= |b| ==> FollowsAt(row, above, c, b, j)
  }

  lemma RowFollows(a: string, b: string, i: nat)
    requires 0 < i <= |a|
    ensures Follows(Row(a, b, i), Row(a, b, i - 1), a[i - 1], b)
  {
    var row, above, c := Row(a, b, i), Row(a, b, i - 1), a[i - 1];
    forall j | 1 <= j <= |b| ensures FollowsAt(row, above, c, b, j) {
      RowFollowsAt(a, b, i, j);
    }
    assert Cell(a, b, i, 0) == i && Cell(a, b, i - 1, 0) == i - 1;
  }

  lemma RowFollowsAt(a: string, b: string, i: nat, j: nat)
    requires 0 < i <= |a| && 1 <= j <= |b|
    ensures FollowsAt(Row(a, b, i), Row(a, b, i - 1), a[i - 1], b, j)
  {
    CellIs(a, b, i, j);
  }

  lemma CellIs(a: string, b: string, i: nat, j: nat)
    requires 0 < i <= |a| && 0 < j <= |b|
    ensures Cell(a, b, i, j) == Least(Cell(a, b, i - 1, j) + 1, Cell(a, b, i, j - 1) + 1,
                                      Cell(a, b, i - 1, j - 1) + if a[i - 1] == b[j - 1] then 0 else 1)
  {}

  /** The inner loop of `Distance`: the row that follows `prev`. */
  method FillRow(c: char, b: string, i: nat, prev: array<nat>, cur: array<nat>, ghost row: seq<nat>)
    requires prev != cur && cur.Length == |b| + 1 && Follows(row, prev[..], c, b) && i == prev[..][0] + 1
    modifies cur
    ensures cur[..] == row
  {
    cur[0] := i;
    for j := 1 to |b| + 1
      invariant prev[..] == old(prev[..])
      invariant cur[..j] == row[..j]
    {
      var cost := if c == b[j - 1] then 0 else 1;
      assert FollowsAt(row, prev[..], c, b, j);
      assert cur[j - 1] == cur[..j][j - 1] && prev[..][j] == prev[j] && prev[..][j - 1] == prev[j - 1];
      cur[j] := Least(prev[j] + 1, cur[j - 1] + 1, prev[j - 1] + cost);
      assert cur[..j + 1] == cur[..j] + [cur[j]] == row[..j + 1];
    }
    assert cur[..] == cur[..|b| + 1];
  }

  method Distance(a: string, b: string) returns (d: nat)
    ensures d == Lev(a, b)
  {
    if a == b {
      SameIsZero(a, |a|);
      return 0;
    }
    var prev, cur := new nat[|b| + 1], new nat[|b| + 1];
    for j := 0 to |b| + 1
      invariant forall k :: 0 <= k < j ==> prev[k] == k
    {
      prev[j] := j;
    }
    assert prev[..] == Row(a, b, 0);
    for i := 1 to |a| + 1
      invariant prev[..] == Row(a, b, i - 1)
    {
      RowFollows(a, b, i);
      FillRow(a[i - 1], b, i, prev, cur, Row(a, b, i));
      forall k | 0 <= k <= |b| {
        prev[k] := cur[k];
      }
      assert prev[..] == cur[..];
    }
    assert prev[..][|b|] == prev[|b|];
    d := prev[|b|];
  }

  // Edit scripts, which work from the start of both strings to their end.

  datatype Edit = Keep | Substitute(c: char) | Insert(c: char) | Delete

  datatype Script = Nothing | Then(before: Script, last: Edit)

  /** The script turns the first `i` characters of `a` into the first `j` of `b`. */
  ghost predicate Turns(s: Script, a: string, b: string, i: nat, j: nat)
    requires i <= |a| && j <= |b|
  {
    match s
    case Nothing => i == 0 && j == 0
    case Then(before, Keep) => i > 0 && j > 0 && a[i - 1] == b[j - 1] && Turns(before, a, b, i - 1, j - 1)
    case Then(before, Substitute(c)) => i > 0 && j > 0 && b[j - 1] == c && Turns(before, a, b, i - 1, j - 1)
    case Then(before, Insert(c)) => j > 0 && b[j - 1] == c && Turns(before, a, b, i, j - 1)
    case Then(before, Delete) => i > 0 && Turns(before, a, b, i - 1, j)
  }

  ghost function Cost(s: Script): nat {
    match s
    case Nothing => 0
    case Then(before, last) => Cost(before) + if last == Keep then 0 else 1
  }

  /** Some script costs what the table says. */
  lemma {:induction false} CellIsReached(a: string, b: string, i: nat, j: nat) returns (s: Script)
    requires i <= |a| && j <= |b|
    ensures Turns(s, a, b, i, j) && Cost(s) == Cell(a, b, i, j)
    decreases i + j
  {
    if i == 0 && j == 0 {
      s := Nothing;
    } else if j == 0 || (i > 0 && Cell(a, b, i, j) == Cell(a, b, i - 1, j) + 1) {
      s := CellIsReached(a, b, i - 1, j);
      s := Then(s, Delete);
    } else if i == 0 || Cell(a, b, i, j) == Cell(a, b, i, j - 1) + 1 {
      s := CellIsReached(a, b, i, j - 1);
      s := Then(s, Insert(b[j - 1]));
    } else {
      s := CellIsReached(a, b, i - 1, j - 1);
      s := Then(s, if a[i - 1] == b[j - 1] then Keep else Substitute(b[j - 1]));
    }
  }

  /** No script costs less. */
  lemma {:induction false} CellIsALowerBound(s: Script, a: string, b: string, i: nat, j: nat)
    requires i <= |a| && j <= |b| && Turns(s, a, b, i, j)
    ensures Cell(a, b, i, j) <= Cost(s)
    decreases s
  {
    match s
    case Nothing =>
    case Then(before, Keep) => CellIsALowerBound(before, a, b, i - 1, j - 1);
    case Then(before, Substitute(c)) => CellIsALowerBound(before, a, b, i - 1, j - 1);
    case Then(before, Insert(c)) => CellIsALowerBound(before, a, b, i, j - 1);
    case Then(before, Delete) => CellIsALowerBound(before, a, b, i - 1, j);
  }

  /** The distance is the least number of inserts, deletes and substitutions that turn one string into the other. */
  lemma LevIsLeast(a: string, b: string, n: nat)
    ensures n == Lev(a, b) <==>
            && (exists s :: Turns(s, a, b, |a|, |b|) && Cost(s) == n)
            && (forall s :: Turns(s, a, b, |a|, |b|) ==> n <= Cost(s))
  {
    var best := CellIsReached(a, b, |a|, |b|);
    forall s | Turns(s, a, b, |a|, |b|) ensures Lev(a, b) <= Cost(s) {
      CellIsALowerBound(s, a, b, |a|, |b|);
    }
  }

  lemma {:induction false} SameIsZero(a: string, i: nat)
    requires i <= |a|
    ensures Cell(a, a, i, i) == 0
  {
    if i > 0 {
      SameIsZero(a, i - 1);
    }
  }

  lemma {:induction false} ZeroIsSame(a: string, b: string, i: nat, j: nat)
    requires i <= |a| && j <= |b| && Cell(a, b, i, j) == 0
    ensures i == j && forall k :: 0 <= k < i ==> a[k] == b[k]
  {
    if i > 0 && j > 0 {
      ZeroIsSame(a, b, i - 1, j - 1);
    }
  }

  lemma LevZeroIff(a: string, b: string)
    ensures Lev(a, b) == 0 <==> a == b
  {
    SameIsZero(a, |a|);
    if Lev(a, b) == 0 {
      ZeroIsSame(a, b, |a|, |b|);
    }
  }

  /** A script can be undone for the same cost. */
  lemma {:induction false} Undo(f: Script, a: string, b: string, i: nat, j: nat) returns (g: Script)
    requires i <= |a| && j <= |b| && Turns(f, a, b, i, j)
    ensures Turns(g, b, a, j, i) && Cost(g) == Cost(f)
    decreases f
  {
    match f
    case Nothing => g := Nothing;
    case Then(before, Keep) => g := Undo(before, a, b, i - 1, j - 1); g := Then(g, Keep);
    case Then(before, Substitute(c)) => g := Undo(before, a, b, i - 1, j - 1); g := Then(g, Substitute(a[i - 1]));
    case Then(before, Insert(c)) => g := Undo(before, a, b, i, j - 1); g := Then(g, Delete);
    case Then(before, Delete) => g := Undo(before, a, b, i - 1, j); g := Then(g, Insert(a[i - 1]));
  }

  lemma LevIsSymmetric(a: string, b: string)
    ensures Lev(a, b) == Lev(b, a)
  {
    var f := CellIsReached(a, b, |a|, |b|);
    var g := CellIsReached(b, a, |b|, |a|);
    var f' := Undo(f, a, b, |a|, |b|);
    var g' := Undo(g, b, a, |b|, |a|);
    CellIsALowerBound(f', b, a, |b|, |a|);
    CellIsALowerBound(g', a, b, |a|, |b|);
  }

  /** Two scripts in a row can be done as one, for no more. */
  lemma {:induction false} Compose(f: Script, g: Script, a: string, b: string, c: string, i: nat, j: nat, k: nat)
    returns (h: Script)
    requires i <= |a| && j <= |b| && k <= |c|
    requires Turns(f, a, b, i, j) && Turns(g, b, c, j, k)
    ensures Turns(h, a, c, i, k) && Cost(h) <= Cost(f) + Cost(g)
    decreases f, g
  {
    if f.Then? && f.last == Delete {
      h := Compose(f.before, g, a, b, c, i - 1, j, k);
      h := Then(h, Delete);
    } else if g.Then? && g.last.Insert? {
      h := Compose(f, g.before, a, b, c, i, j, k - 1);
      h := Then(h, g.last);
    } else if f.Nothing? {
      h := Nothing;
    } else if f.last.Insert? {
      h := Compose(f.before, g.before, a, b, c, i, j - 1, if g.last == Delete then k else k - 1);
      h := if g.last == Delete then h else Then(h, Insert(c[k - 1]));
    } else if g.last == Delete {
      h := Compose(f.before, g.before, a, b, c, i - 1, j - 1, k);
      h := Then(h, Delete);
    } else {
      h := Compose(f.before, g.before, a, b, c, i - 1, j - 1, k - 1);
      h := Then(h, if f.last == Keep && g.last == Keep then Keep else Substitute(c[k - 1]));
    }
  }

  lemma LevTriangle(a: string, b: string, c: string)
    ensures Lev(a, c) <= Lev(a, b) + Lev(b, c)
  {
    var f := CellIsReached(a, b, |a|, |b|);
    var g := CellIsReached(b, c, |b|, |c|);
    var h := Compose(f, g, a, b, c, |a|, |b|, |c|);
    CellIsALowerBound(h, a, c, |a|, |c|);
  }

  // Suggestions.

  /** A command or a verb, with the spellings that name it. */
  datatype Command = Command(name: string, aliases: seq<string>, hidden: bool)

  datatype Spelling = Spelling(name: string, text: string)

  function SpellingsOf(c: Command): seq<Spelling> {
    [Spelling(c.name, c.name)] + seq(|c.aliases|, i requires 0 <= i < |c.aliases| => Spelling(c.name, c.aliases[i]))
  }

  /** Every spelling of every command that is not hidden, in the order they are tried. */
  function Spellings(commands: seq<Command>): seq<Spelling> {
    if commands == [] then []
    else
      var n := |commands| - 1;
      Spellings(commands[..n]) + SpellingsShown(commands[n])
  }

  ghost predicate Names(s: Spelling, c: Command) {
    !c.hidden && s.name == c.name && (s.text == c.name || s.text in c.aliases)
  }

  ghost predicate NamesOne(s: Spelling, commands: seq<Command>) {
    exists i :: 0 <= i < |commands| && Names(s, commands[i])
  }

  lemma NamesOneOfMore(s: Spelling, commands: seq<Command>, c: Command)
    ensures NamesOne(s, commands + [c]) <==> NamesOne(s, commands) || Names(s, c)
  {
    var all := commands + [c];
    assert all[|commands|] == c;
    if NamesOne(s, commands) {
      var i :| 0 <= i < |commands| && Names(s, commands[i]);
      assert Names(s, all[i]);
    }
  }

  function SpellingsShown(c: Command): seq<Spelling> {
    if c.hidden then [] else SpellingsOf(c)
  }

  lemma SpellingsGrow(commands: seq<Command>, c: Command)
    ensures Spellings(commands + [c]) == Spellings(commands) + SpellingsShown(c)
  {
    var all := commands + [c];
    assert all[..|all| - 1] == commands;
  }

  /** They are the name and the aliases of each command that is not hidden, each under the command's name; */
  lemma {:induction false} SpellingsAre(commands: seq<Command>, s: Spelling)
    ensures s in Spellings(commands) <==> NamesOne(s, commands)
    decreases |commands|
  {
    if commands != [] {
      var front, c := commands[..|commands| - 1], commands[|commands| - 1];
      assert commands == front + [c];
      SpellingsAre(front, s);
      OwnSpellings(c, s);
      NamesOneOfMore(s, front, c);
      SpellingsGrow(front, c);
    }
  }

  lemma OwnSpellings(c: Command, s: Spelling)
    ensures s in SpellingsShown(c) <==> Names(s, c)
  {
    var own := SpellingsOf(c);
    forall i | 0 <= i < |c.aliases| ensures own[1 + i] == Spelling(c.name, c.aliases[i]) {}
    if s.name == c.name && s.text in c.aliases {
      var i :| 0 <= i < |c.aliases| && c.aliases[i] == s.text;
      assert own[1 + i] == s;
    }
  }

  /** those of an earlier command come first, and of one command its name does, and then its aliases in order. */
  lemma {:induction false} SpellingsInOrder(before: seq<Command>, c: Command, after: seq<Command>)
    ensures Spellings(before) + SpellingsShown(c) <= Spellings(before + [c] + after)
    decreases |after|
  {
    if after == [] {
      assert before + [c] + after == before + [c];
      SpellingsGrow(before, c);
    } else {
      var front, last := after[..|after| - 1], after[|after| - 1];
      assert before + [c] + after == (before + [c] + front) + [last];
      SpellingsInOrder(before, c, front);
      SpellingsGrow(before + [c] + front, last);
    }
  }

  lemma NameComesFirst(c: Command, i: nat)
    requires i < |c.aliases| && !c.hidden
    ensures SpellingsShown(c)[0] == Spelling(c.name, c.name)
    ensures |SpellingsShown(c)| == 1 + |c.aliases| && SpellingsShown(c)[1 + i] == Spelling(c.name, c.aliases[i])
  {}

  /** Spelling `k` is within a distance of 2, none is nearer, and none before it is as near. */
  ghost predicate Nearest(tried: seq<Spelling>, typed: string, k: int) {
    && 0 <= k < |tried|
    && Lev(typed, tried[k].text) <= 2
    && (forall m :: 0 <= m < |tried| ==> Lev(typed, tried[k].text) <= Lev(typed, tried[m].text))
    && (forall m :: 0 <= m < k ==> Lev(typed, tried[k].text) < Lev(typed, tried[m].text))
  }

  ghost predicate NoneNear(tried: seq<Spelling>, typed: string) {
    forall m :: 0 <= m < |tried| ==> Lev(typed, tried[m].text) > 2
  }

  /** `name` is that of the first nearest spelling within a distance of 2, or "" if there is none. */
  ghost predicate IsSuggestion(tried: seq<Spelling>, typed: string, name: string) {
    || (NoneNear(tried, typed) && name == "")
    || (exists k :: Nearest(tried, typed, k) && name == tried[k].name)
  }

  /** There is only one. */
  lemma SuggestionIsUnique(tried: seq<Spelling>, typed: string, a: string, b: string)
    requires IsSuggestion(tried, typed, a) && IsSuggestion(tried, typed, b)
    ensures a == b
  {
    if i :| Nearest(tried, typed, i) && a == tried[i].name {
      assert !NoneNear(tried, typed);
      var j :| Nearest(tried, typed, j) && b == tried[j].name;
      assert !(i < j) && !(j < i);
    }
  }

  /** The running best, spelling `k` or none yet, and its distance, which starts at 3. */
  ghost predicate IsBest(tried: seq<Spelling>, typed: string, k: int, best: string, distance: nat) {
    if distance == 3 then NoneNear(tried, typed) && best == ""
    else Nearest(tried, typed, k) && Lev(typed, tried[k].text) == distance && best == tried[k].name
  }

  lemma TryOne(tried: seq<Spelling>, typed: string, k: int, best: string, distance: nat, s: Spelling)
    requires IsBest(tried, typed, k, best, distance)
    ensures var d := Lev(typed, s.text);
            if d < distance then IsBest(tried + [s], typed, |tried|, s.name, d) else IsBest(tried + [s], typed, k, best, distance)
  {
    var all := tried + [s];
    assert all[|tried|] == s && forall m :: 0 <= m < |tried| ==> all[m] == tried[m];
  }

  /** The spellings of one command, tried on top of those before it. */
  method TrySpellings(typed: string, c: Command, best0: string, distance0: nat, ghost tried: seq<Spelling>, ghost k0: int)
    returns (best: string, distance: nat, ghost k: int)
    requires IsBest(tried, typed, k0, best0, distance0) && distance0 <= 3
    ensures IsBest(tried + SpellingsOf(c), typed, k, best, distance) && distance <= 3
  {
    best, distance, k := best0, distance0, k0;
    var names := [c.name] + c.aliases;
    ghost var own := SpellingsOf(c);
    assert |own| == |names| && forall m :: 0 <= m < |own| ==> own[m] == Spelling(c.name, names[m]);
    ghost var done := tried;
    var i := 0;
    while i < |names|
      invariant 0 <= i <= |names|
      invariant done == tried + own[..i]
      invariant IsBest(done, typed, k, best, distance) && distance <= 3
    {
      var d := Distance(typed, names[i]);
      TryOne(done, typed, k, best, distance, own[i]);
      if d < distance {
        best, distance, k := c.name, d, |done|;
      }
      done := done + [own[i]];
      i := i + 1;
    }
    assert own[..i] == own;
  }

  method Suggest(commands: seq<Command>, typed: string) returns (best: string)
    ensures IsSuggestion(Spellings(commands), typed, best)
  {
    var distance: nat := 3;
    best := "";
    ghost var k := 0;
    for i := 0 to |commands|
      invariant IsBest(Spellings(commands[..i]), typed, k, best, distance) && distance <= 3
    {
      assert commands[..i + 1][..i] == commands[..i];
      if !commands[i].hidden {
        best, distance, k := TrySpellings(typed, commands[i], best, distance, Spellings(commands[..i]), k);
      } else {
        assert Spellings(commands[..i + 1]) == Spellings(commands[..i]);
      }
    }
    assert commands[..|commands|] == commands;
  }

  /** The same for the verbs of a command, none of which is hidden; "" for a command there is none of. */
  method SuggestSub(found: bool, verbs: seq<Command>, typed: string) returns (best: string)
    requires forall i :: 0 <= i < |verbs| ==> !verbs[i].hidden
    ensures if found then IsSuggestion(Spellings(verbs), typed, best) else best == ""
  {
    if !found {
      return "";
    }
    best := Suggest(verbs, typed);
  }
}
