/** Naming the steps of a router (`nameSteps`, internal/cli/router.go; the walk is `Steps`, internal/policy/router.go).

`NameSteps` sets ids in place, by a step's position in the walk, and `NameRouter` does so over a whole tree.
*/
module StepNames {
  import opened Text

  /** A step, and the steps below it that there are: the next one, the one for an exceeded limit, and then the branches
  in the order of their destinations. A router is the list of its start, or empty. */
  datatype Step = Step(id: string, kind: string, below: seq<Step>)

  /** What naming reads of a step. */
  datatype Label = Label(id: string, kind: string)

  /** The steps of some trees, each before what follows it. */
  function Steps(trees: seq<Step>): seq<Label> {
    if trees == [] then []
    else [Label(trees[0].id, trees[0].kind)] + Steps(trees[0].below) + Steps(trees[1..])
  }

  function ReplaceUnderscores(s: string): (r: string) {
    if s == "" then "" else [if s[0] == '_' then '-' else s[0]] + ReplaceUnderscores(s[1..])
  }

  function Base(kind: string): (base: string)
    ensures base != ""
  {
    var base := ReplaceUnderscores(kind);
    if base == "" then "step" else base
  }

  function NewId(kind: string, n: nat): (id: string)
    ensures id != ""
  {
    Base(kind) + "-" + Itoa(n)
  }

  lemma NewIdsDiffer(kind: string, m: nat, n: nat)
    requires NewId(kind, m) == NewId(kind, n)
    ensures m == n
  {
    var front := Base(kind) + "-";
    assert NewId(kind, m)[|front|..] == Itoa(m) && NewId(kind, n)[|front|..] == Itoa(n);
    ValueOfItoa(m);
    ValueOfItoa(n);
  }

  lemma {:induction false} ReplacesEach(s: string)
    ensures |ReplaceUnderscores(s)| == |s|
    ensures forall i :: 0 <= i < |s| ==> ReplaceUnderscores(s)[i] == if s[i] == '_' then '-' else s[i]
  {
    if s != "" { ReplacesEach(s[1..]); }
  }

  /** A new id is the kind with hyphens for underscores, a hyphen and the number; a step without a kind is a step. */
  lemma NewIdIs(kind: string, n: nat)
    ensures var id, size := NewId(kind, n), if kind == "" then 4 else |kind|;
            && |id| > size + 1 && id[size] == '-'
            && (kind == "" ==> id[..size] == "step")
            && (kind != "" ==> forall i :: 0 <= i < size ==> id[i] == if kind[i] == '_' then '-' else kind[i])
            && AllDigits(id[size + 1..]) && Value(id[size + 1..]) == n && (id[size + 1] == '0' ==> n == 0)
  {
    ReplacesEach(kind);
    ValueOfItoa(n);
    var front := Base(kind) + "-";
    assert NewId(kind, n)[|front|..] == Itoa(n);
  }

  /** Every id up to the `n`th of the kind is taken. */
  ghost predicate TakenTo(kind: string, n: nat, taken: set<string>) {
    forall j :: 1 <= j <= n ==> NewId(kind, j) in taken
  }

  /** So a counter never passes the number of taken ids, and the search for a free one ends. */
  lemma {:induction false} CounterIsBounded(kind: string, n: nat, taken: set<string>)
    requires TakenTo(kind, n, taken)
    ensures n <= |taken|
  {
    if n > 0 {
      var others := taken - {NewId(kind, n)};
      assert TakenTo(kind, n - 1, others) by {
        forall j | 1 <= j <= n - 1 ensures NewId(kind, j) in others {
          if NewId(kind, j) == NewId(kind, n) { NewIdsDiffer(kind, j, n); }
        }
      }
      CounterIsBounded(kind, n - 1, others);
    }
  }

  ghost predicate IsFresh(ids: seq<string>, i: nat)
    requires i < |ids|
  {
    forall j :: 0 <= j < |ids| && j != i ==> ids[j] != ids[i]
  }

  /** A new id has the first number of its kind that was not taken. */
  ghost predicate IsFirstFree(kind: string, id: string, n: nat, ids: seq<string>) {
    n >= 1 && id == NewId(kind, n) && forall j :: 1 <= j < n ==> NewId(kind, j) in ids
  }

  ghost predicate Named(kinds: seq<string>, was: seq<string>, now: seq<string>, numbers: seq<nat>) {
    && |kinds| == |was| == |now| == |numbers|
    && forall i :: 0 <= i < |now| ==>
         && now[i] != ""
         && (was[i] != "" ==> now[i] == was[i])
         && (was[i] == "" ==> IsFresh(now, i) && IsFirstFree(kinds[i], now[i], numbers[i], now))
  }

  function Count(counters: map<string, nat>, kind: string): nat {
    if kind in counters then counters[kind] else 0
  }

  ghost predicate CountersHold(counters: map<string, nat>, taken: set<string>) {
    forall kind, j :: 1 <= j <= Count(counters, kind) ==> NewId(kind, j) in taken
  }

  lemma CountersMove(counters: map<string, nat>, taken: set<string>, kind: string, n: nat)
    requires CountersHold(counters, taken) && n >= 1 && TakenTo(kind, n - 1, taken)
    ensures CountersHold(counters[kind := n], taken + {NewId(kind, n)})
  {
    var more := counters[kind := n];
    forall k, j | 1 <= j <= Count(more, k) ensures NewId(k, j) in taken + {NewId(kind, n)} {
      assert k != kind ==> Count(more, k) == Count(counters, k);
    }
  }

  /** The ids before position `i` are named, and `taken` is every id there is. */
  ghost predicate NamedTo(
      i: nat, kinds: seq<string>, was: seq<string>, now: seq<string>, numbers: seq<nat>, taken: set<string>)
  {
    && i <= |kinds| == |was| == |now| == |numbers|
    && (forall k :: 0 <= k < |now| ==> now[k] in taken)
    && (forall t :: t in taken ==> t == "" || t in now)
    && (forall k :: 0 <= k < |now| && (i <= k || was[k] != "") ==> now[k] == was[k])
    && (forall k :: 0 <= k < i && was[k] == "" ==> IsFresh(now, k) && IsFirstFree(kinds[k], now[k], numbers[k], now))
  }

  lemma Names(
      i: nat, kinds: seq<string>, was: seq<string>, now: seq<string>, numbers: seq<nat>, taken: set<string>, n: nat)
    returns (next: seq<string>, used: seq<nat>)
    requires NamedTo(i, kinds, was, now, numbers, taken) && i < |now| && was[i] == ""
    requires n >= 1 && TakenTo(kinds[i], n - 1, taken) && NewId(kinds[i], n) !in taken
    ensures next == now[i := NewId(kinds[i], n)]
    ensures NamedTo(i + 1, kinds, was, next, used, taken + {NewId(kinds[i], n)})
  {
    var id := NewId(kinds[i], n);
    next, used := now[i := id], numbers[i := n];
    assert now[i] == "";
    assert forall t :: t in now && t != "" ==> t in next by {
      forall t | t in now && t != "" ensures t in next {
        var k :| 0 <= k < |now| && now[k] == t;
        assert next[k] == t;
      }
    }
    assert next[i] == id;
    forall k | 0 <= k < i + 1 && was[k] == ""
      ensures IsFresh(next, k) && IsFirstFree(kinds[k], next[k], used[k], next)
    {
      if k < i {
        assert IsFresh(now, k) && IsFirstFree(kinds[k], now[k], numbers[k], now);
      }
    }
  }

  method FirstFree(kind: string, from: nat, taken: set<string>) returns (n: nat)
    requires TakenTo(kind, from, taken)
    ensures n >= 1 && TakenTo(kind, n - 1, taken) && NewId(kind, n) !in taken
  {
    n := from + 1;
    while NewId(kind, n) in taken
      invariant n >= 1 && TakenTo(kind, n - 1, taken)
      decreases |taken| - n
    {
      CounterIsBounded(kind, n, taken);
      n := n + 1;
    }
  }

  method NameSteps(kinds: seq<string>, ids: array<string>) returns (ghost numbers: seq<nat>)
    requires ids.Length == |kinds|
    modifies ids
    ensures Named(kinds, old(ids[..]), ids[..], numbers)
  {
    var taken: set<string> := set id | id in ids[..];
    var counters: map<string, nat> := map[];
    ghost var was := ids[..];
    numbers := seq(|kinds|, _ => 0);
    var i := 0;
    while i < |kinds|
      invariant 0 <= i <= |kinds|
      invariant NamedTo(i, kinds, was, ids[..], numbers, taken)
      invariant CountersHold(counters, taken)
    {
      var kind := kinds[i];
      if ids[i] == "" {
        var n := FirstFree(kind, Count(counters, kind), taken);
        ghost var next;
        next, numbers := Names(i, kinds, was, ids[..], numbers, taken, n);
        var id := NewId(kind, n);
        CountersMove(counters, taken, kind, n);
        counters := counters[kind := n];
        ids[i] := id;
        taken := taken + {id};
        assert ids[..] == next;
      }
      i := i + 1;
    }
  }

  // The tree.

  function Ids(steps: seq<Label>): (ids: seq<string>)
    ensures |ids| == |steps| && forall i :: 0 <= i < |ids| ==> ids[i] == steps[i].id
  {
    if steps == [] then [] else [steps[0].id] + Ids(steps[1..])
  }

  function Kinds(steps: seq<Label>): (kinds: seq<string>)
    ensures |kinds| == |steps| && forall i :: 0 <= i < |kinds| ==> kinds[i] == steps[i].kind
  {
    if steps == [] then [] else [steps[0].kind] + Kinds(steps[1..])
  }

  /** The trees whose steps have these ids, in the order of the walk. */
  function Relabel(trees: seq<Step>, ids: seq<string>): (named: seq<Step>)
    requires |ids| == |Steps(trees)|
    ensures |named| == |trees|
  {
    if trees == [] then []
    else
      var n := 1 + |Steps(trees[0].below)|;
      [Step(ids[0], trees[0].kind, Relabel(trees[0].below, ids[1..n]))] + Relabel(trees[1..], ids[n..])
  }

  /** The trees without their ids. */
  function Bare(trees: seq<Step>): seq<Step> {
    if trees == [] then []
    else [Step("", trees[0].kind, Bare(trees[0].below))] + Bare(trees[1..])
  }

  lemma {:induction false} LabelsAppend(b: seq<Label>, c: seq<Label>)
    ensures Ids(b + c) == Ids(b) + Ids(c) && Kinds(b + c) == Kinds(b) + Kinds(c)
  {
    if b == [] {
      assert b + c == c;
    } else {
      assert (b + c)[1..] == b[1..] + c;
      LabelsAppend(b[1..], c);
    }
  }

  lemma {:induction false} StepsAppend(a: Label, b: seq<Label>, c: seq<Label>)
    ensures Ids([a] + b + c) == [a.id] + Ids(b) + Ids(c)
    ensures Kinds([a] + b + c) == [a.kind] + Kinds(b) + Kinds(c)
  {
    assert ([a] + b + c)[1..] == b + c;
    LabelsAppend(b, c);
  }

  lemma StepsOfOne(tree: Step, trees: seq<Step>)
    ensures Steps([tree] + trees) == [Label(tree.id, tree.kind)] + Steps(tree.below) + Steps(trees)
    ensures Bare([tree] + trees) == [Step("", tree.kind, Bare(tree.below))] + Bare(trees)
  {
    assert ([tree] + trees)[1..] == trees;
  }

  /** Only ids change, and the walk meets the new ones in order. */
  lemma {:induction false} RelabelKeepsTheTree(trees: seq<Step>, ids: seq<string>)
    requires |ids| == |Steps(trees)|
    ensures Bare(Relabel(trees, ids)) == Bare(trees)
    ensures Ids(Steps(Relabel(trees, ids))) == ids
    ensures Kinds(Steps(Relabel(trees, ids))) == Kinds(Steps(trees))
  {
    if trees != [] {
      var tree := trees[0];
      var n := 1 + |Steps(tree.below)|;
      RelabelKeepsTheTree(tree.below, ids[1..n]);
      RelabelKeepsTheTree(trees[1..], ids[n..]);
      var named := Step(ids[0], tree.kind, Relabel(tree.below, ids[1..n]));
      var later := Relabel(trees[1..], ids[n..]);
      StepsOfOne(named, later);
      StepsAppend(Label(ids[0], tree.kind), Steps(named.below), Steps(later));
      StepsAppend(Label(tree.id, tree.kind), Steps(tree.below), Steps(trees[1..]));
      Cut(ids, n);
    }
  }

  lemma Cut(ids: seq<string>, n: nat)
    requires 1 <= n <= |ids|
    ensures [ids[0]] + ids[1..n] + ids[n..] == ids
  {}

  /** Every step of the named tree has an id, ids that were given stay, a new id is no other step's, and it has the first
  number of its kind that was not taken. The tree is the same otherwise. */
  method NameRouter(router: seq<Step>) returns (named: seq<Step>, ghost numbers: seq<nat>)
    ensures Bare(named) == Bare(router)
    ensures Named(Kinds(Steps(router)), Ids(Steps(router)), Ids(Steps(named)), numbers)
  {
    var steps := Steps(router);
    var kinds, given := Kinds(steps), Ids(steps);
    var ids := new string[|steps|](i requires 0 <= i < |steps| => given[i]);
    assert ids[..] == given;
    numbers := NameSteps(kinds, ids);
    named := Relabel(router, ids[..]);
    RelabelKeepsTheTree(router, ids[..]);
  }
}
