/** The outcome counts of a live request stream (`countOutcomes`, internal/control/live.go).

A stream recounts its whole window once a minute and in between counts only what is new: the rows its cursor
settled since go into a tally that only grows, and the rows past the cursor are counted afresh each time.

The main result is `CountsAreTheWindowIff`: the incremental counts equal one count of the whole window exactly
when no row of the window became visible behind `settled` after its range had been counted.
*/
module OutcomeCounts {
  import opened Text

  /** Nanoseconds. */
  const STREAM_RECOUNT: int := 60_000_000_000

  /** A logged request, as far as it is counted. */
  datatype Row = Row(id: int, ts: int, status: int, error: bool)

  datatype Outcomes = Outcomes(total: int, ok: int, failed: int, refused: int, interrupted: int) {
    function Add(d: Outcomes): Outcomes {
      Outcomes(total + d.total, ok + d.ok, failed + d.failed, refused + d.refused, interrupted + d.interrupted)
    }
  }

  /** The cursors of a count; an `after` or `before` of 0 sets no bound. */
  datatype Query = Query(from: Option<int>, after: int, before: int) {
    predicate Matches(r: Row) {
      && (from == None || r.ts >= from.value)
      && (before == 0 || r.id < before)
      && (after == 0 || r.id > after)
    }
  }

  function Select(log: set<Row>, q: Query): set<Row> {
    set r | r in log && q.Matches(r)
  }

  datatype Outcome = OK | Failed | Refused | Interrupted {
    predicate Is(r: Row) {
      match this
      case OK => r.status < 400 && !r.error
      case Failed => r.status >= 500
      case Refused => 400 <= r.status <= 499
      case Interrupted => r.status < 400 && r.error
    }
  }

  function With(rows: set<Row>, o: Outcome): set<Row> {
    set r | r in rows && o.Is(r)
  }

  function ByOutcome(rows: set<Row>): Outcomes {
    Outcomes(|rows|, |With(rows, OK)|, |With(rows, Failed)|, |With(rows, Refused)|, |With(rows, Interrupted)|)
  }

  /** The store's answer: the matching rows, counted by outcome. */
  function CountOf(log: set<Row>, q: Query): Outcomes {
    ByOutcome(Select(log, q))
  }

  /** One count: what its first and its second query can see, and where the cursor, the clock and the window are. */
  datatype Count = Count(first: set<Row>, second: set<Row>, settled: int, now: int, from: Option<int>)

  /** `at` is None while nothing was counted yet. */
  datatype Tally = Tally(base: Outcomes, upTo: int, at: Option<int>) {

    predicate Recounts(c: Count) {
      at == None || c.now - at.value >= STREAM_RECOUNT
    }

    function Next(c: Count): Tally {
      if Recounts(c) then
        Tally(CountOf(c.first, Query(c.from, 0, c.settled + 1)), c.settled, Some(c.now))
      else if c.settled > upTo then
        this.(base := base.Add(CountOf(c.first, Query(None, upTo, c.settled + 1))), upTo := c.settled)
      else this
    }
  }

  const NOTHING: Tally := Tally(Outcomes(0, 0, 0, 0, 0), 0, None)

  class OutcomeTally {
    var base: Outcomes
    var upTo: int
    var at: Option<int>

    function Value(): Tally
      reads this
    {
      Tally(base, upTo, at)
    }

    constructor ()
      ensures Value() == NOTHING
    {
      base, upTo, at := Outcomes(0, 0, 0, 0, 0), 0, None;
    }

    method CountOutcomes(c: Count) returns (counts: Outcomes)
      modifies this
      ensures Value() == old(Value()).Next(c)
      ensures counts == CountOf(c.second, Query(None, c.settled, 0)).Add(base)
    {
      if at == None || c.now - at.value >= STREAM_RECOUNT {
        base := CountOf(c.first, Query(c.from, 0, c.settled + 1));
        upTo, at := c.settled, Some(c.now);
      } else if c.settled > upTo {
        base := base.Add(CountOf(c.first, Query(None, upTo, c.settled + 1)));
        upTo := c.settled;
      }
      counts := CountOf(c.second, Query(None, c.settled, 0)).Add(base);
    }
  }

  // Runs.

  function Run(counts: seq<Count>): Tally {
    if counts == [] then NOTHING else Run(counts[..|counts| - 1]).Next(counts[|counts| - 1])
  }

  /** What the last count of a run reports. */
  function Reported(counts: seq<Count>): Outcomes
    requires counts != []
  {
    var last := counts[|counts| - 1];
    CountOf(last.second, Query(None, last.settled, 0)).Add(Run(counts).base)
  }

  /** The cursor of a stream moves only forward, and row ids start at 1. */
  ghost predicate Valid(counts: seq<Count>) {
    && (forall i :: 0 <= i < |counts| ==> counts[i].settled >= 0)
    && (forall i, j :: 0 <= i <= j < |counts| ==> counts[i].settled <= counts[j].settled)
    && (forall i, r :: 0 <= i < |counts| && (r in counts[i].first || r in counts[i].second) ==> r.id > 0)
  }

  /** The log only grows while the stream runs. */
  ghost predicate Grows(counts: seq<Count>) {
    && (forall i :: 0 <= i < |counts| ==> counts[i].first <= counts[i].second)
    && (forall i, j :: 0 <= i < j < |counts| ==> counts[i].second <= counts[j].first)
  }

  /** The count at which the whole window was last counted. */
  function LastRecount(counts: seq<Count>): (i: nat)
    requires counts != []
    ensures i < |counts|
  {
    var n := |counts| - 1;
    if n == 0 || Run(counts[..n]).Recounts(counts[n]) then n else LastRecount(counts[..n])
  }

  /** The window as of the last recount: it bounds the time of the rows settled by then, and of no others. */
  predicate InWindow(counts: seq<Count>, r: Row)
    requires counts != []
  {
    var whole := counts[LastRecount(counts)];
    r.id > whole.settled || whole.from == None || r.ts >= whole.from.value
  }

  ghost function Window(counts: seq<Count>): set<Row>
    requires counts != []
  {
    set r | r in counts[|counts| - 1].second && InWindow(counts, r)
  }

  ghost function PastCursor(c: Count): set<Row> {
    set r | r in c.second && r.id > c.settled
  }

  /** The count whose range a settled `id` fell into: the first since the recount to settle past it. */
  function Cover(counts: seq<Count>, id: int): (k: nat)
    requires counts != []
    ensures k < |counts|
  {
    var n := |counts| - 1;
    if n == 0 || Run(counts[..n]).Recounts(counts[n]) || counts[n - 1].settled < id then n
    else Cover(counts[..n], id)
  }

  lemma {:induction false} CoverIsTheFirstPast(counts: seq<Count>, id: int)
    requires Valid(counts) && counts != [] && id <= counts[|counts| - 1].settled
    ensures var k := Cover(counts, id);
            && LastRecount(counts) <= k
            && id <= counts[k].settled
            && forall j :: LastRecount(counts) <= j < k ==> counts[j].settled < id
    decreases |counts|
  {
    var n := |counts| - 1;
    if n == 0 || Run(counts[..n]).Recounts(counts[n]) {
      assert LastRecount(counts) == n;
    } else if counts[n - 1].settled >= id {
      var earlier := counts[..n];
      assert earlier[n - 1] == counts[n - 1];
      CoverIsTheFirstPast(earlier, id);
      assert LastRecount(counts) == LastRecount(earlier) && Cover(counts, id) == Cover(earlier, id);
      assert forall j :: 0 <= j < n ==> earlier[j] == counts[j];
    }
  }

  /** The rows a tally holds after a count, from those it held. */
  ghost function HeldNext(t: Tally, held: set<Row>, c: Count): set<Row> {
    if t.Recounts(c) then Select(c.first, Query(c.from, 0, c.settled + 1))
    else if c.settled > t.upTo then held + Select(c.first, Query(None, t.upTo, c.settled + 1))
    else held
  }

  ghost function Held(counts: seq<Count>): set<Row> {
    if counts == [] then {}
    else HeldNext(Run(counts[..|counts| - 1]), Held(counts[..|counts| - 1]), counts[|counts| - 1])
  }

  lemma ByOutcomeAdds(a: set<Row>, b: set<Row>)
    requires a !! b
    ensures ByOutcome(a + b) == ByOutcome(a).Add(ByOutcome(b))
  {
    WithAdds(a, b, OK);
    WithAdds(a, b, Failed);
    WithAdds(a, b, Refused);
    WithAdds(a, b, Interrupted);
  }

  lemma WithAdds(a: set<Row>, b: set<Row>, o: Outcome)
    requires a !! b
    ensures |With(a + b, o)| == |With(a, o)| + |With(b, o)|
  {
    assert With(a + b, o) == With(a, o) + With(b, o);
  }

  lemma ByOutcomeEmpty()
    ensures ByOutcome({}) == Outcomes(0, 0, 0, 0, 0)
  {
    assert With({}, OK) == With({}, Failed) == With({}, Refused) == With({}, Interrupted) == {};
  }

  /** Where the tally stands, and that the rows it holds are at or below that. */
  lemma {:induction false} HeldBelow(counts: seq<Count>)
    requires Valid(counts)
    ensures Run(counts).upTo == if counts == [] then 0 else counts[|counts| - 1].settled
    ensures counts != [] ==> Run(counts).at != None
    ensures forall r :: r in Held(counts) ==> 0 < r.id <= Run(counts).upTo
    decreases |counts|
  {
    if counts != [] {
      var n := |counts| - 1;
      HeldBelow(counts[..n]);
      assert n > 0 ==> counts[..n][n - 1] == counts[n - 1];
    }
  }

  lemma BaseAdds(base: Outcomes, held: set<Row>, step: set<Row>)
    requires base == ByOutcome(held) && held !! step
    ensures base.Add(ByOutcome(step)) == ByOutcome(held + step)
  {
    ByOutcomeAdds(held, step);
  }

  lemma NextAdds(t: Tally, held: set<Row>, c: Count)
    requires !t.Recounts(c) && c.settled > t.upTo
    ensures var step := Select(c.first, Query(None, t.upTo, c.settled + 1));
            t.Next(c).base == t.base.Add(ByOutcome(step)) && HeldNext(t, held, c) == held + step
  {}

  lemma NextStays(t: Tally, held: set<Row>, c: Count)
    requires t.base == ByOutcome(held) && (t.Recounts(c) || c.settled <= t.upTo)
    ensures t.Next(c).base == ByOutcome(HeldNext(t, held, c))
  {}

  /** The tally counts the rows it holds: its ranges neither overlap nor leave a gap. */
  lemma {:induction false} BaseCountsHeld(counts: seq<Count>)
    requires Valid(counts)
    ensures Run(counts).base == ByOutcome(Held(counts))
    decreases |counts|
  {
    if counts == [] {
      ByOutcomeEmpty();
    } else {
      var n := |counts| - 1;
      var earlier, c := counts[..n], counts[n];
      BaseCountsHeld(earlier);
      BaseMoves(earlier, Run(earlier), Held(earlier), c);
    }
  }

  lemma BaseMoves(earlier: seq<Count>, t: Tally, held: set<Row>, c: Count)
    requires Valid(earlier) && t == Run(earlier) && held == Held(earlier) && t.base == ByOutcome(held)
    requires forall r :: r in c.first ==> r.id > 0
    ensures t.Next(c).base == ByOutcome(HeldNext(t, held, c))
  {
    if t.Recounts(c) || c.settled <= t.upTo {
      NextStays(t, held, c);
    } else {
      StepIsApart(earlier, c);
      NextAdds(t, held, c);
      BaseAdds(t.base, held, Select(c.first, Query(None, t.upTo, c.settled + 1)));
    }
  }

  lemma StepIsApart(counts: seq<Count>, c: Count)
    requires Valid(counts) && forall r :: r in c.first ==> r.id > 0
    ensures Held(counts) !! Select(c.first, Query(None, Run(counts).upTo, c.settled + 1))
  {
    HeldBelow(counts);
    forall r | r in Held(counts) ensures r !in Select(c.first, Query(None, Run(counts).upTo, c.settled + 1)) {}
  }

  /** The count that covered the row's id could see the row. */
  ghost predicate Covered(counts: seq<Count>, r: Row)
    requires counts != []
  {
    r.id <= counts[|counts| - 1].settled && r in counts[Cover(counts, r.id)].first
  }

  /** A row is in the tally exactly when it is in the window and covered. */
  lemma {:induction false} HeldMeans(counts: seq<Count>, r: Row)
    requires Valid(counts) && counts != [] && r.id > 0
    ensures r in Held(counts) <==> InWindow(counts, r) && Covered(counts, r)
    decreases |counts|
  {
    var n := |counts| - 1;
    HeldBelow(counts[..n]);
    if n > 0 && !Run(counts[..n]).Recounts(counts[n]) {
      HeldMeans(counts[..n], r);
      HeldMeansNext(counts, r);
    }
  }

  lemma HeldMeansNext(counts: seq<Count>, r: Row)
    requires Valid(counts) && |counts| > 1 && r.id > 0
    requires !Run(counts[..|counts| - 1]).Recounts(counts[|counts| - 1])
    ensures var earlier, c := counts[..|counts| - 1], counts[|counts| - 1];
            && InWindow(counts, r) == (InWindow(earlier, r) || (r.id > earlier[|earlier| - 1].settled))
            && (Covered(counts, r) <==> if r.id <= earlier[|earlier| - 1].settled then Covered(earlier, r) else r.id <= c.settled && r in c.first)
            && (r in Held(counts) <==> r in Held(earlier) || (r.id > earlier[|earlier| - 1].settled && r.id <= c.settled && r in c.first))
  {
    var n := |counts| - 1;
    var earlier := counts[..n];
    HeldBelow(earlier);
    assert earlier[n - 1] == counts[n - 1];
    assert earlier[LastRecount(counts)] == counts[LastRecount(counts)];
    assert counts[LastRecount(counts)].settled <= counts[n - 1].settled;
  }

  /** What a count reports is the count of the rows it holds and of those past the cursor, which are apart. */
  lemma ReportedIs(counts: seq<Count>)
    requires Valid(counts) && counts != []
    ensures var last := counts[|counts| - 1];
            Reported(counts) == ByOutcome(Held(counts) + PastCursor(last))
  {
    var last := counts[|counts| - 1];
    HeldBelow(counts);
    BaseCountsHeld(counts);
    var recent := Select(last.second, Query(None, last.settled, 0));
    assert recent == PastCursor(last);
    assert recent !! Held(counts);
    ByOutcomeAdds(recent, Held(counts));
    assert recent + Held(counts) == Held(counts) + recent;
  }

  /** Over any run of a growing log, the counts reported equal one count of the whole window exactly when every
  settled row of the window was visible to the count that covered its id. */
  lemma CountsAreTheWindowIff(counts: seq<Count>)
    requires Valid(counts) && Grows(counts) && counts != []
    ensures Reported(counts) == ByOutcome(Window(counts)) <==>
            forall r: Row :: r in Window(counts) && r.id <= counts[|counts| - 1].settled ==>
              r in counts[Cover(counts, r.id)].first
  {
    ReportedIs(counts);
    WindowHoldsCounted(counts);
    ByOutcomeTells(Held(counts) + PastCursor(counts[|counts| - 1]), Window(counts));
    WindowIsCountedIff(counts);
  }

  /** Of a set and a part of it, the counts agree only if the sets do. */
  lemma ByOutcomeTells(a: set<Row>, b: set<Row>)
    requires a <= b
    ensures ByOutcome(a) == ByOutcome(b) <==> a == b
  {
    if ByOutcome(a) == ByOutcome(b) {
      assert |b - a| == 0;
    }
  }

  lemma WindowIsCountedIff(counts: seq<Count>)
    requires Valid(counts) && counts != []
    ensures Window(counts) <= Held(counts) + PastCursor(counts[|counts| - 1]) <==>
            forall r: Row :: r in Window(counts) && r.id <= counts[|counts| - 1].settled ==>
              r in counts[Cover(counts, r.id)].first
  {
    forall r: Row | r in Window(counts) ensures r in Held(counts) <==> Covered(counts, r) {
      HeldMeans(counts, r);
    }
  }

  lemma WindowHoldsCounted(counts: seq<Count>)
    requires Valid(counts) && Grows(counts) && counts != []
    ensures Held(counts) + PastCursor(counts[|counts| - 1]) <= Window(counts)
  {
    var last := counts[|counts| - 1];
    HeldBelow(counts);
    forall r | r in Held(counts) ensures r in Window(counts) {
      HeldMeans(counts, r);
      var k := Cover(counts, r.id);
      assert counts[k].first <= counts[k].second <= last.second by {
        assert k < |counts| - 1 ==> counts[k].second <= last.first <= last.second;
      }
    }
    assert counts[LastRecount(counts)].settled <= last.settled;
  }

  /** The clock of a tally is that of its last recount. */
  lemma {:induction false} ClockIsOfTheRecount(counts: seq<Count>)
    requires counts != []
    ensures Run(counts).at == Some(counts[LastRecount(counts)].now)
    decreases |counts|
  {
    var n := |counts| - 1;
    if n > 0 && !Run(counts[..n]).Recounts(counts[n]) {
      ClockIsOfTheRecount(counts[..n]);
      assert counts[..n][LastRecount(counts[..n])] == counts[LastRecount(counts)];
    }
  }

  /** A stream never goes a minute without counting its whole window again. */
  lemma WindowIsOfThisMinute(counts: seq<Count>)
    requires counts != []
    ensures counts[|counts| - 1].now - counts[LastRecount(counts)].now < 60_000_000_000
  {
    var n := |counts| - 1;
    if LastRecount(counts) != n {
      ClockIsOfTheRecount(counts[..n]);
      assert counts[..n][LastRecount(counts[..n])] == counts[LastRecount(counts)];
    }
  }

  /** Of the rows a count sees, those past the cursor and those within the window as it stands now. */
  ghost function Current(c: Count): set<Row> {
    (set r | r in c.second && r.id > c.settled)
    + (set r | r in c.first && r.id <= c.settled && (c.from == None || r.ts >= c.from.value))
  }

  lemma RecountsAfterAMinute(counts: seq<Count>)
    requires counts != []
    requires forall i :: 0 <= i < |counts| - 1 ==> counts[|counts| - 1].now - counts[i].now >= 60_000_000_000
    ensures Run(counts[..|counts| - 1]).Recounts(counts[|counts| - 1])
  {
    var n := |counts| - 1;
    if n > 0 {
      ClockIsOfTheRecount(counts[..n]);
      assert counts[..n][LastRecount(counts[..n])] == counts[LastRecount(counts[..n])];
    }
  }

  lemma FreshIsCurrent(t: Tally, held: set<Row>, c: Count)
    requires t.Recounts(c) && c.settled >= 0 && forall r :: r in c.first || r in c.second ==> r.id > 0
    ensures HeldNext(t, held, c) + PastCursor(c) == Current(c)
  {
    assert HeldNext(t, held, c) == Select(c.first, Query(c.from, 0, c.settled + 1));
  }

  lemma LastIsValid(counts: seq<Count>)
    requires Valid(counts) && counts != []
    ensures var c := counts[|counts| - 1];
            c.settled >= 0 && forall r :: r in c.first || r in c.second ==> r.id > 0
  {}

  /** A count a minute or more after every earlier one, and the first one, reports exactly those rows. */
  lemma CountAfterAMinute(counts: seq<Count>)
    requires Valid(counts) && counts != []
    requires forall i :: 0 <= i < |counts| - 1 ==> counts[|counts| - 1].now - counts[i].now >= 60_000_000_000
    ensures Reported(counts) == ByOutcome(Current(counts[|counts| - 1]))
  {
    var earlier, last := counts[..|counts| - 1], counts[|counts| - 1];
    RecountsAfterAMinute(counts);
    LastIsValid(counts);
    FreshIsCurrent(Run(earlier), Held(earlier), last);
    assert Held(counts) + PastCursor(last) == Current(last);
    ReportedIs(counts);
  }

  /** The four outcomes, as they are told apart; every row has exactly one. */
  lemma OutcomesPartition(rows: set<Row>)
    ensures var o := ByOutcome(rows);
            && o.total == |rows| == o.ok + o.failed + o.refused + o.interrupted
            && o.ok == |set r | r in rows && r.status < 400 && !r.error|
            && o.interrupted == |set r | r in rows && r.status < 400 && r.error|
            && o.refused == |set r | r in rows && 400 <= r.status < 500|
            && o.failed == |set r | r in rows && r.status >= 500|
  {
    var ok, interrupted := With(rows, OK), With(rows, Interrupted);
    var refused, failed := With(rows, Refused), With(rows, Failed);
    assert ok == set r | r in rows && r.status < 400 && !r.error;
    assert interrupted == set r | r in rows && r.status < 400 && r.error;
    assert refused == set r | r in rows && 400 <= r.status < 500;
    assert failed == set r | r in rows && r.status >= 500;
    SizesAdd(rows, ok, failed, refused, interrupted);
  }

  lemma SizesAdd(rows: set<Row>, a: set<Row>, b: set<Row>, c: set<Row>, d: set<Row>)
    requires rows == a + b + c + d && a !! b && a !! c && a !! d && b !! c && b !! d && c !! d
    ensures |rows| == |a| + |b| + |c| + |d|
  {
    assert |a + b| == |a| + |b|;
    assert |a + b + c| == |a + b| + |c|;
  }

  /** A row that becomes visible behind a count is not counted until the next recount. */
  lemma LateRowIsNotCounted(r: Row)
    requires r.id == 3
    ensures var counts := [Count({}, {}, 5, 0, None), Count({r}, {r}, 5, 1, None)];
            Valid(counts) && Grows(counts) && Reported(counts) != ByOutcome(Window(counts))
  {
    var counts := [Count({}, {}, 5, 0, None), Count({r}, {r}, 5, 1, None)];
    assert counts[..1] == [Count({}, {}, 5, 0, None)] && counts[..1][..0] == [];
    assert !Run(counts[..1]).Recounts(counts[1]);
    assert r in Window(counts) && r !in counts[Cover(counts, r.id)].first;
    CountsAreTheWindowIff(counts);
  }
}
