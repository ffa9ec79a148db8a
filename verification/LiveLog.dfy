/** The cursor of a live request stream (internal/control/live.go).

A row gets its id on insert but is visible only once its batch commits, so a row can appear behind one
that was sent already. A run is the sequence of looks a stream takes, each with the clock and the rows
visible to its query; nothing is assumed of the writers, so any set of rows may be visible at any look.

The main results are `NoRowTwice` and `DeliveredIff`: no run sends a row twice, and a row is sent, once,
exactly when no full batch and no expired record had passed it by the first look that could see it.
*/
module LiveLog {

  /** In nanoseconds, as the program counts time. */
  const STREAM_SETTLE: int := 30_000_000_000

  datatype SeenID = SeenID(id: int, at: int)

  function Max(a: int, b: int): int {
    if a < b then b else a
  }

  function MaxAll(base: int, ids: seq<int>): int
    decreases ids
  {
    if ids == [] then base else MaxAll(Max(base, ids[0]), ids[1..])
  }

  /** What is left of `ids` once everything up to `settled` is dropped. */
  function Above(ids: seq<int>, settled: int): seq<int> {
    if ids == [] then []
    else if ids[0] <= settled then Above(ids[1..], settled)
    else [ids[0]] + Above(ids[1..], settled)
  }

  /** How far the records at the front of `seen` move `settled`, and the records that stay. */
  function SettleSeen(settled: int, seen: seq<SeenID>, now: int): (int, seq<SeenID>)
    decreases seen
  {
    if seen == [] || now - seen[0].at < STREAM_SETTLE then (settled, seen)
    else SettleSeen(Max(settled, seen[0].id), seen[1..], now)
  }

  datatype Cursor = Cursor(settled: int, newest: int, sent: seq<int>, seen: seq<SeenID>) {

    function Forget(): Cursor {
      this.(sent := Above(sent, settled))
    }

    function Settle(now: int): Cursor {
      var (past, left) := SettleSeen(settled, seen, now);
      this.(settled := past, seen := left).Forget()
    }

    function Took(rows: seq<int>, limit: nat, now: int): Cursor
      requires rows != []
    {
      var top := MaxAll(newest, rows);
      var t := this.(sent := sent + rows, newest := top, seen := seen + [SeenID(top, now)]);
      if |rows| >= limit then t.(settled := Max(settled, rows[|rows| - 1])).Forget() else t
    }

    /** One look: settle, query behind the cursor, record what came. */
    function Look(store: (int, seq<int>) -> seq<int>, limit: nat, now: int): (Cursor, seq<int>) {
      var behind := Settle(now);
      var rows := store(behind.settled, behind.sent);
      (if rows == [] then behind else behind.Took(rows, limit, now), rows)
    }
  }

  function NewCursor(after: int): Cursor {
    Cursor(after, after, [], [])
  }

  class LiveCursor {
    var settled: int
    var newest: int
    var sent: seq<int>
    var seen: seq<SeenID>

    function Value(): Cursor
      reads this
    {
      Cursor(settled, newest, sent, seen)
    }

    constructor (after: int)
      ensures Value() == NewCursor(after)
    {
      settled, newest, sent, seen := after, after, [], [];
    }

    method Forget()
      modifies this
      ensures Value() == old(Value()).Forget()
    {
      var kept: seq<int> := [];
      var i := 0;
      while i < |sent|
        invariant 0 <= i <= |sent|
        invariant kept + Above(sent[i..], settled) == Above(sent, settled)
        invariant Value() == old(Value())
      {
        assert sent[i..][1..] == sent[i + 1..];
        if sent[i] > settled {
          kept := kept + [sent[i]];
        }
        i := i + 1;
      }
      sent := kept;
    }

    method Settle(now: int)
      modifies this
      ensures Value() == old(Value()).Settle(now)
    {
      var n := 0;
      while n < |seen| && now - seen[n].at >= STREAM_SETTLE
        invariant 0 <= n <= |seen|
        invariant newest == old(newest) && sent == old(sent) && seen == old(seen)
        invariant SettleSeen(settled, seen[n..], now) == SettleSeen(old(settled), old(seen), now)
      {
        assert seen[n..][1..] == seen[n + 1..];
        settled := Max(settled, seen[n].id);
        n := n + 1;
      }
      seen := seen[n..];
      Forget();
    }

    method Took(rows: seq<int>, limit: nat, now: int)
      requires rows != []
      modifies this
      ensures Value() == old(Value()).Took(rows, limit, now)
    {
      var i := 0;
      while i < |rows|
        invariant 0 <= i <= |rows|
        invariant settled == old(settled) && seen == old(seen)
        invariant sent == old(sent) + rows[..i]
        invariant MaxAll(newest, rows[i..]) == MaxAll(old(newest), rows)
      {
        assert rows[i..][1..] == rows[i + 1..];
        sent := sent + [rows[i]];
        newest := Max(newest, rows[i]);
        i := i + 1;
      }
      assert rows[..i] == rows && rows[i..] == [];
      seen := seen + [SeenID(newest, now)];
      if |rows| >= limit {
        settled := Max(settled, rows[|rows| - 1]);
        Forget();
      }
    }

    /** `sendRequests` up to the counts: it settles before it queries. */
    method SendRequests(store: (int, seq<int>) -> seq<int>, limit: nat, now: int) returns (rows: seq<int>)
      modifies this
      ensures (Value(), rows) == old(Value()).Look(store, limit, now)
    {
      Settle(now);
      rows := store(settled, sent);
      if rows != [] {
        Took(rows, limit, now);
      }
    }
  }

  // The store's query: the newest `limit` visible rows past `after` that are not in `skip`. An `after`
  // of 0 sets no bound. The visible rows stand in the order of their ids.

  ghost predicate Ascending(ids: seq<int>) {
    forall i, j :: 0 <= i < j < |ids| ==> ids[i] < ids[j]
  }

  ghost predicate Descending(ids: seq<int>) {
    forall i, j :: 0 <= i < j < |ids| ==> ids[i] > ids[j]
  }

  function Candidates(visible: seq<int>, after: int, skip: seq<int>): seq<int> {
    if visible == [] then []
    else
      var n := |visible| - 1;
      Candidates(visible[..n], after, skip)
      + if (after == 0 || visible[n] > after) && visible[n] !in skip then [visible[n]] else []
  }

  function Newest(ids: seq<int>, limit: nat): seq<int> {
    if ids == [] || limit == 0 then []
    else [ids[|ids| - 1]] + Newest(ids[..|ids| - 1], limit - 1)
  }

  function Requests(visible: seq<int>, limit: nat): (int, seq<int>) -> seq<int> {
    (after: int, skip: seq<int>) => Newest(Candidates(visible, after, skip), limit)
  }

  lemma AscendingJoin(ids: seq<int>, x: int)
    requires Ascending(ids) && forall y :: y in ids ==> y < x
    ensures Ascending(ids + [x])
  {
    forall i, j | 0 <= i < j < |ids + [x]| ensures (ids + [x])[i] < (ids + [x])[j] {
      assert ids[i] in ids;
    }
  }

  lemma DescendingJoin(x: int, ids: seq<int>)
    requires Descending(ids) && forall y :: y in ids ==> y < x
    ensures Descending([x] + ids)
  {
    forall i, j | 0 <= i < j < |[x] + ids| ensures ([x] + ids)[i] > ([x] + ids)[j] {
      assert ids[j - 1] in ids;
    }
  }

  lemma {:induction false} CandidatesAre(visible: seq<int>, after: int, skip: seq<int>)
    requires Ascending(visible)
    ensures Ascending(Candidates(visible, after, skip))
    ensures forall x :: x in Candidates(visible, after, skip) <==>
              x in visible && (after == 0 || x > after) && x !in skip
  {
    if visible != [] {
      var n := |visible| - 1;
      CandidatesAre(visible[..n], after, skip);
      assert visible == visible[..n] + [visible[n]];
      AscendingJoin(Candidates(visible[..n], after, skip), visible[n]);
    }
  }

  /** The rows come newest first, and one left out is older than a full batch. */
  lemma {:induction false} NewestIsTheTop(ids: seq<int>, limit: nat)
    requires Ascending(ids)
    ensures var rows := Newest(ids, limit);
            && Descending(rows)
            && |rows| <= limit
            && (forall x :: x in rows ==> x in ids)
            && (forall x :: x in ids && x !in rows ==> |rows| == limit && (rows != [] ==> x < rows[|rows| - 1]))
  {
    if ids != [] && limit != 0 {
      var n := |ids| - 1;
      NewestIsTheTop(ids[..n], limit - 1);
      assert ids == ids[..n] + [ids[n]];
      DescendingJoin(ids[n], Newest(ids[..n], limit - 1));
    }
  }

  // Runs.

  datatype Moment = Moment(now: int, visible: seq<int>)

  /** What one look sent, and the newest id sent by its end. */
  datatype Sent = Sent(now: int, rows: seq<int>, newest: int)

  datatype Stream = Stream(cursor: Cursor, looks: seq<Sent>) {

    ghost function Next(limit: nat, m: Moment): Stream {
      var (c, rows) := cursor.Look(Requests(m.visible, limit), limit, m.now);
      Stream(c, looks + [Sent(m.now, rows, c.newest)])
    }
  }

  /** The stream after its looks at `moments`, started behind row `after`. */
  ghost function Run(after: int, limit: nat, moments: seq<Moment>): (s: Stream)
    ensures |s.looks| == |moments|
  {
    if moments == [] then Stream(NewCursor(after), [])
    else Run(after, limit, moments[..|moments| - 1]).Next(limit, moments[|moments| - 1])
  }

  /** Every id the reader got, in the order it got them. */
  ghost function Delivered(looks: seq<Sent>): seq<int> {
    if looks == [] then [] else Delivered(looks[..|looks| - 1]) + looks[|looks| - 1].rows
  }

  ghost predicate Distinct(ids: seq<int>) {
    forall i, j :: 0 <= i < j < |ids| ==> ids[i] != ids[j]
  }

  /** Row ids start at 1. */
  ghost predicate ValidMoment(m: Moment) {
    Ascending(m.visible) && forall x :: x in m.visible ==> x > 0
  }

  /** A stream starts behind a row or at the empty log. */
  ghost predicate ValidMoments(after: int, moments: seq<Moment>) {
    after >= 0 && forall i :: 0 <= i < |moments| ==> ValidMoment(moments[i])
  }

  ghost predicate ClockRuns(moments: seq<Moment>) {
    forall i, j :: 0 <= i <= j < |moments| ==> moments[i].now <= moments[j].now
  }

  lemma {:induction false} AboveKeeps(ids: seq<int>, settled: int, x: int)
    ensures x in Above(ids, settled) <==> x in ids && x > settled
  {
    if ids != [] {
      assert ids == [ids[0]] + ids[1..];
      AboveKeeps(ids[1..], settled, x);
    }
  }

  lemma {:induction false} SettleSeenGrows(settled: int, seen: seq<SeenID>, now: int)
    ensures SettleSeen(settled, seen, now).0 >= settled
    decreases seen
  {
    if seen != [] && now - seen[0].at >= STREAM_SETTLE {
      SettleSeenGrows(Max(settled, seen[0].id), seen[1..], now);
    }
  }

  lemma DeliveredAppends(looks: seq<Sent>, look: Sent)
    ensures Delivered(looks + [look]) == Delivered(looks) + look.rows
  {
    assert (looks + [look])[..|looks|] == looks;
  }

  /** Whatever was delivered is behind `settled` or still remembered. */
  ghost predicate Remembers(s: Stream) {
    && s.cursor.settled >= 0
    && (forall x :: x in Delivered(s.looks) ==> x <= s.cursor.settled || x in s.cursor.sent)
    && (forall x :: x in s.cursor.sent ==> x in Delivered(s.looks))
  }

  lemma SettleRemembers(s: Stream, now: int)
    requires Remembers(s)
    ensures Remembers(s.(cursor := s.cursor.Settle(now))) && s.cursor.settled <= s.cursor.Settle(now).settled
  {
    var c := s.cursor.Settle(now);
    SettleSeenGrows(s.cursor.settled, s.cursor.seen, now);
    forall x ensures x in c.sent <==> x in s.cursor.sent && x > c.settled {
      AboveKeeps(s.cursor.sent, c.settled, x);
    }
  }

  lemma TookRemembers(s: Stream, rows: seq<int>, limit: nat, now: int)
    requires Remembers(s) && rows != []
    ensures var c := s.cursor.Took(rows, limit, now);
            && Remembers(Stream(c, s.looks + [Sent(now, rows, c.newest)]))
            && s.cursor.settled <= c.settled
            && (|rows| >= limit ==> rows[|rows| - 1] <= c.settled)
  {
    var c := s.cursor.Took(rows, limit, now);
    DeliveredAppends(s.looks, Sent(now, rows, c.newest));
    if |rows| >= limit {
      forall x ensures x in c.sent <==> x in s.cursor.sent + rows && x > c.settled {
        AboveKeeps(s.cursor.sent + rows, c.settled, x);
      }
    }
  }

  /** One look keeps the memory, moves `settled` only forward, and sends new, visible rows past it, newest first;
  a row it could have sent and did not is older than a full batch. */
  lemma LookSends(s: Stream, limit: nat, m: Moment)
    requires Remembers(s) && ValidMoment(m)
    ensures var t, behind := s.Next(limit, m), s.cursor.Settle(m.now).settled;
            var rows := t.looks[|s.looks|].rows;
            && Remembers(t)
            && s.cursor.settled <= behind <= t.cursor.settled
            && Delivered(t.looks) == Delivered(s.looks) + rows
            && Descending(rows)
            && (forall x :: x in rows ==> x in m.visible && x > behind && x !in Delivered(s.looks))
            && (forall x :: x in m.visible && x > behind && x !in Delivered(s.looks) && x !in rows ==>
                  |rows| == limit && (rows != [] ==> x < rows[|rows| - 1] <= t.cursor.settled))
  {
    SettleRemembers(s, m.now);
    var b, t := s.(cursor := s.cursor.Settle(m.now)), s.Next(limit, m);
    var sent := t.looks[|s.looks|];
    CandidatesAre(m.visible, b.cursor.settled, b.cursor.sent);
    NewestIsTheTop(Candidates(m.visible, b.cursor.settled, b.cursor.sent), limit);
    DeliveredAppends(s.looks, sent);
    if sent.rows == [] {
      assert t.cursor == b.cursor;
    } else {
      TookRemembers(b, sent.rows, limit, m.now);
    }
  }

  lemma {:induction false} RunRemembers(after: int, limit: nat, moments: seq<Moment>)
    requires ValidMoments(after, moments)
    ensures Remembers(Run(after, limit, moments))
    decreases |moments|
  {
    if moments != [] {
      var n := |moments| - 1;
      RunRemembers(after, limit, moments[..n]);
      LookSends(Run(after, limit, moments[..n]), limit, moments[n]);
    }
  }

  /** No run sends a row twice, whatever becomes visible when and however the clock moves. */
  lemma {:induction false} NoRowTwice(after: int, limit: nat, moments: seq<Moment>)
    requires ValidMoments(after, moments)
    ensures Distinct(Delivered(Run(after, limit, moments).looks))
    decreases |moments|
  {
    if moments != [] {
      var n := |moments| - 1;
      NoRowTwice(after, limit, moments[..n]);
      RunRemembers(after, limit, moments[..n]);
      LookSends(Run(after, limit, moments[..n]), limit, moments[n]);
      DistinctJoin(Delivered(Run(after, limit, moments[..n]).looks), Run(after, limit, moments).looks[n].rows);
    }
  }

  lemma DistinctJoin(a: seq<int>, b: seq<int>)
    requires Distinct(a) && Distinct(b) && forall x :: x in b ==> x !in a
    ensures Distinct(a + b)
  {
    forall i, j | 0 <= i < j < |a + b| ensures (a + b)[i] != (a + b)[j] {
      if i < |a| <= j {
        assert (a + b)[i] in a && (a + b)[j] in b;
      }
    }
  }

  // When a row is sent.

  /** Look `i` recorded an id at `x` or past it, and by `now` that record is as old as late commits may be. */
  ghost predicate Expired(looks: seq<Sent>, i: nat, x: int, now: int) {
    i < |looks| && looks[i].rows != [] && looks[i].newest >= x && now - looks[i].now >= STREAM_SETTLE
  }

  /** Look `i` sent a full batch that ends at `x` or later. */
  ghost predicate Crowded(limit: nat, looks: seq<Sent>, i: nat, x: int) {
    i < |looks| && |looks[i].rows| > 0 && |looks[i].rows| >= limit && looks[i].rows[|looks[i].rows| - 1] >= x
  }

  ghost predicate Passed(after: int, limit: nat, looks: seq<Sent>, x: int, now: int) {
    || after >= x
    || (exists i: nat :: Crowded(limit, looks, i, x))
    || (exists i: nat :: Expired(looks, i, x, now))
  }

  ghost predicate InOrder(seen: seq<SeenID>) {
    forall i, j :: 0 <= i < j < |seen| ==> seen[i].at <= seen[j].at
  }

  /** With records in order, settling drops the expired ones, all of them, and takes the highest. */
  lemma {:induction false} SettleSeenTakesTheExpired(settled: int, seen: seq<SeenID>, now: int)
    requires InOrder(seen)
    ensures var (past, left) := SettleSeen(settled, seen, now);
            && past >= settled
            && (past == settled || exists e :: e in seen && e.id == past && now - e.at >= STREAM_SETTLE)
            && (forall e :: e in seen ==> e in left || (now - e.at >= STREAM_SETTLE && e.id <= past))
            && (forall e :: e in left ==> e in seen && now - e.at < STREAM_SETTLE)
            && InOrder(left)
    decreases seen
  {
    if seen != [] && now - seen[0].at >= STREAM_SETTLE {
      assert seen == [seen[0]] + seen[1..];
      SettleSeenTakesTheExpired(Max(settled, seen[0].id), seen[1..], now);
    }
  }

  ghost predicate Recorded(looks: seq<Sent>, i: nat, e: SeenID) {
    i < |looks| && looks[i].rows != [] && e == SeenID(looks[i].newest, looks[i].now)
  }

  /** The records a cursor still holds at `now`, told by what the looks sent. */
  ghost predicate ExplainsSeen(s: Stream, now: int) {
    && InOrder(s.cursor.seen)
    && (forall e :: e in s.cursor.seen ==> e.at <= now && exists i: nat :: Recorded(s.looks, i, e))
    && (forall i: nat, e :: Recorded(s.looks, i, e) ==> e in s.cursor.seen || e.id <= s.cursor.settled)
  }

  /** Where `settled` is at `now`, told by what the looks sent. */
  ghost predicate ExplainsSettled(after: int, limit: nat, s: Stream, now: int) {
    && after <= s.cursor.settled
    && Passed(after, limit, s.looks, s.cursor.settled, now)
    && (forall i: nat, x :: Crowded(limit, s.looks, i, x) ==> x <= s.cursor.settled)
  }

  /** Settling later keeps both, and puts `settled` exactly at what the looks passed by then. */
  lemma SettleExplains(after: int, limit: nat, s: Stream, then_: int, now: int)
    requires then_ <= now && ExplainsSeen(s, then_) && ExplainsSettled(after, limit, s, then_)
    ensures var t := s.(cursor := s.cursor.Settle(now));
            && ExplainsSeen(t, now)
            && ExplainsSettled(after, limit, t, now)
            && (forall x :: t.cursor.settled >= x <==> Passed(after, limit, t.looks, x, now))
  {
    SettleSeenTakesTheExpired(s.cursor.settled, s.cursor.seen, now);
    var d := s.cursor.Settle(now);
    if d.settled == s.cursor.settled {
      if i: nat :| Expired(s.looks, i, d.settled, then_) {
        assert Expired(s.looks, i, d.settled, now);
      }
    } else {
      var e :| e in s.cursor.seen && e.id == d.settled && now - e.at >= STREAM_SETTLE;
      var i: nat :| Recorded(s.looks, i, e);
      assert Expired(s.looks, i, d.settled, now);
    }
    forall x ensures d.settled >= x <==> Passed(after, limit, s.looks, x, now) {
      if d.settled >= x {
        if i: nat :| Crowded(limit, s.looks, i, d.settled) {
          assert Crowded(limit, s.looks, i, x);
        } else if i: nat :| Expired(s.looks, i, d.settled, now) {
          assert Expired(s.looks, i, x, now);
        }
      }
      if i: nat :| Expired(s.looks, i, x, now) {
        assert Recorded(s.looks, i, SeenID(s.looks[i].newest, s.looks[i].now));
      }
    }
  }

  lemma TookKeepsSeen(s: Stream, rows: seq<int>, limit: nat, now: int)
    requires ExplainsSeen(s, now) && rows != []
    ensures var c := s.cursor.Took(rows, limit, now);
            ExplainsSeen(Stream(c, s.looks + [Sent(now, rows, c.newest)]), now)
  {
    var c := s.cursor.Took(rows, limit, now);
    var n, looks := |s.looks|, s.looks + [Sent(now, rows, c.newest)];
    assert Recorded(looks, n, SeenID(c.newest, now));
    forall e | e in c.seen ensures e.at <= now && exists i: nat :: Recorded(looks, i, e) {
      if e in s.cursor.seen {
        var i: nat :| Recorded(s.looks, i, e);
        assert Recorded(looks, i, e);
      }
    }
    forall i: nat, e | Recorded(looks, i, e) ensures e in c.seen || e.id <= c.settled {
      if i < n { assert Recorded(s.looks, i, e); }
    }
  }

  lemma EmptyLookKeepsSeen(s: Stream, now: int)
    requires ExplainsSeen(s, now)
    ensures ExplainsSeen(s.(looks := s.looks + [Sent(now, [], s.cursor.newest)]), now)
  {
    var looks := s.looks + [Sent(now, [], s.cursor.newest)];
    forall e | e in s.cursor.seen ensures exists i: nat :: Recorded(looks, i, e) {
      var i: nat :| Recorded(s.looks, i, e);
      assert Recorded(looks, i, e);
    }
    forall i: nat, e | Recorded(looks, i, e) ensures e in s.cursor.seen || e.id <= s.cursor.settled {
      assert Recorded(s.looks, i, e);
    }
  }

  /** `settled` moves with a full batch, and only then. */
  lemma SentKeepsSettled(after: int, limit: nat, s: Stream, sent: Sent, c: Cursor)
    requires ExplainsSettled(after, limit, s, sent.now)
    requires c.settled == if |sent.rows| > 0 && |sent.rows| >= limit then Max(s.cursor.settled, sent.rows[|sent.rows| - 1]) else s.cursor.settled
    ensures ExplainsSettled(after, limit, Stream(c, s.looks + [sent]), sent.now)
  {
    var n, looks := |s.looks|, s.looks + [sent];
    if c.settled != s.cursor.settled {
      assert Crowded(limit, looks, n, c.settled);
    } else if i: nat :| Crowded(limit, s.looks, i, c.settled) {
      assert Crowded(limit, looks, i, c.settled);
    } else if i: nat :| Expired(s.looks, i, c.settled, sent.now) {
      assert Expired(looks, i, c.settled, sent.now);
    }
    forall i: nat, x | Crowded(limit, looks, i, x) ensures x <= c.settled {
      if i < n { assert Crowded(limit, s.looks, i, x); }
    }
  }

  /** A look keeps both. */
  lemma LookExplains(after: int, limit: nat, s: Stream, then_: int, m: Moment)
    requires then_ <= m.now && ExplainsSeen(s, then_) && ExplainsSettled(after, limit, s, then_)
    ensures ExplainsSeen(s.Next(limit, m), m.now) && ExplainsSettled(after, limit, s.Next(limit, m), m.now)
  {
    SettleExplains(after, limit, s, then_, m.now);
    var b, t := s.(cursor := s.cursor.Settle(m.now)), s.Next(limit, m);
    var sent := t.looks[|s.looks|];
    if sent.rows == [] {
      EmptyLookKeepsSeen(b, m.now);
    } else {
      TookKeepsSeen(b, sent.rows, limit, m.now);
    }
    SentKeepsSettled(after, limit, b, sent, t.cursor);
  }

  lemma {:induction false} RunExplains(after: int, limit: nat, moments: seq<Moment>, now: int)
    requires ClockRuns(moments) && (moments != [] ==> now == moments[|moments| - 1].now)
    ensures ExplainsSeen(Run(after, limit, moments), now) && ExplainsSettled(after, limit, Run(after, limit, moments), now)
    decreases |moments|
  {
    if moments != [] {
      var n := |moments| - 1;
      var then_ := if n == 0 then now else moments[n - 1].now;
      RunExplains(after, limit, moments[..n], then_);
      LookExplains(after, limit, Run(after, limit, moments[..n]), then_, moments[n]);
    }
  }

  /** The newest id of a look is the newest one sent until then, or where the stream started. */
  lemma {:induction false} NewestIsTheNewestSent(after: int, limit: nat, moments: seq<Moment>)
    ensures Run(after, limit, moments).cursor.newest == MaxAll(after, Delivered(Run(after, limit, moments).looks))
    decreases |moments|
  {
    if moments != [] {
      var n := |moments| - 1;
      NewestIsTheNewestSent(after, limit, moments[..n]);
      NewestIsNext(after, Run(after, limit, moments[..n]), limit, moments[n]);
    }
  }

  lemma NewestIsNext(after: int, s: Stream, limit: nat, m: Moment)
    requires s.cursor.newest == MaxAll(after, Delivered(s.looks))
    ensures s.Next(limit, m).cursor.newest == MaxAll(after, Delivered(s.Next(limit, m).looks))
  {
    var sent := s.Next(limit, m).looks[|s.looks|];
    DeliveredAppends(s.looks, sent);
    MaxAllAppends(after, Delivered(s.looks), sent.rows);
  }

  lemma {:induction false} MaxAllIsTheGreatest(base: int, ids: seq<int>)
    ensures base <= MaxAll(base, ids) && forall x :: x in ids ==> x <= MaxAll(base, ids)
    ensures MaxAll(base, ids) == base || MaxAll(base, ids) in ids
    decreases ids
  {
    if ids != [] {
      assert ids == [ids[0]] + ids[1..];
      MaxAllIsTheGreatest(Max(base, ids[0]), ids[1..]);
    }
  }

  /** The id to resume from is not behind any id that was delivered, and is one of them or where the stream started. */
  lemma NewestIsTheGreatest(after: int, limit: nat, moments: seq<Moment>)
    ensures var s := Run(after, limit, moments);
            IsGreatest(s.cursor.newest, after, Delivered(s.looks))
  {
    NewestIsTheNewestSent(after, limit, moments);
    MaxAllIsTheGreatest(after, Delivered(Run(after, limit, moments).looks));
  }

  ghost predicate IsGreatest(newest: int, after: int, sent: seq<int>) {
    after <= newest && (forall x :: x in sent ==> x <= newest) && (newest == after || newest in sent)
  }

  /** So is the id that a look records, of what was delivered by then; that look's own rows are among those. */
  lemma LookRecordsTheGreatest(after: int, limit: nat, moments: seq<Moment>, i: nat)
    requires ValidMoments(after, moments) && i < |moments|
    ensures var looks := Run(after, limit, moments).looks;
            && IsGreatest(looks[i].newest, after, Delivered(looks[..i + 1]))
            && Delivered(looks[..i + 1]) == Delivered(looks[..i]) + looks[i].rows
  {
    NewestIsTheGreatest(after, limit, moments[..i + 1]);
    LooksExtend(after, limit, moments, i + 1);
    LookKeeps(after, limit, moments, i);
    LastOfPrefix(Run(after, limit, moments).looks, i);
  }

  lemma LastOfPrefix(looks: seq<Sent>, i: nat)
    requires i < |looks|
    ensures Delivered(looks[..i + 1]) == Delivered(looks[..i]) + looks[i].rows
  {
    assert looks[..i + 1] == looks[..i] + [looks[i]];
    DeliveredAppends(looks[..i], looks[i]);
  }

  lemma {:induction false} MaxAllAppends(base: int, a: seq<int>, b: seq<int>)
    ensures MaxAll(base, a + b) == MaxAll(MaxAll(base, a), b)
    decreases a
  {
    if a == [] {
      assert a + b == b;
    } else {
      assert (a + b)[1..] == a[1..] + b;
      MaxAllAppends(Max(base, a[0]), a[1..], b);
    }
  }

  /** A longer run begins as the shorter one did. */
  lemma {:induction false} LooksExtend(after: int, limit: nat, moments: seq<Moment>, k: nat)
    requires k <= |moments|
    ensures Run(after, limit, moments).looks[..k] == Run(after, limit, moments[..k]).looks
    decreases |moments|
  {
    if k == |moments| {
      assert moments[..k] == moments;
    } else {
      var n := |moments| - 1;
      assert moments[..n][..k] == moments[..k];
      LooksExtend(after, limit, moments[..n], k);
    }
  }

  /** What was sent stays sent, and a row that `settled` passed unsent stays unsent. */
  ghost predicate Extends(t: Stream, s: Stream, r: int) {
    && s.cursor.settled <= t.cursor.settled
    && (r in Delivered(s.looks) ==> r in Delivered(t.looks))
    && (r !in Delivered(s.looks) && s.cursor.settled >= r ==> r !in Delivered(t.looks))
  }

  lemma NextExtends(s: Stream, limit: nat, m: Moment, r: int)
    requires Remembers(s) && ValidMoment(m)
    ensures Extends(s.Next(limit, m), s, r)
  {
    LookSends(s, limit, m);
  }

  lemma ExtendsAll(t: Stream, u: Stream, s: Stream, r: int)
    requires Extends(t, u, r) && Extends(u, s, r)
    ensures Extends(t, s, r)
  {}

  lemma {:induction false} RunExtends(after: int, limit: nat, moments: seq<Moment>, k: nat, r: int)
    requires ValidMoments(after, moments) && k <= |moments|
    ensures Extends(Run(after, limit, moments), Run(after, limit, moments[..k]), r)
    decreases |moments|
  {
    if k == |moments| {
      assert moments[..k] == moments;
    } else {
      var n := |moments| - 1;
      assert moments[..n][..k] == moments[..k];
      var u := Run(after, limit, moments[..n]);
      RunExtends(after, limit, moments[..n], k, r);
      RunRemembers(after, limit, moments[..n]);
      NextExtends(u, limit, moments[n], r);
      ExtendsAll(u.Next(limit, moments[n]), u, Run(after, limit, moments[..k]), r);
    }
  }

  /** Only rows visible at some look are sent. */
  lemma {:induction false} OnlyVisibleRows(after: int, limit: nat, moments: seq<Moment>, r: int)
    requires ValidMoments(after, moments)
    requires forall i :: 0 <= i < |moments| ==> r !in moments[i].visible
    ensures r !in Delivered(Run(after, limit, moments).looks)
    ensures forall i :: 0 <= i < |moments| ==> r !in Run(after, limit, moments).looks[i].rows
    decreases |moments|
  {
    if moments != [] {
      var n := |moments| - 1;
      OnlyVisibleRows(after, limit, moments[..n], r);
      RunRemembers(after, limit, moments[..n]);
      LookSends(Run(after, limit, moments[..n]), limit, moments[n]);
    }
  }

  /** Why row `r`, first visible at look `first`, is not sent: a full batch up to that look ends past it without
  it, or an earlier look recorded an id at or past it too long before that look. */
  ghost predicate Missed(limit: nat, looks: seq<Sent>, first: nat, r: int)
    requires first < |looks|
  {
    || (exists i: nat :: i <= first && Crowded(limit, looks, i, r) && r !in looks[i].rows)
    || (exists i: nat :: i < first && Expired(looks, i, r, looks[first].now))
  }

  /** Looks beyond `k` change nothing that is said of those before it. */
  lemma EarlierLooksStand(limit: nat, looks: seq<Sent>, k: nat, r: int, now: int)
    requires k <= |looks|
    ensures forall i: nat :: i < k ==> Crowded(limit, looks, i, r) == Crowded(limit, looks[..k], i, r)
    ensures forall i: nat :: i < k ==> Expired(looks, i, r, now) == Expired(looks[..k], i, r, now)
  {}

  lemma MissedStands(limit: nat, looks: seq<Sent>, first: nat, r: int)
    requires first < |looks|
    ensures Missed(limit, looks, first, r) <==> Missed(limit, looks[..first + 1], first, r)
  {
    EarlierLooksStand(limit, looks, first + 1, r, looks[first].now);
  }

  /** For a row no earlier look sent, being missed is having been passed before the query, or crowded out by it. */
  lemma MissedBeforeOrAt(after: int, limit: nat, looks: seq<Sent>, first: nat, r: int)
    requires first + 1 == |looks| && r > after
    requires forall i :: 0 <= i < first ==> r !in looks[i].rows
    ensures Missed(limit, looks, first, r) <==>
            || Passed(after, limit, looks[..first], r, looks[first].now)
            || (Crowded(limit, looks, first, r) && r !in looks[first].rows)
  {
    var now := looks[first].now;
    EarlierLooksStand(limit, looks, first, r, now);
    if i: nat :| Crowded(limit, looks[..first], i, r) {
      assert Crowded(limit, looks, i, r);
    }
    if i: nat :| Expired(looks[..first], i, r, now) {
      assert Expired(looks, i, r, now);
    }
  }

  /** The first look that can see a row sends it, or `settled` has passed the row by the end of that look. */
  lemma FirstLook(after: int, limit: nat, moments: seq<Moment>, first: nat, r: int)
    requires limit > 0 && ValidMoments(after, moments) && ClockRuns(moments)
    requires first + 1 == |moments| && r > after && r in moments[first].visible
    requires forall i :: 0 <= i < first ==> r !in moments[i].visible
    ensures var s := Run(after, limit, moments);
            && (r in Delivered(s.looks) <==> !Missed(limit, s.looks, first, r))
            && (r !in Delivered(s.looks) ==> s.cursor.settled >= r)
  {
    var before, m := Run(after, limit, moments[..first]), moments[first];
    var looks := Run(after, limit, moments).looks;
    assert looks[..first] == before.looks;
    OnlyVisibleRows(after, limit, moments[..first], r);
    MissedBeforeOrAt(after, limit, looks, first, r);
    assert before.cursor.Settle(m.now).settled >= r <==> Passed(after, limit, before.looks, r, m.now) by {
      var then_ := if first == 0 then m.now else moments[first - 1].now;
      RunExplains(after, limit, moments[..first], then_);
      SettleExplains(after, limit, before, then_, m.now);
    }
    RunRemembers(after, limit, moments[..first]);
    LookSends(before, limit, m);
  }

  lemma {:induction false} DistinctCount(ids: seq<int>, x: int)
    requires Distinct(ids)
    ensures multiset(ids)[x] == if x in ids then 1 else 0
  {
    if ids != [] {
      assert ids == [ids[0]] + ids[1..];
      assert forall i :: 0 <= i < |ids[1..]| ==> ids[1..][i] == ids[i + 1];
      DistinctCount(ids[1..], x);
    }
  }

  /** Over a whole run, a row is sent exactly once, or not at all, and not at all exactly when it was missed. */
  lemma DeliveredIff(after: int, limit: nat, moments: seq<Moment>, first: nat, r: int)
    requires limit > 0 && ValidMoments(after, moments) && ClockRuns(moments)
    requires first < |moments| && r > after && r in moments[first].visible
    requires forall i :: 0 <= i < first ==> r !in moments[i].visible
    ensures var looks := Run(after, limit, moments).looks;
            multiset(Delivered(looks))[r] == if Missed(limit, looks, first, r) then 0 else 1
  {
    var k := first + 1;
    var s, t := Run(after, limit, moments[..k]).looks, Run(after, limit, moments).looks;
    FirstLook(after, limit, moments[..k], first, r);
    LooksExtend(after, limit, moments, k);
    RunExtends(after, limit, moments, k, r);
    MissedStands(limit, t, first, r);
    NoRowTwice(after, limit, moments);
    DistinctCount(Delivered(t), r);
  }

  // The timing the settling relies on.

  /** The newest id sent is where the stream started, or was visible at some look. */
  lemma {:induction false} NewestWasVisible(after: int, limit: nat, moments: seq<Moment>)
    requires ValidMoments(after, moments)
    ensures var newest := Run(after, limit, moments).cursor.newest;
            newest == after || exists j: nat :: j < |moments| && newest in moments[j].visible
    decreases |moments|
  {
    if moments != [] {
      var n := |moments| - 1;
      NewestWasVisible(after, limit, moments[..n]);
      RunRemembers(after, limit, moments[..n]);
      var before, t := Run(after, limit, moments[..n]), Run(after, limit, moments);
      LookSends(before, limit, moments[n]);
      MaxAllIsTheGreatest(before.cursor.newest, t.looks[n].rows);
      if t.cursor.newest in t.looks[n].rows {
        assert t.cursor.newest in moments[n].visible;
      } else if j: nat :| j < n && t.cursor.newest in moments[..n][j].visible {
        assert t.cursor.newest in moments[j].visible;
      }
    }
  }

  /** A look keeps the clock it was taken at, and the newest id as of it. */
  lemma LookKeeps(after: int, limit: nat, moments: seq<Moment>, i: nat)
    requires ValidMoments(after, moments) && i < |moments|
    ensures var look := Run(after, limit, moments).looks[i];
            look.now == moments[i].now && look.newest == Run(after, limit, moments[..i + 1]).cursor.newest
  {
    LooksExtend(after, limit, moments, i + 1);
    var s := Run(after, limit, moments[..i + 1]);
    assert Run(after, limit, moments).looks[i] == s.looks[i];
  }

  /** Ids are given in time order, and a look sees only rows committed by the time its query ran, which is at most
  `query` after the look began. */
  ghost predicate WrittenInOrder(moments: seq<Moment>, given: int -> int, committed: int -> int, query: int) {
    && (forall x, y {:trigger given(x), given(y)} :: x <= y ==> given(x) <= given(y))
    && (forall x {:trigger committed(x)} :: given(x) <= committed(x))
    && (forall i, x :: 0 <= i < |moments| && x in moments[i].visible ==> committed(x) <= moments[i].now + query)
  }

  /** Nothing can still appear behind `settled`: when rows are written within the settling time, every row past the start
  that `settled` has reached is committed, unless a full batch passed it. */
  lemma SettledIsCommitted(after: int, limit: nat, moments: seq<Moment>, r: int,
                           given: int -> int, committed: int -> int, write: int, query: int)
    requires moments != [] && ValidMoments(after, moments) && ClockRuns(moments)
    requires WrittenInOrder(moments, given, committed, query)
    requires committed(r) <= given(r) + write && write + query < STREAM_SETTLE
    requires after < r <= Run(after, limit, moments).cursor.settled
    requires forall i: nat :: !Crowded(limit, Run(after, limit, moments).looks, i, r)
    ensures committed(r) < moments[|moments| - 1].now
  {
    var s, now := Run(after, limit, moments), moments[|moments| - 1].now;
    RunExplains(after, limit, moments, now);
    if i: nat :| Crowded(limit, s.looks, i, s.cursor.settled) {
      assert Crowded(limit, s.looks, i, r);
    }
    var i: nat :| Expired(s.looks, i, s.cursor.settled, now);
    LookKeeps(after, limit, moments, i);
    NewestIsGivenBefore(after, limit, moments, i, r, given, committed, query);
  }

  /** An id past the start that a look has reached was given by the time of its query. */
  lemma NewestIsGivenBefore(after: int, limit: nat, moments: seq<Moment>, i: nat, r: int,
                            given: int -> int, committed: int -> int, query: int)
    requires ValidMoments(after, moments) && ClockRuns(moments) && i < |moments| && r > after
    requires WrittenInOrder(moments, given, committed, query)
    requires Run(after, limit, moments[..i + 1]).cursor.newest >= r
    ensures given(r) <= moments[i].now + query
  {
    NewestWasVisible(after, limit, moments[..i + 1]);
    var newest := Run(after, limit, moments[..i + 1]).cursor.newest;
    var j: nat :| j < i + 1 && newest in moments[..i + 1][j].visible;
    assert moments[..i + 1][j] == moments[j];
    assert given(r) <= given(newest) <= committed(newest) <= moments[j].now + query;
  }

  /** A row committed at most `write` after it got its id, and first looked at at most `wait` after it committed, is sent
  once, unless a full batch passed it, whenever the three delays together stay below `STREAM_SETTLE`. */
  lemma TimelyRowIsSent(after: int, limit: nat, moments: seq<Moment>, first: nat, r: int,
                        given: int -> int, committed: int -> int, write: int, query: int, wait: int)
    requires limit > 0 && ValidMoments(after, moments) && ClockRuns(moments)
    requires first < |moments| && r > after && r in moments[first].visible
    requires forall i :: 0 <= i < first ==> r !in moments[i].visible
    requires WrittenInOrder(moments, given, committed, query)
    requires committed(r) <= given(r) + write && moments[first].now <= committed(r) + wait
    requires write + query + wait < STREAM_SETTLE
    ensures var looks := Run(after, limit, moments).looks;
            multiset(Delivered(looks))[r] ==
              if exists i: nat :: i <= first && Crowded(limit, looks, i, r) && r !in looks[i].rows then 0 else 1
  {
    NoneExpired(after, limit, moments, first, r, given, committed, write, query, wait);
    MissedIsCrowded(limit, Run(after, limit, moments).looks, first, r);
    DeliveredIff(after, limit, moments, first, r);
  }

  ghost predicate ExpiredBefore(looks: seq<Sent>, first: nat, r: int)
    requires first < |looks|
  {
    exists i: nat :: i < first && Expired(looks, i, r, looks[first].now)
  }

  lemma MissedIsCrowded(limit: nat, looks: seq<Sent>, first: nat, r: int)
    requires first < |looks| && !ExpiredBefore(looks, first, r)
    ensures Missed(limit, looks, first, r) <==> exists i: nat :: i <= first && Crowded(limit, looks, i, r) && r !in looks[i].rows
  {}

  lemma NoneExpired(after: int, limit: nat, moments: seq<Moment>, first: nat, r: int,
                    given: int -> int, committed: int -> int, write: int, query: int, wait: int)
    requires ValidMoments(after, moments) && ClockRuns(moments) && first < |moments| && r > after
    requires WrittenInOrder(moments, given, committed, query)
    requires committed(r) <= given(r) + write && moments[first].now <= committed(r) + wait
    requires write + query + wait < STREAM_SETTLE
    ensures !ExpiredBefore(Run(after, limit, moments).looks, first, r)
  {
    var looks := Run(after, limit, moments).looks;
    LookKeeps(after, limit, moments, first);
    forall i: nat | i < first ensures !Expired(looks, i, r, looks[first].now) {
      TimelyNotExpired(after, limit, moments, i, first, r, given, committed, write, query, wait);
    }
  }

  lemma TimelyNotExpired(after: int, limit: nat, moments: seq<Moment>, i: nat, first: nat, r: int,
                         given: int -> int, committed: int -> int, write: int, query: int, wait: int)
    requires ValidMoments(after, moments) && ClockRuns(moments) && i < first < |moments| && r > after
    requires WrittenInOrder(moments, given, committed, query)
    requires committed(r) <= given(r) + write && moments[first].now <= committed(r) + wait
    requires write + query + wait < STREAM_SETTLE
    ensures !Expired(Run(after, limit, moments).looks, i, r, moments[first].now)
  {
    LookKeeps(after, limit, moments, i);
    if Run(after, limit, moments[..i + 1]).cursor.newest >= r {
      NewestIsGivenBefore(after, limit, moments, i, r, given, committed, query);
    }
  }

  /** The bound is tight: a row first looked at `STREAM_SETTLE` after a newer one was recorded is never sent, though the
  look that could have sent it is the one that settles past it. */
  lemma LateRowIsLost(after: int, limit: nat, r: int, newer: int)
    requires limit > 0 && 0 <= after < r < newer
    ensures var moments := [Moment(0, [newer]), Moment(STREAM_SETTLE, [r, newer])];
            && ValidMoments(after, moments) && ClockRuns(moments)
            && r !in Delivered(Run(after, limit, moments).looks)
            && newer in Delivered(Run(after, limit, moments).looks)
  {
    var moments := [Moment(0, [newer]), Moment(STREAM_SETTLE, [r, newer])];
    LateMoments(after, r, newer);
    FirstBatch(after, limit, newer);
    ExpiredIsLost(after, limit, moments, 0, 1, r);
    RunExtends(after, limit, moments, 1, newer);
  }

  lemma LateMoments(after: int, r: int, newer: int)
    requires 0 <= after < r < newer
    ensures var moments := [Moment(0, [newer]), Moment(STREAM_SETTLE, [r, newer])];
            && ValidMoments(after, moments) && ClockRuns(moments) && moments[..1] == [Moment(0, [newer])]
            && r in moments[1].visible && forall k :: 0 <= k < 1 ==> r !in moments[k].visible
  {}

  lemma ExpiredIsLost(after: int, limit: nat, moments: seq<Moment>, i: nat, first: nat, r: int)
    requires limit > 0 && ValidMoments(after, moments) && ClockRuns(moments)
    requires i < first < |moments| && r > after && r in moments[first].visible
    requires forall k :: 0 <= k < first ==> r !in moments[k].visible
    requires Run(after, limit, moments[..i + 1]).looks[i].rows != [] && Run(after, limit, moments[..i + 1]).cursor.newest >= r
    requires moments[first].now - moments[i].now >= STREAM_SETTLE
    ensures r !in Delivered(Run(after, limit, moments).looks)
  {
    var looks := Run(after, limit, moments).looks;
    RecordExpires(after, limit, moments, i, first, r);
    assert Missed(limit, looks, first, r);
    DeliveredIff(after, limit, moments, first, r);
    assert multiset(Delivered(looks))[r] == 0;
  }

  lemma RecordExpires(after: int, limit: nat, moments: seq<Moment>, i: nat, first: nat, r: int)
    requires ValidMoments(after, moments) && i < first < |moments|
    requires Run(after, limit, moments[..i + 1]).looks[i].rows != [] && Run(after, limit, moments[..i + 1]).cursor.newest >= r
    requires moments[first].now - moments[i].now >= STREAM_SETTLE
    ensures Expired(Run(after, limit, moments).looks, i, r, Run(after, limit, moments).looks[first].now)
  {
    LookKeeps(after, limit, moments, i);
    LookKeeps(after, limit, moments, first);
    SameLook(after, limit, moments, i);
  }

  lemma SameLook(after: int, limit: nat, moments: seq<Moment>, i: nat)
    requires i < |moments|
    ensures Run(after, limit, moments).looks[i] == Run(after, limit, moments[..i + 1]).looks[i]
  {
    LooksExtend(after, limit, moments, i + 1);
    assert Run(after, limit, moments).looks[..i + 1][i] == Run(after, limit, moments).looks[i];
  }

  lemma FirstBatch(after: int, limit: nat, n: int)
    requires limit > 0 && 0 <= after < n
    ensures var s := Run(after, limit, [Moment(0, [n])]);
            s.looks[0].rows == [n] && s.cursor.newest == n && n in Delivered(s.looks)
  {
    var s0, m := Stream(NewCursor(after), []), Moment(0, [n]);
    RunOnce(after, limit, m);
    NewestOfOne(after, limit, n);
    MaxAllAppends(after, [], [n]);
    DeliveredAppends([], s0.Next(limit, m).looks[0]);
  }

  lemma RunOnce(after: int, limit: nat, m: Moment)
    ensures Run(after, limit, [m]) == Stream(NewCursor(after), []).Next(limit, m)
  {
    assert [m][..0] == [];
  }

  lemma NewestOfOne(after: int, limit: nat, n: int)
    requires limit > 0 && 0 <= after < n
    ensures Requests([n], limit)(after, []) == [n] && MaxAll(after, [n]) == n
  {
    assert [n][..0] == [] && [n][1..] == [];
    assert Candidates([n], after, []) == Candidates([], after, []) + [n];
    assert Newest([n], limit) == [n] + Newest([], limit - 1);
    assert MaxAll(after, [n]) == MaxAll(n, []);
  }
}
