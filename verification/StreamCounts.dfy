/** The counts of a stream's own cursor (`sendRequests` and `countOutcomes`, internal/control/live.go).

A stream counts after every look that sent something, up to where its cursor has settled. `StreamCountsIff` says that
rows past the start which no full batch passed never make the counts differ from one count of the window; only the others
can, and `Miscounts` shows that they do.
*/
module StreamCounts {
  import opened Text
  import L = LiveLog
  import O = OutcomeCounts

  /** What the two count queries after a look can see, the clock they go by, and where the window starts. */
  datatype Log = Log(first: set<O.Row>, second: set<O.Row>, now: int, from: Option<int>)

  /** The counts of the first `n` looks; one that sent nothing counts nothing. */
  ghost function Counts(after: int, limit: nat, moments: seq<L.Moment>, logs: seq<Log>, n: nat): seq<O.Count>
    requires n <= |moments| == |logs|
  {
    if n == 0 then []
    else
      var s, log := L.Run(after, limit, moments[..n]), logs[n - 1];
      Counts(after, limit, moments, logs, n - 1)
      + if s.looks[n - 1].rows == [] then [] else [O.Count(log.first, log.second, s.cursor.settled, log.now, log.from)]
  }

  /** Logs grow, row ids start at 1, and whoever looks sees what was committed before. */
  ghost predicate ValidLogs(moments: seq<L.Moment>, logs: seq<Log>, committed: int -> int) {
    && |moments| == |logs|
    && (forall i, r :: 0 <= i < |logs| && r in logs[i].second ==> r.id > 0)
    && (forall i :: 0 <= i < |logs| ==> logs[i].first <= logs[i].second)
    && (forall i, j :: 0 <= i < j < |logs| ==> logs[i].second <= logs[j].first)
    && (forall i, j, r :: 0 <= i <= j < |logs| && r in logs[j].second && committed(r.id) < moments[i].now ==> r in logs[i].first)
  }

  ghost predicate IsCountOf(c: O.Count, s: L.Stream, log: Log) {
    c == O.Count(log.first, log.second, s.cursor.settled, log.now, log.from)
  }

  /** Count `k` is that of a look. */
  lemma {:induction false} CountIsOfALook(after: int, limit: nat, moments: seq<L.Moment>, logs: seq<Log>, n: nat, k: nat)
    returns (m: nat)
    requires n <= |moments| == |logs| && k < |Counts(after, limit, moments, logs, n)|
    ensures 0 < m <= n
    ensures IsCountOf(Counts(after, limit, moments, logs, n)[k], L.Run(after, limit, moments[..m]), logs[m - 1])
  {
    m := n;
    if k < |Counts(after, limit, moments, logs, n - 1)| {
      m := CountIsOfALook(after, limit, moments, logs, n - 1, k);
    }
  }

  lemma ValidPrefix(after: int, moments: seq<L.Moment>, n: nat)
    requires L.ValidMoments(after, moments) && n <= |moments|
    ensures L.ValidMoments(after, moments[..n])
  {}

  lemma SettledGrows(after: int, limit: nat, moments: seq<L.Moment>, n: nat)
    requires L.ValidMoments(after, moments) && 0 < n <= |moments|
    ensures 0 <= L.Run(after, limit, moments[..n - 1]).cursor.settled <= L.Run(after, limit, moments[..n]).cursor.settled
  {
    ValidPrefix(after, moments, n);
    ValidPrefix(after, moments, n - 1);
    L.RunExtends(after, limit, moments[..n], n - 1, 0);
    assert moments[..n][..n - 1] == moments[..n - 1];
    L.RunRemembers(after, limit, moments[..n - 1]);
  }

  /** What earlier counts saw and where they stood is behind look `n`. */
  ghost predicate Behind(counts: seq<O.Count>, settled: int, log: set<O.Row>) {
    forall k :: 0 <= k < |counts| ==> counts[k].settled <= settled && counts[k].second <= log
  }

  lemma {:induction false} CountsAreValid(after: int, limit: nat, moments: seq<L.Moment>, logs: seq<Log>, committed: int -> int, n: nat)
    requires L.ValidMoments(after, moments) && ValidLogs(moments, logs, committed) && 0 < n <= |moments|
    ensures var counts := Counts(after, limit, moments, logs, n);
            && O.Valid(counts) && O.Grows(counts)
            && Behind(counts, L.Run(after, limit, moments[..n]).cursor.settled, logs[n - 1].second)
  {
    SettledGrows(after, limit, moments, n);
    var earlier := Counts(after, limit, moments, logs, n - 1);
    if n > 1 {
      CountsAreValid(after, limit, moments, logs, committed, n - 1);
      assert logs[n - 2].second <= logs[n - 1].first;
    }
    var s, log := L.Run(after, limit, moments[..n]), logs[n - 1];
    var c := O.Count(log.first, log.second, s.cursor.settled, log.now, log.from);
    assert Behind(earlier, c.settled, c.first);
    forall r | r in c.first || r in c.second ensures r.id > 0 { assert r in logs[n - 1].second; }
    CountMore(earlier, c);
  }

  lemma CountMore(earlier: seq<O.Count>, c: O.Count)
    requires O.Valid(earlier) && O.Grows(earlier) && Behind(earlier, c.settled, c.first)
    requires c.settled >= 0 && c.first <= c.second && forall r :: r in c.first || r in c.second ==> r.id > 0
    ensures O.Valid(earlier + [c]) && O.Grows(earlier + [c])
    ensures Behind(earlier, c.settled, c.second) && Behind(earlier + [c], c.settled, c.second)
  {
    forall k | 0 <= k < |earlier| ensures earlier[k].second <= c.second {
      assert earlier[k].second <= c.first;
    }
  }

  /** A full batch ended at the row or past it. */
  ghost predicate Crowded(limit: nat, looks: seq<L.Sent>, r: int) {
    exists i: nat :: L.Crowded(limit, looks, i, r)
  }

  /** Rows are written within the settling time. */
  ghost predicate InTime(moments: seq<L.Moment>, given: int -> int, committed: int -> int, write: int, query: int) {
    && L.ClockRuns(moments) && L.WrittenInOrder(moments, given, committed, query)
    && write + query < L.STREAM_SETTLE && forall x {:trigger committed(x)} :: committed(x) <= given(x) + write
  }

  /** A row past the start that no full batch passed was visible to the count that covered it. */
  lemma CoveredInTime(after: int, limit: nat, moments: seq<L.Moment>, logs: seq<Log>,
                      given: int -> int, committed: int -> int, write: int, query: int, r: O.Row, k: nat)
    requires L.ValidMoments(after, moments) && ValidLogs(moments, logs, committed) && moments != []
    requires InTime(moments, given, committed, write, query)
    requires k < |Counts(after, limit, moments, logs, |moments|)| && r in logs[|moments| - 1].second
    requires after < r.id <= Counts(after, limit, moments, logs, |moments|)[k].settled
    requires !Crowded(limit, L.Run(after, limit, moments).looks, r.id)
    ensures r in Counts(after, limit, moments, logs, |moments|)[k].first
  {
    var m := CountIsOfALook(after, limit, moments, logs, |moments|, k);
    NotCrowdedBefore(after, limit, moments, m, r.id);
    CommittedBefore(after, limit, moments, m, r.id, given, committed, write, query);
  }

  lemma NotCrowdedBefore(after: int, limit: nat, moments: seq<L.Moment>, m: nat, r: int)
    requires m <= |moments| && !Crowded(limit, L.Run(after, limit, moments).looks, r)
    ensures !Crowded(limit, L.Run(after, limit, moments[..m]).looks, r)
  {
    var looks := L.Run(after, limit, moments).looks;
    L.LooksExtend(after, limit, moments, m);
    L.EarlierLooksStand(limit, looks, m, r, 0);
    forall i: nat ensures !L.Crowded(limit, L.Run(after, limit, moments[..m]).looks, i, r) {
      assert !L.Crowded(limit, looks, i, r);
    }
  }

  lemma CommittedBefore(after: int, limit: nat, moments: seq<L.Moment>, m: nat, r: int,
                        given: int -> int, committed: int -> int, write: int, query: int)
    requires L.ValidMoments(after, moments) && InTime(moments, given, committed, write, query) && 0 < m <= |moments|
    requires after < r <= L.Run(after, limit, moments[..m]).cursor.settled
    requires !Crowded(limit, L.Run(after, limit, moments[..m]).looks, r)
    ensures committed(r) < moments[m - 1].now
  {
    assert L.WrittenInOrder(moments[..m], given, committed, query);
    L.SettledIsCommitted(after, limit, moments[..m], r, given, committed, write, query);
  }

  /** A row that the settling does not wait for: it is at or below the start, or a full batch passed it. */
  ghost predicate Exposed(after: int, limit: nat, looks: seq<L.Sent>, r: int) {
    r <= after || Crowded(limit, looks, r)
  }

  /** When rows are written within the settling time, a stream's counts are one count of its whole window exactly when
  the settled rows of the window at or below its start, and those a full batch passed, were visible to the count that
  covered them. All other rows always are. */
  lemma StreamCountsIff(after: int, limit: nat, moments: seq<L.Moment>, logs: seq<Log>,
                        given: int -> int, committed: int -> int, write: int, query: int)
    requires L.ValidMoments(after, moments) && ValidLogs(moments, logs, committed) && moments != []
    requires InTime(moments, given, committed, write, query)
    requires Counts(after, limit, moments, logs, |moments|) != []
    ensures var counts := Counts(after, limit, moments, logs, |moments|);
            O.Reported(counts) == O.ByOutcome(O.Window(counts)) <==>
              forall r: O.Row :: Settled(counts, r) && Exposed(after, limit, L.Run(after, limit, moments).looks, r.id) ==>
                Seen(counts, r)
  {
    var counts, looks := Counts(after, limit, moments, logs, |moments|), L.Run(after, limit, moments).looks;
    CountsAreValid(after, limit, moments, logs, committed, |moments|);
    forall r: O.Row | Settled(counts, r) && !Exposed(after, limit, looks, r.id) ensures Seen(counts, r) {
      SettledIsSeen(after, limit, moments, logs, given, committed, write, query, r);
    }
    ExposedDecide(counts, after, limit, looks);
  }

  lemma ExposedDecide(counts: seq<O.Count>, after: int, limit: nat, looks: seq<L.Sent>)
    requires counts != [] && O.Valid(counts) && O.Grows(counts)
    requires forall r: O.Row :: Settled(counts, r) && !Exposed(after, limit, looks, r.id) ==> Seen(counts, r)
    ensures O.Reported(counts) == O.ByOutcome(O.Window(counts)) <==>
              forall r: O.Row :: Settled(counts, r) && Exposed(after, limit, looks, r.id) ==> Seen(counts, r)
  {
    O.CountsAreTheWindowIff(counts);
    if forall r: O.Row :: Settled(counts, r) && Exposed(after, limit, looks, r.id) ==> Seen(counts, r) {
      forall r: O.Row | Settled(counts, r) ensures Seen(counts, r) {
        if Exposed(after, limit, looks, r.id) { assert Seen(counts, r); }
      }
    }
  }

  ghost predicate Settled(counts: seq<O.Count>, r: O.Row)
    requires counts != []
  {
    r in O.Window(counts) && r.id <= counts[|counts| - 1].settled
  }

  /** The count that covered the row could see it. */
  ghost predicate Seen(counts: seq<O.Count>, r: O.Row)
    requires counts != []
  {
    r in counts[O.Cover(counts, r.id)].first
  }

  lemma SettledIsSeen(after: int, limit: nat, moments: seq<L.Moment>, logs: seq<Log>,
                      given: int -> int, committed: int -> int, write: int, query: int, r: O.Row)
    requires L.ValidMoments(after, moments) && ValidLogs(moments, logs, committed) && moments != []
    requires InTime(moments, given, committed, write, query)
    requires Counts(after, limit, moments, logs, |moments|) != []
    requires Settled(Counts(after, limit, moments, logs, |moments|), r)
    requires !Exposed(after, limit, L.Run(after, limit, moments).looks, r.id)
    ensures Seen(Counts(after, limit, moments, logs, |moments|), r)
  {
    var counts := Counts(after, limit, moments, logs, |moments|);
    CountsAreValid(after, limit, moments, logs, committed, |moments|);
    O.CoverIsTheFirstPast(counts, r.id);
    var k := O.Cover(counts, r.id);
    assert counts[|counts| - 1].second <= logs[|moments| - 1].second;
    CoveredInTime(after, limit, moments, logs, given, committed, write, query, r, k);
  }

  // Two looks, and a row that commits between them.

  ghost function TwoLooks(n: int, r: int): seq<L.Moment> { [L.Moment(0, [n])] + [L.Moment(1, [r, n, n + 1])] }

  lemma TwoLooksRun(after: int, limit: nat, n: int, r: int)
    requires limit > 0 && 0 <= after < n && 0 < r < n
    ensures L.ValidMoments(after, TwoLooks(n, r)) && L.ClockRuns(TwoLooks(n, r))
    ensures TwoLooks(n, r)[..1] == [L.Moment(0, [n])] && TwoLooks(n, r)[..2] == TwoLooks(n, r)
    ensures L.Run(after, limit, TwoLooks(n, r)) == L.Run(after, limit, [L.Moment(0, [n])]).Next(limit, L.Moment(1, [r, n, n + 1]))
  {
    assert TwoLooks(n, r)[..1] == [L.Moment(0, [n])];
  }

  /** The first look sends its row, and settles at it when it is a full batch; the second look sends something too. */
  lemma BothLooksSend(after: int, limit: nat, n: int, r: int)
    requires limit > 0 && 0 <= after < n && 0 < r < n
    ensures var s, t := L.Run(after, limit, [L.Moment(0, [n])]), L.Run(after, limit, TwoLooks(n, r));
            && |s.looks| == 1 && s.looks[0].rows != [] && |t.looks| == 2 && t.looks[1].rows != []
            && after <= s.cursor.settled && (limit == 1 ==> n <= s.cursor.settled)
            && s.cursor.settled <= t.cursor.settled
  {
    var first := [L.Moment(0, [n])];
    var s, m := L.Run(after, limit, first), L.Moment(1, [r, n, n + 1]);
    TwoLooksRun(after, limit, n, r);
    L.FirstBatch(after, limit, n);
    L.RunExplains(after, limit, first, 0);
    assert limit == 1 ==> L.Crowded(limit, s.looks, 0, n);
    L.SettleExplains(after, limit, s, 0, 1);
    assert !L.Passed(after, limit, s.looks, n + 1, 1) by { L.LookKeeps(after, limit, first, 0); }
    L.RunRemembers(after, limit, first);
    L.LookSends(s, limit, m);
    OnlyOneSent(after, limit, n);
    assert n + 1 in m.visible;
  }

  lemma OnlyOneSent(after: int, limit: nat, n: int)
    requires limit > 0 && 0 <= after < n
    ensures n + 1 !in L.Delivered(L.Run(after, limit, [L.Moment(0, [n])]).looks)
  {
    L.FirstBatch(after, limit, n);
    var looks := L.Run(after, limit, [L.Moment(0, [n])]).looks;
    assert looks[..0] == [] && looks[..|looks| - 1] == [];
  }

  /** A row at or below the start, or behind a full batch, that commits between two looks is left out of the counts, even
  though it was written in time. */
  lemma Miscounts(after: int, limit: nat, n: int, r: O.Row, given: int -> int, committed: int -> int)
    requires limit > 0 && 0 <= after < n && 0 < r.id < n && (limit == 1 || r.id <= after)
    requires forall x :: given(x) == 0 && committed(x) == if x == r.id then 1 else 0
    ensures var moments, logs := TwoLooks(n, r.id), [Log({}, {}, 0, None), Log({r}, {r}, 1, None)];
            && L.ValidMoments(after, moments) && ValidLogs(moments, logs, committed) && InTime(moments, given, committed, 1, 0)
            && var counts := Counts(after, limit, moments, logs, 2);
               O.Valid(counts) && counts != [] && O.Reported(counts) != O.ByOutcome(O.Window(counts))
  {
    var moments, logs := TwoLooks(n, r.id), [Log({}, {}, 0, None), Log({r}, {r}, 1, None)];
    TwoLooksRun(after, limit, n, r.id);
    TwoLogsAreValid(n, r, given, committed);
    CountsAreValid(after, limit, moments, logs, committed, 2);
    TwoCounts(after, limit, n, r);
    var a, b := L.Run(after, limit, moments[..1]).cursor.settled, L.Run(after, limit, moments).cursor.settled;
    LeavesOut(Counts(after, limit, moments, logs, 2), a, b, r);
  }

  lemma TwoLogsAreValid(n: int, r: O.Row, given: int -> int, committed: int -> int)
    requires 0 < r.id < n && forall x :: given(x) == 0 && committed(x) == if x == r.id then 1 else 0
    ensures ValidLogs(TwoLooks(n, r.id), [Log({}, {}, 0, None), Log({r}, {r}, 1, None)], committed)
    ensures InTime(TwoLooks(n, r.id), given, committed, 1, 0)
  {}

  lemma TwoCounts(after: int, limit: nat, n: int, r: O.Row)
    requires limit > 0 && 0 <= after < n && 0 < r.id < n && (limit == 1 || r.id <= after)
    ensures var moments, logs := TwoLooks(n, r.id), [Log({}, {}, 0, None), Log({r}, {r}, 1, None)];
            var a, b := L.Run(after, limit, moments[..1]).cursor.settled, L.Run(after, limit, moments).cursor.settled;
            && r.id <= a
            && Counts(after, limit, moments, logs, 2) == [O.Count({}, {}, a, 0, None)] + [O.Count({r}, {r}, b, 1, None)]
  {
    var moments, logs := TwoLooks(n, r.id), [Log({}, {}, 0, None), Log({r}, {r}, 1, None)];
    TwoLooksRun(after, limit, n, r.id);
    BothLooksSend(after, limit, n, r.id);
    assert Counts(after, limit, moments, logs, 0) == [];
  }

  lemma LeavesOut(counts: seq<O.Count>, a: int, b: int, r: O.Row)
    requires counts == [O.Count({}, {}, a, 0, None)] + [O.Count({r}, {r}, b, 1, None)]
    requires O.Valid(counts) && O.Grows(counts) && 0 < r.id <= a
    ensures O.Reported(counts) != O.ByOutcome(O.Window(counts))
  {
    var first := [O.Count({}, {}, a, 0, None)];
    assert counts[..1] == first && first[..0] == [];
    assert !O.Run(first).Recounts(counts[1]);
    assert r in O.Window(counts) && r !in counts[O.Cover(counts, r.id)].first;
    O.CountsAreTheWindowIff(counts);
  }
}
