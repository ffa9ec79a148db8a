/** The feed that wakes live request streams (`requestFeed`, `streamRequests`, internal/control/live.go), and the
notice the write path sends it (internal/store/store.go).

Each stream has a channel that holds one tick; a send never blocks, and a second tick is dropped. The main result is
`NoLostWakeUp`: after a wake that concerns a stream, the stream has a tick pending or has noted that the log grew, or
it has begun a look since.
*/
module RequestFeed {
  import opened Text

  /** The payload limit of a notice, in bytes. */
  const EVENTS_PAYLOAD_MAX: nat := 4000

  datatype Event = Event(org: string, billsOnly: bool)

  /** The organisations a notice names so far, and those it has seen. */
  function Name(events: seq<Event>, b: string, seen: set<string>): (string, set<string>) {
    if events == [] then (b, seen)
    else if events[0].billsOnly || events[0].org in seen then Name(events[1..], b, seen)
    else Name(events[1..], (if b == "" then b else b + ",") + events[0].org, seen + {events[0].org})
  }

  /** The notice for a batch, if it has one. */
  function EventsPayload(events: seq<Event>): Option<string> {
    var (b, seen) := Name(events, "", {});
    if |b| > EVENTS_PAYLOAD_MAX then Some("") else if seen == {} then None else Some(b)
  }

  method BuildPayload(events: seq<Event>) returns (payload: Option<string>)
    ensures payload == EventsPayload(events)
  {
    var b: string, seen: set<string> := "", {};
    var i := 0;
    while i < |events|
      invariant 0 <= i <= |events|
      invariant Name(events[i..], b, seen) == Name(events, "", {})
    {
      var e := events[i];
      assert events[i..][1..] == events[i + 1..];
      if !e.billsOnly && e.org !in seen {
        seen := seen + {e.org};
        if |b| > 0 {
          b := b + ",";
        }
        b := b + e.org;
      }
      i := i + 1;
    }
    if |b| > EVENTS_PAYLOAD_MAX {
      payload := Some("");
    } else {
      payload := if |seen| > 0 then Some(b) else None;
    }
  }

  /** Whether a notice wakes the streams of `org`; "" stands for all organisations, on either side. */
  predicate Wakes(payload: string, org: string) {
    payload == "" || org == "" || org in Split(payload, ',')
  }

  /** A batch that wrote a request of an organisation has a notice, and the notice wakes every stream of it. */
  lemma BatchWakes(events: seq<Event>, e: Event)
    requires forall x :: x in events ==> ',' !in x.org
    requires e in events && !e.billsOnly
    ensures EventsPayload(events).Some? && Wakes(EventsPayload(events).value, e.org)
  {
    NameNames(events, "", {});
  }

  lemma {:induction false} NameNames(events: seq<Event>, b: string, seen: set<string>)
    requires forall e :: e in events ==> ',' !in e.org
    requires forall org :: org in seen ==> org == "" || org in Split(b, ',')
    ensures var (c, all) := Name(events, b, seen);
            && (forall org :: org in all ==> org == "" || org in Split(c, ','))
            && seen <= all
            && (forall e :: e in events && !e.billsOnly ==> e.org in all)
    decreases events
  {
    if events != [] {
      assert events == [events[0]] + events[1..];
      var org := events[0].org;
      if events[0].billsOnly || org in seen {
        NameNames(events[1..], b, seen);
      } else {
        var c := (if b == "" then b else b + ",") + org;
        SplitWhole(org, ',');
        if b == "" {
          SplitWhole("", ',');
          assert c == org;
        } else {
          SplitAppends(b, org, ',');
          assert c == b + [','] + org;
          assert Split(c, ',') == Split(b, ',') + [org];
        }
        assert org in Split(c, ',');
        NameNames(events[1..], c, seen + {org});
      }
    }
  }

  ghost predicate AreIn(parts: seq<string>, seen: set<string>) {
    forall p :: p in parts ==> p == "" || p in seen
  }

  lemma {:induction false} NameNamesOnly(events: seq<Event>, b: string, seen: set<string>)
    requires (forall e :: e in events ==> ',' !in e.org) && AreIn(Split(b, ','), seen)
    ensures var (c, all) := Name(events, b, seen);
            && AreIn(Split(c, ','), all)
            && (forall org :: org in all ==> org in seen || exists e :: e in events && !e.billsOnly && e.org == org)
    decreases events
  {
    if events != [] {
      assert events == [events[0]] + events[1..];
      var org := events[0].org;
      if events[0].billsOnly || org in seen {
        NameNamesOnly(events[1..], b, seen);
      } else {
        NameAdds(b, org, seen);
        NameNamesOnly(events[1..], (if b == "" then b else b + ",") + org, seen + {org});
      }
    }
  }

  lemma NameAdds(b: string, org: string, seen: set<string>)
    requires ',' !in org && AreIn(Split(b, ','), seen)
    ensures AreIn(Split((if b == "" then b else b + ",") + org, ','), seen + {org})
  {
    SplitWhole(org, ',');
    if b == "" {
      assert b + org == org;
    } else {
      SplitAppends(b, org, ',');
      assert (b + ",") + org == b + [','] + org;
    }
  }

  /** Who a notice wakes: there is none for a batch without requests, one that names nobody, and wakes everyone, only when
  the names do not fit, and any other wakes the streams of the organisations the batch wrote for and of all of them. */
  lemma NoticeWakesExactly(events: seq<Event>, org: string)
    requires forall e :: e in events ==> ',' !in e.org && e.org != ""
    ensures EventsPayload(events) == None <==> forall e :: e in events ==> e.billsOnly
    ensures EventsPayload(events).Some? && EventsPayload(events).value != "" ==>
              (Wakes(EventsPayload(events).value, org) <==>
                 org == "" || exists e :: e in events && !e.billsOnly && e.org == org)
    ensures EventsPayload(events) == Some("") ==> |Name(events, "", {}).0| > 4000
    ensures Wakes("", org)
  {
    SplitWhole("", ',');
    NameNames(events, "", {});
    NameNamesOnly(events, "", {});
    var (b, all) := Name(events, "", {});
    if e :| e in events && !e.billsOnly {
      assert e.org in all && e.org in Split(b, ',');
      assert b != "";
    }
  }

  /** A subscription: the organisation it watches, and whether its channel holds a tick. */
  datatype Sub = Sub(org: string, tick: bool)

  class Feed {
    var subs: map<nat, Sub>

    constructor ()
      ensures subs == map[]
    {
      subs := map[];
    }

    /** The channel is new, so it is not one of those subscribed. */
    method Watch(org: string, ch: nat)
      requires ch !in subs
      modifies this
      ensures subs == old(subs)[ch := Sub(org, false)]
    {
      subs := subs[ch := Sub(org, false)];
    }

    method Unwatch(ch: nat)
      modifies this
      ensures subs == old(subs) - {ch}
    {
      subs := subs - {ch};
    }

    /** `wake`: a tick for every channel the notice concerns, where there is room for one. */
    method Wake(payload: string)
      modifies this
      ensures subs == Woken(old(subs), payload)
    {
      var orgs := Split(payload, ',');
      var left := subs.Keys;
      while left != {}
        invariant left <= subs.Keys == old(subs).Keys
        invariant forall ch :: ch in left ==> subs[ch] == old(subs)[ch]
        invariant forall ch :: ch in subs.Keys - left ==> subs[ch] == Woken(old(subs), payload)[ch]
        decreases |left|
      {
        var ch :| ch in left;
        left := left - {ch};
        var org := subs[ch].org;
        if payload != "" && org != "" && org !in orgs {
          continue;
        }
        if !subs[ch].tick {
          subs := subs[ch := Sub(org, true)];
        }
      }
    }
  }

  function Woken(subs: map<nat, Sub>, payload: string): map<nat, Sub> {
    map ch | ch in subs :: Sub(subs[ch].org, subs[ch].tick || Wakes(payload, subs[ch].org))
  }

  // Runs of streams over one feed.

  /** A stream: its channel, whether it noted that the log grew, and how many events had passed when it last began a look. */
  datatype Stream = Stream(sub: Sub, grown: bool, looked: nat)

  datatype Happening =
    | Opened(ch: nat, org: string)
    | Closed(ch: nat)
    | Woke(payload: string)
    | TookTick(ch: nat)
    | Polled(ch: nat)

  /** One step. A tick can be taken only from a channel that holds one; a poll begins a look only when the log grew.
  A stream looks once before it waits, so it starts as if the log had grown. */
  function Step(streams: map<nat, Stream>, h: Happening, at: nat): map<nat, Stream> {
    match h
    case Opened(ch, org) => if ch in streams then streams else streams[ch := Stream(Sub(org, false), true, 0)]
    case Closed(ch) => streams - {ch}
    case Woke(payload) =>
      map ch | ch in streams ::
        streams[ch].(sub := Sub(streams[ch].sub.org, streams[ch].sub.tick || Wakes(payload, streams[ch].sub.org)))
    case TookTick(ch) =>
      if ch in streams && streams[ch].sub.tick then streams[ch := streams[ch].(sub := Sub(streams[ch].sub.org, false), grown := true)]
      else streams
    case Polled(ch) =>
      if ch in streams && streams[ch].grown then streams[ch := streams[ch].(grown := false, looked := at)] else streams
  }

  function Run(events: seq<Happening>): map<nat, Stream> {
    if events == [] then map[]
    else Step(Run(events[..|events| - 1]), events[|events| - 1], |events|)
  }

  /** The subscriptions of the streams. */
  ghost function Subs(streams: map<nat, Stream>): map<nat, Sub> {
    map ch | ch in streams :: streams[ch].sub
  }

  /** A run does to the feed what its methods do: streams come, go and are woken, and each takes its own tick. */
  lemma StepsAreTheFeeds(streams: map<nat, Stream>, ch: nat, org: string, payload: string, at: nat)
    ensures ch !in streams ==> Subs(Step(streams, Opened(ch, org), at)) == Subs(streams)[ch := Sub(org, false)]
    ensures Subs(Step(streams, Closed(ch), at)) == Subs(streams) - {ch}
    ensures Subs(Step(streams, Woke(payload), at)) == Woken(Subs(streams), payload)
    ensures ch in streams ==>
              Subs(Step(streams, TookTick(ch), at)) == Subs(streams)[ch := Sub(Subs(streams)[ch].org, false)]
    ensures Subs(Step(streams, Polled(ch), at)) == Subs(streams)
  {}

  ghost predicate Pending(s: Stream) {
    s.sub.tick || s.grown
  }

  /** The stream was open at event `k` and has stayed open. */
  ghost predicate OpenSince(events: seq<Happening>, ch: nat, k: nat) {
    k <= |events| && forall j :: k <= j <= |events| ==> ch in Run(events[..j])
  }

  /** After a wake that concerns it, an open stream has work pending, or has begun a look since. */
  lemma {:induction false} NoLostWakeUp(events: seq<Happening>, ch: nat, k: nat)
    requires k < |events| && events[k].Woke? && OpenSince(events, ch, k)
    requires Wakes(events[k].payload, Run(events[..k])[ch].sub.org)
    ensures ch in Run(events) && (Pending(Run(events)[ch]) || Run(events)[ch].looked > k)
    decreases |events|
  {
    var n := |events| - 1;
    assert events[..n + 1] == events;
    assert ch in Run(events[..n]) && ch in Run(events);
    if k < n {
      var before := events[..n];
      assert before[..k] == events[..k];
      forall j | k <= j <= n ensures ch in Run(before[..j]) {
        assert before[..j] == events[..j];
      }
      NoLostWakeUp(before, ch, k);
    }
  }

  lemma RunAt(events: seq<Happening>, n: nat)
    requires n < |events|
    ensures Run(events[..n + 1]) == Step(Run(events[..n]), events[n], n + 1)
  {
    assert events[..n + 1][..n] == events[..n];
  }

  /** The stream is open after `n` events, and has begun a look since event `k`. */
  ghost predicate LookedSince(events: seq<Happening>, ch: nat, k: nat, n: nat)
    requires n <= |events|
  {
    ch in Run(events[..n]) && Run(events[..n])[ch].looked > k
  }

  /** It has, or has noted that the log grew. */
  ghost predicate Caught(events: seq<Happening>, ch: nat, k: nat, n: nat)
    requires n <= |events|
  {
    LookedSince(events, ch, k, n) || (ch in Run(events[..n]) && Run(events[..n])[ch].grown)
  }

  lemma CaughtNext(events: seq<Happening>, ch: nat, k: nat, n: nat)
    requires k <= n < |events| && ch in Run(events[..n + 1]) && Caught(events, ch, k, n)
    ensures Caught(events, ch, k, n + 1)
    ensures LookedSince(events, ch, k, n) || events[n] == Polled(ch) ==> LookedSince(events, ch, k, n + 1)
  {
    RunAt(events, n);
  }

  /** What was caught stays caught, and a look that was begun stays begun. */
  lemma {:induction false} CaughtStays(events: seq<Happening>, ch: nat, k: nat, m: nat, n: nat)
    requires k < m <= n <= |events| && OpenSince(events, ch, k) && Caught(events, ch, k, m)
    ensures Caught(events, ch, k, n)
    ensures LookedSince(events, ch, k, m) ==> LookedSince(events, ch, k, n)
    decreases n - m
  {
    if m < n {
      CaughtStays(events, ch, k, m, n - 1);
      CaughtNext(events, ch, k, n - 1);
    }
  }

  /** Taking a tick after the wake, or finding none there, is noting that the log grew, unless a look was begun. */
  lemma TickIsNoted(events: seq<Happening>, ch: nat, k: nat, i: nat)
    requires k < i < |events| && events[k].Woke? && events[i] == TookTick(ch) && OpenSince(events, ch, k)
    requires Wakes(events[k].payload, Run(events[..k])[ch].sub.org)
    ensures Caught(events, ch, k, i + 1)
  {
    var before := events[..i];
    assert before[..k] == events[..k];
    forall n | k <= n <= i ensures ch in Run(before[..n]) {
      assert before[..n] == events[..n];
    }
    NoLostWakeUp(before, ch, k);
    RunAt(events, i);
  }

  /** A stream that stays open after a wake, and sooner or later takes its tick and after that polls, has begun a look
  since the wake ever after, whatever happens in between. */
  lemma WakeIsLookedAt(events: seq<Happening>, ch: nat, k: nat, i: nat, j: nat, n: nat)
    requires k < i < j < n <= |events| && events[k].Woke? && events[i] == TookTick(ch) && events[j] == Polled(ch)
    requires OpenSince(events, ch, k) && Wakes(events[k].payload, Run(events[..k])[ch].sub.org)
    ensures LookedSince(events, ch, k, n)
  {
    TickIsNoted(events, ch, k, i);
    CaughtStays(events, ch, k, i + 1, j);
    CaughtNext(events, ch, k, j);
    CaughtStays(events, ch, k, j + 1, n);
  }

  /** The stream is open after `n` events with nothing to look for, for this organisation, since its look at event `at`. */
  ghost predicate IsIdle(events: seq<Happening>, ch: nat, n: nat, org: string, at: nat)
    requires n <= |events|
  {
    ch in Run(events[..n]) && Run(events[..n])[ch] == Stream(Sub(org, false), false, at)
  }

  /** An idle stream stays idle until a wake concerns it: it looks at nothing. */
  lemma {:induction false} IdleStays(events: seq<Happening>, ch: nat, m: nat, n: nat, org: string, at: nat)
    requires m <= n <= |events| && IsIdle(events, ch, m, org, at)
    requires forall j :: m <= j < n ==> events[j] != Closed(ch) && (events[j].Woke? ==> !Wakes(events[j].payload, org))
    ensures IsIdle(events, ch, n, org, at)
    decreases n - m
  {
    if m < n {
      IdleStays(events, ch, m, n - 1, org, at);
      RunAt(events, n - 1);
    }
  }

  /** A stream that is opened looks at its first poll, before any wake. */
  lemma OpenedLooksFirst(streams: map<nat, Stream>, ch: nat, org: string, at: nat)
    requires ch !in streams
    ensures var begun := Step(streams, Opened(ch, org), at);
            && ch in begun && begun[ch].sub == Sub(org, false)
            && Step(begun, Polled(ch), at + 1)[ch] == Stream(Sub(org, false), false, at + 1)
  {}
}
