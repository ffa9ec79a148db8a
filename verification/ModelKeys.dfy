/** The keys of models and MCP servers (`putModel`, `deleteModel`, `sameOrigins`, internal/control/models.go;
`putMCPServer`, internal/control/mcp.go).

A stored key goes to the addresses of its row. `KeyStaysAtItsOrigins` says that these are on hosts the key was entered
for, over any sequence of puts and deletes.
*/
module ModelKeys {
  import opened Text

  /** `entered` is where the row pointed when its key was last entered: no field of the row, but what it is about. */
  datatype Row = Row(backends: seq<string>, hasKey: bool, entered: set<string>)

  /** What is put. Without `apiKey` the stored key is left alone, and an empty one removes it. An MCP server has its
  address for a backend, and is neither on the deployment's key nor a subscription. */
  datatype Put = Put(backends: seq<string>, apiKey: Option<string>, platform: bool, subscription: bool)

  function Credential(p: Put): string { if p.apiKey.None? then "" else Trim(p.apiKey.value) }

  /** `origin` is the scheme and host of an address, and empty when it has none. */
  function Origins(origin: string -> string, backends: seq<string>): set<string> {
    set b | b in backends :: origin(Trim(b))
  }

  ghost predicate Same(origin: string -> string, prev: seq<string>, next: seq<string>) {
    "" !in Origins(origin, next) && Origins(origin, next) <= Origins(origin, prev)
  }

  method SameOrigins(origin: string -> string, prev: seq<string>, next: seq<string>) returns (same: bool)
    ensures same <==> Same(origin, prev, next)
  {
    var known := {};
    for i := 0 to |prev|
      invariant known == Origins(origin, prev[..i])
    {
      assert prev[..i + 1] == prev[..i] + [prev[i]];
      known := known + {origin(Trim(prev[i]))};
    }
    assert prev[..|prev|] == prev;
    for i := 0 to |next|
      invariant forall k :: 0 <= k < i ==> origin(Trim(next[k])) != "" && origin(Trim(next[k])) in known
    {
      var o := origin(Trim(next[i]));
      if o == "" || o !in known {
        assert o in Origins(origin, next);
        return false;
      }
    }
    same := true;
  }

  /** Whether a put is taken, given the row it replaces. */
  ghost predicate Taken(origin: string -> string, was: Option<Row>, p: Put) {
    && (p.platform || p.subscription ==> Credential(p) == "")
    && (!p.platform && was.Some? && was.value.hasKey && p.apiKey.None? ==> Same(origin, was.value.backends, p.backends))
  }

  /** The row that a put leaves. */
  function Stored(origin: string -> string, was: Option<Row>, p: Put): Row {
    var had := was.Some? && was.value.hasKey;
    if p.apiKey.Some? || ((p.platform || p.subscription) && had) then
      var set_ := Credential(p) != "";
      Row(p.backends, set_, if set_ then Origins(origin, p.backends) else {})
    else Row(p.backends, had, if had then was.value.entered else {})
  }

  class Rows {
    var rows: map<string, Row>

    constructor ()
      ensures rows == map[]
    {
      rows := map[];
    }

    method PutRow(origin: string -> string, alias: string, p: Put) returns (ok: bool)
      modifies this
      ensures ok <==> Taken(origin, Lookup(old(rows), alias), p)
      ensures rows == if ok then old(rows)[alias := Stored(origin, Lookup(old(rows), alias), p)] else old(rows)
    {
      var credential := Credential(p);
      if (p.platform || p.subscription) && credential != "" {
        return false;
      }
      var found := alias in rows;
      if !p.platform && found && rows[alias].hasKey && p.apiKey.None? {
        var same := SameOrigins(origin, rows[alias].backends, p.backends);
        if !same {
          return false;
        }
      }
      var setKey := p.apiKey.Some? || ((p.platform || p.subscription) && found && rows[alias].hasKey);
      var hasKey := if setKey then credential != "" else found && rows[alias].hasKey;
      var entered := {};
      if hasKey {
        entered := if setKey then Origins(origin, p.backends) else rows[alias].entered;
      }
      rows := rows[alias := Row(p.backends, hasKey, entered)];
      ok := true;
    }

    method DeleteRow(alias: string)
      modifies this
      ensures rows == old(rows) - {alias}
    {
      rows := rows - {alias};
    }
  }

  function Lookup(rows: map<string, Row>, alias: string): Option<Row> {
    if alias in rows then Some(rows[alias]) else None
  }

  // Over any sequence of puts and deletes.

  datatype Action = PutAt(alias: string, p: Put) | Delete(alias: string)

  ghost function Next(origin: string -> string, rows: map<string, Row>, a: Action): map<string, Row> {
    match a
    case PutAt(alias, p) =>
      if Taken(origin, Lookup(rows, alias), p) then rows[alias := Stored(origin, Lookup(rows, alias), p)] else rows
    case Delete(alias) => rows - {alias}
  }

  ghost function Run(origin: string -> string, actions: seq<Action>): map<string, Row> {
    if actions == [] then map[]
    else Next(origin, Run(origin, actions[..|actions| - 1]), actions[|actions| - 1])
  }

  ghost predicate AtItsOrigins(origin: string -> string, row: Row) {
    row.hasKey ==> Origins(origin, row.backends) <= row.entered
  }

  /** While a key is stored, every address of its row is on a host that the key was last entered for. */
  lemma {:induction false} KeyStaysAtItsOrigins(origin: string -> string, actions: seq<Action>, alias: string)
    requires alias in Run(origin, actions)
    ensures AtItsOrigins(origin, Run(origin, actions)[alias])
  {
    var before := Run(origin, actions[..|actions| - 1]);
    if alias in before {
      KeyStaysAtItsOrigins(origin, actions[..|actions| - 1], alias);
    }
    var a := actions[|actions| - 1];
    if a.PutAt? && a.alias == alias && Taken(origin, Lookup(before, alias), a.p) {
      StoredStays(origin, Lookup(before, alias), a.p);
    }
  }

  lemma StoredStays(origin: string -> string, was: Option<Row>, p: Put)
    requires Taken(origin, was, p) && (was.Some? ==> AtItsOrigins(origin, was.value))
    ensures AtItsOrigins(origin, Stored(origin, was, p))
  {}

  /** A put that keeps the key adds no origin to the row, and a row on the deployment's key or a subscription ends with no
  key of its own. */
  lemma KeptKeyGoesNowhereNew(origin: string -> string, was: Option<Row>, p: Put)
    requires Taken(origin, was, p)
    ensures p.apiKey.None? && Stored(origin, was, p).hasKey ==>
              was.Some? && was.value.hasKey && Origins(origin, p.backends) <= Origins(origin, was.value.backends)
              && Stored(origin, was, p).entered == was.value.entered
    ensures p.platform || p.subscription ==> !Stored(origin, was, p).hasKey
  {}

  /** A put that enters a key is taken wherever the row points then, unless the row takes none. */
  ghost predicate Enters(p: Put) { p.apiKey.Some? && Credential(p) != "" && !p.platform && !p.subscription }

  /** The last action that entered a key for the row, since it was last deleted. */
  ghost function LastEntry(actions: seq<Action>, alias: string, n: nat): Option<nat>
    requires n <= |actions|
  {
    if n == 0 || actions[n - 1] == Delete(alias) then None
    else if actions[n - 1].PutAt? && actions[n - 1].alias == alias && Enters(actions[n - 1].p) then Some(n - 1)
    else LastEntry(actions, alias, n - 1)
  }

  lemma StoredEnters(origin: string -> string, was: Option<Row>, p: Put)
    ensures Enters(p) ==> Taken(origin, was, p) && Stored(origin, was, p) == Row(p.backends, true, Origins(origin, p.backends))
    ensures Taken(origin, was, p) && !Enters(p) && Stored(origin, was, p).hasKey ==>
              was.Some? && was.value.hasKey && Stored(origin, was, p).entered == was.value.entered
  {}

  /** What `entered` holds: a stored key is the one last entered, and those are the origins of the put that entered it. So a
  row can be moved anywhere, but only by entering a key. */
  lemma {:induction false} KeyIsOfTheLastEntry(origin: string -> string, actions: seq<Action>, alias: string, n: nat)
    requires n <= |actions| && alias in Run(origin, actions[..n]) && Run(origin, actions[..n])[alias].hasKey
    ensures LastEntry(actions, alias, n).Some?
    ensures var k := LastEntry(actions, alias, n).value;
            && k < n && actions[k].PutAt? && actions[k].alias == alias && Enters(actions[k].p)
            && Run(origin, actions[..n])[alias].entered == Origins(origin, actions[k].p.backends)
  {
    var a := actions[n - 1];
    assert actions[..n][..n - 1] == actions[..n - 1];
    var before := Run(origin, actions[..n - 1]);
    if a.PutAt? && a.alias == alias {
      StoredEnters(origin, Lookup(before, alias), a.p);
    }
    if !(a.PutAt? && a.alias == alias && Enters(a.p)) {
      KeyIsOfTheLastEntry(origin, actions, alias, n - 1);
    }
  }

  /** When a row has a key after a put: it enters one, or it leaves alone one that the row had. */
  lemma HasKeyIff(origin: string -> string, was: Option<Row>, p: Put)
    requires Taken(origin, was, p)
    ensures Stored(origin, was, p).hasKey <==>
              if p.apiKey.Some? then Trim(p.apiKey.value) != ""
              else was.Some? && was.value.hasKey && !p.platform && !p.subscription
    ensures Stored(origin, was, p).backends == p.backends
  {}

  /** A put is refused exactly when it gives a key to a row that takes none, or keeps one and has an address without an
  origin or with one that no address of the row had. */
  lemma RefusedIff(origin: string -> string, was: Option<Row>, p: Put)
    ensures !Taken(origin, was, p) <==>
              || ((p.platform || p.subscription) && p.apiKey.Some? && Trim(p.apiKey.value) != "")
              || (!p.platform && p.apiKey.None? && was.Some? && was.value.hasKey
                  && exists i :: 0 <= i < |p.backends| && IsNewOrigin(origin, was.value.backends, p.backends[i]))
  {
    if was.Some? {
      SameIff(origin, was.value.backends, p.backends);
    }
  }

  predicate IsNewOrigin(origin: string -> string, prev: seq<string>, address: string) {
    origin(Trim(address)) == "" || forall j :: 0 <= j < |prev| ==> origin(Trim(prev[j])) != origin(Trim(address))
  }

  lemma SameIff(origin: string -> string, prev: seq<string>, next: seq<string>)
    ensures !Same(origin, prev, next) <==> exists i :: 0 <= i < |next| && IsNewOrigin(origin, prev, next[i])
  {
    forall i | 0 <= i < |next|
      ensures origin(Trim(next[i])) in Origins(origin, next)
      ensures IsNewOrigin(origin, prev, next[i]) <==> origin(Trim(next[i])) == "" || origin(Trim(next[i])) !in Origins(origin, prev)
    {
      if origin(Trim(next[i])) in Origins(origin, prev) {
        var b :| b in prev && origin(Trim(b)) == origin(Trim(next[i]));
        var j :| 0 <= j < |prev| && prev[j] == b;
      }
      forall j | 0 <= j < |prev| ensures origin(Trim(prev[j])) in Origins(origin, prev) {}
    }
    if !Same(origin, prev, next) {
      var o :| o in Origins(origin, next) && (o == "" || o !in Origins(origin, prev));
      var b :| b in next && origin(Trim(b)) == o;
      var i :| 0 <= i < |next| && next[i] == b;
      assert IsNewOrigin(origin, prev, next[i]);
    }
  }

  /** A row that was entered a key for, and that no put or delete took it from since, has it still. */
  lemma {:induction false} KeyStaysUntilTaken(origin: string -> string, actions: seq<Action>, alias: string, k: nat, n: nat)
    requires k < n <= |actions| && actions[k].PutAt? && actions[k].alias == alias && Enters(actions[k].p)
    requires forall i :: k < i < n ==> LeavesKey(actions[i], alias)
    ensures alias in Run(origin, actions[..n]) && Run(origin, actions[..n])[alias].hasKey
  {
    assert actions[..n][..n - 1] == actions[..n - 1];
    var before, a := Run(origin, actions[..n - 1]), actions[n - 1];
    if k < n - 1 {
      KeyStaysUntilTaken(origin, actions, alias, k, n - 1);
      assert LeavesKey(a, alias);
    } else {
      StoredEnters(origin, Lookup(before, alias), a.p);
    }
  }

  /** The action is about another row, or puts this one with a key or with the one it has. */
  predicate LeavesKey(a: Action, alias: string) {
    a.alias != alias
    || (a.PutAt? && !a.p.platform && !a.p.subscription && (a.p.apiKey.Some? ==> Trim(a.p.apiKey.value) != ""))
  }
}
