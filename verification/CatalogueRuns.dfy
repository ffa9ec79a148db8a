/** Handlers of an organisation's catalogue side by side (`LockReferences`, internal/store/guardrails.go, and its holders
in internal/control).

`Handlers` runs each of them alone, in the order of its checks and writes. `Next` is one read or write of whoever holds
the lock, or a write that takes no lock; holders stop anywhere.
*/
module CatalogueRuns {
  import opened Text
  import opened Catalogue

  datatype Outcome = Refused | NotFound | Done

  /** Whether what a request deletes is there. */
  predicate IsThere(org: Org, q: Request) {
    match q
    case DeleteModel(alias) => alias in org.models
    case DeleteFilter(alias) => alias in org.filters
    case DeleteRouter(alias) => alias in org.routers
    case DeleteServer(alias) => alias in org.servers
    case _ => true
  }

  /** A request handled with nothing in between: it is refused, or written and followed up. */
  function Handle(org: Org, q: Request): (Org, Outcome) {
    if exists i :: 0 <= i < CHECKS && !Check(org, q, i) then (org, Refused)
    else (Follow(Write(org, q), q, Found(org, q)), if IsThere(org, q) then Done else NotFound)
  }

  /** `fits` says whether what is put passes the handler's other checks, which read nothing of the catalogue or, for a
  model's key, only its own row. */
  function HandlePut(org: Org, q: Request, fits: bool): (put: (Org, Outcome))
    ensures put.1 == Done ==> fits
  {
    if fits then Handle(org, q) else (org, Refused)
  }

  class Handlers {
    var models: map<string, Model>
    var filters: map<string, Filter>
    var routers: map<string, seq<Step>>
    var servers: set<string>
    var guardrails: map<Scope, Limits>

    function View(): Org
      reads this
    {
      Org(models, filters, routers, servers, guardrails)
    }

    constructor ()
      ensures Sound(View())
    {
      models, filters, routers, servers, guardrails := map[], map[], map[], {}, map[];
    }

    method AllowAlias(alias: string)
      modifies this`guardrails
      ensures View() == AllowInOrg(old(View()), alias)
    {
      var lim := LimitsOf(View(), OrgScope);
      if lim.allowedModels.Some? && alias !in lim.allowedModels.value {
        guardrails := guardrails[OrgScope := lim.(allowedModels := Some(lim.allowedModels.value + [alias]))];
      }
    }

    /** Looks through the filters, and then through the routers. */
    method CheckModelUsers(alias: string) returns (unused: bool)
      ensures unused <==> ModelUnused(View(), alias)
    {
      unused := true;
      var left := filters.Keys;
      while left != {}
        invariant left <= filters.Keys
        invariant unused <==> forall f :: f in filters.Keys - left ==> ReadsWith(filters[f]) != alias
        decreases |left|
      {
        var f :| f in left;
        left := left - {f};
        if ReadsWith(filters[f]) == alias {
          unused := false;
        }
      }
      ghost var unread := unused;
      left := routers.Keys;
      while left != {}
        invariant left <= routers.Keys
        invariant unused <==> unread && forall r :: r in routers.Keys - left ==> alias !in Models(routers[r])
        decreases |left|
      {
        var r :| r in left;
        left := left - {r};
        if alias in Models(routers[r]) {
          unused := false;
        }
      }
    }

    /** Looks for a filter, and then for a router, that the list would leave on a model outside it. */
    method CheckAllowList(lim: Limits) returns (ok: bool)
      ensures ok <==> FiltersAllowed(filters, lim) && RoutersAllowed(routers, lim)
    {
      ok := true;
      var left := filters.Keys;
      while left != {}
        invariant left <= filters.Keys
        invariant ok <==> forall f :: f in filters.Keys - left && ReadsWith(filters[f]) != "" ==> Allows(lim, ReadsWith(filters[f]))
        decreases |left|
      {
        var f :| f in left;
        left := left - {f};
        if ReadsWith(filters[f]) != "" && !Allows(lim, ReadsWith(filters[f])) {
          ok := false;
        }
      }
      if !ok {
        return;
      }
      left := routers.Keys;
      while left != {}
        invariant left <= routers.Keys
        invariant ok <==> forall r, a :: r in routers.Keys - left && a in Reads(routers[r]) ==> Allows(lim, a)
        decreases |left|
      {
        var r :| r in left;
        left := left - {r};
        if exists a :: a in Reads(routers[r]) && !Allows(lim, a) {
          ok := false;
        }
      }
    }

    method SaveModel(alias: string, model: Model, fits: bool) returns (out: Outcome)
      modifies this
      ensures (View(), out) == HandlePut(old(View()), PutModel(alias, model), fits)
    {
      ghost var q := PutModel(alias, model);
      if !fits {
        return Refused;
      }
      var found := alias in models;
      if !found && alias in routers {
        assert !Check(View(), q, 0);
        return Refused;
      }
      if model.subscription {
        var unused := CheckModelUsers(alias);
        if !unused {
          assert !Check(View(), q, 1);
          return Refused;
        }
      }
      models := models[alias := model];
      if !found {
        AllowAlias(alias);
      }
      out := Done;
    }

    method DropModel(alias: string) returns (out: Outcome)
      modifies this
      ensures (View(), out) == Handle(old(View()), DeleteModel(alias))
    {
      var unused := CheckModelUsers(alias);
      if !unused {
        assert !Check(View(), DeleteModel(alias), 0);
        return Refused;
      }
      if alias !in models {
        return NotFound;
      }
      models := models - {alias};
      guardrails := DisallowAll(guardrails, alias);
      out := Done;
    }

    method SaveFilter(alias: string, filter: Filter, fits: bool) returns (out: Outcome)
      modifies this
      ensures (View(), out) == HandlePut(old(View()), PutFilter(alias, filter), fits)
    {
      ghost var q := PutFilter(alias, filter);
      if !fits {
        return Refused;
      }
      if filter.mode == Pattern {
        if filter.model != "" {
          assert !Check(View(), q, 0);
          return Refused;
        }
      } else {
        if filter.model == "" || !CanRead(View(), filter.model, filter.mode == Gate) {
          assert !Check(View(), q, 0);
          return Refused;
        }
        if !MayRead(View(), filter.model) {
          assert !Check(View(), q, 1);
          return Refused;
        }
      }
      filters := filters[alias := filter];
      out := Done;
    }

    /** Looks for a router that applies the filter. */
    method CheckFilterRouters(alias: string) returns (unused: bool)
      ensures unused <==> Check(View(), DeleteFilter(alias), 0)
    {
      unused := true;
      var left := routers.Keys;
      while left != {}
        invariant left <= routers.Keys
        invariant unused <==> forall r :: r in routers.Keys - left ==> alias !in Filters(routers[r])
        decreases |left|
      {
        var r :| r in left;
        left := left - {r};
        if alias in Filters(routers[r]) {
          unused := false;
        }
      }
    }

    /** Looks for a guardrail that names what is deleted. */
    method CheckGuardrails(q: Request) returns (unused: bool)
      ensures unused <==> NoneNames(guardrails, q)
    {
      unused := true;
      var left := guardrails.Keys;
      while left != {}
        invariant left <= guardrails.Keys
        invariant unused <==> forall s :: s in guardrails.Keys - left ==> !Names(q, s, guardrails[s])
        decreases |left|
      {
        var s :| s in left;
        left := left - {s};
        if Names(q, s, guardrails[s]) {
          unused := false;
        }
      }
    }

    /** `deleteUnused`, for a filter, a router or an MCP server. */
    method DropUnused(q: Request) returns (out: Outcome)
      requires q.DeleteFilter? || q.DeleteRouter? || q.DeleteServer?
      modifies this
      ensures (View(), out) == Handle(old(View()), q)
    {
      if q.DeleteFilter? {
        var unused := CheckFilterRouters(q.alias);
        if !unused {
          assert !Check(View(), q, 0);
          return Refused;
        }
      }
      var unused := CheckGuardrails(q);
      if !unused {
        assert !Check(View(), q, 1);
        return Refused;
      }
      out := if IsThere(View(), q) then Done else NotFound;
      if q.DeleteFilter? {
        filters := filters - {q.alias};
      } else if q.DeleteServer? {
        servers := servers - {q.alias};
      } else if q.alias in routers {
        routers := routers - {q.alias};
        guardrails := DisallowAll(guardrails, q.alias);
      }
    }

    /** Looks at each step in turn, and then at each model the steps read with. */
    method CheckSteps(alias: string, steps: seq<Step>) returns (ok: bool)
      ensures ok <==> Check(View(), PutRouter(alias, steps), 0) && Check(View(), PutRouter(alias, steps), 1)
                      && Check(View(), PutRouter(alias, steps), 2)
    {
      for i := 0 to |steps|
        invariant forall k :: 0 <= k < i ==> StepIsRight(View(), steps[k])
      {
        if !StepIsRight(View(), steps[i]) {
          return false;
        }
      }
      var left := Reads(steps);
      while left != {}
        invariant left <= Reads(steps)
        invariant forall a :: a in Reads(steps) - left ==> CanRead(View(), a, true) && MayRead(View(), a)
        decreases |left|
      {
        var a :| a in left;
        left := left - {a};
        if !CanRead(View(), a, true) || !MayRead(View(), a) {
          return false;
        }
      }
      ok := true;
    }

    method SaveRouter(alias: string, steps: seq<Step>, fits: bool) returns (out: Outcome)
      modifies this
      ensures (View(), out) == HandlePut(old(View()), PutRouter(alias, steps), fits)
    {
      ghost var q := PutRouter(alias, steps);
      if !fits {
        return Refused;
      }
      var right := CheckSteps(alias, steps);
      if !right {
        assert !Check(View(), q, 0) || !Check(View(), q, 1) || !Check(View(), q, 2);
        return Refused;
      }
      if alias in models {
        assert !Check(View(), q, 3);
        return Refused;
      }
      var found := alias in routers;
      routers := routers[alias := steps];
      AllowReaching(alias, Reaches(steps), found);
      out := Done;
    }

    /** A new router is allowed unless the list leaves out a model that it reaches. */
    method AllowReaching(alias: string, reaches: set<string>, found: bool)
      modifies this`guardrails
      ensures View() == if found || exists a :: a in reaches && !Allows(LimitsOf(old(View()), OrgScope), a) then old(View())
                        else AllowInOrg(old(View()), alias)
    {
      var lim := LimitsOf(View(), OrgScope);
      var left := reaches;
      while left != {}
        invariant left <= reaches && guardrails == old(guardrails)
        invariant forall a :: a in reaches - left ==> Allows(lim, a)
        decreases |left|
      {
        var a :| a in left;
        left := left - {a};
        if !Allows(lim, a) {
          return;
        }
      }
      if !found {
        AllowAlias(alias);
      }
    }

    method SaveGuardrail(scope: Scope, lim: Limits, fits: bool) returns (out: Outcome)
      modifies this
      ensures (View(), out) == HandlePut(old(View()), PutGuardrail(scope, lim), fits)
    {
      ghost var q := PutGuardrail(scope, lim);
      if !fits {
        return Refused;
      }
      var kept := KnownFilters(lim.filters, filters);
      if kept.None? {
        assert !Check(View(), q, 0);
        return Refused;
      }
      if scope == OrgScope {
        var allowed := CheckAllowList(lim);
        if !allowed {
          assert !Check(View(), q, 1) || !Check(View(), q, 2);
          return Refused;
        }
      }
      var tools := None;
      if lim.allowedTools.Some? {
        var entries := ServedTools(lim.allowedTools.value, servers);
        if entries.None? {
          assert !Check(View(), q, 3);
          return Refused;
        }
        tools := entries;
      }
      guardrails := guardrails[scope := Limits(lim.allowedModels, kept.value, tools, lim.allowedLocations)];
      out := Done;
    }
  }

  method KnownFilters(list: seq<string>, filters: map<string, Filter>) returns (kept: Option<seq<string>>)
    ensures kept == if forall a :: a in Kept(list) ==> a in filters then Some(Kept(list)) else None
  {
    var keep := [];
    for i := 0 to |list|
      invariant keep == KeptTo(list, i) && forall a :: a in keep ==> a in filters
    {
      var alias := Trim(list[i]);
      if alias == "" {
        continue;
      }
      if alias !in filters {
        assert alias in KeptTo(list, i + 1);
        KeptGrows(list, i + 1, |list|, alias);
        return None;
      }
      if alias !in keep {
        keep := keep + [alias];
      }
    }
    kept := Some(keep);
  }

  lemma {:induction false} KeptGrows(list: seq<string>, m: nat, n: nat, alias: string)
    requires m <= n <= |list| && alias in KeptTo(list, m)
    ensures alias in KeptTo(list, n)
  {
    if m < n { KeptGrows(list, m, n - 1, alias); }
  }

  /** Refuses an entry that is none at once, and entries of unknown servers at the end. */
  method ServedTools(list: seq<string>, servers: set<string>) returns (entries: Option<seq<string>>)
    ensures entries == if forall e :: e in TrimAll(list) ==> ValidToolEntry(e) && ServerOf(e) in servers
                       then Some(TrimAll(list)) else None
  {
    var trimmed := [];
    var unknown := false;
    for i := 0 to |list|
      invariant trimmed == TrimAll(list[..i]) && forall e :: e in trimmed ==> ValidToolEntry(e)
      invariant !unknown <==> forall e :: e in trimmed ==> ServerOf(e) in servers
    {
      assert list[..i + 1][..i] == list[..i];
      var e := Trim(list[i]);
      if !ValidToolEntry(e) {
        TrimmedIsIn(list, i);
        return None;
      }
      ghost var before := trimmed;
      trimmed := trimmed + [e];
      assert e in trimmed && forall x :: x in trimmed <==> x in before || x == e;
      if ServerOf(e) !in servers {
        unknown := true;
      }
    }
    assert list[..|list|] == list;
    entries := if unknown then None else Some(trimmed);
  }

  lemma {:induction false} TrimmedIsIn(list: seq<string>, i: nat)
    requires i < |list|
    ensures Trim(list[i]) in TrimAll(list)
  {
    if i < |list| - 1 {
      TrimmedIsIn(list[..|list| - 1], i);
    }
  }

  // Side by side.

  /** Who holds the lock: how many of its checks it has made, or that it has written. */
  datatype Holder = Free | Checking(q: Request, passed: nat) | Written(q: Request, found: bool)

  datatype World = World(org: Org, holder: Holder)

  datatype Action =
    | Lock(q: Request)
    | GoOn
    | Stop
    /** These take no lock. */
    | PutServer(alias: string)
    | DropScope(scope: Scope)
    | CopyKey(from: string, to: string)

  function Next(w: World, a: Action): World {
    match a
    case Lock(q) => if w.holder == Free then w.(holder := Checking(q, 0)) else w
    case GoOn =>
      (match w.holder
       case Free => w
       case Checking(q, passed) =>
         if passed < CHECKS then w.(holder := if Check(w.org, q, passed) then Checking(q, passed + 1) else Free)
         else World(Write(w.org, q), Written(q, Found(w.org, q)))
       case Written(q, found) => World(Follow(w.org, q, found), Free))
    case Stop => w.(holder := Free)
    case PutServer(alias) => w.(org := w.org.(servers := w.org.servers + {alias}))
    case DropScope(scope) =>
      if scope == OrgScope then w else w.(org := w.org.(guardrails := w.org.guardrails - {scope}))
    case CopyKey(from, to) =>
      if KeyScope(from) !in w.org.guardrails then w
      else w.(org := w.org.(guardrails := w.org.guardrails[KeyScope(to) := w.org.guardrails[KeyScope(from)]]))
  }

  const EMPTY := World(Org(map[], map[], map[], {}, map[]), Free)

  function Run(actions: seq<Action>): World {
    if actions == [] then EMPTY else Next(Run(actions[..|actions| - 1]), actions[|actions| - 1])
  }

  /** What the holder has checked still holds. */
  ghost predicate Holds(org: Org, holder: Holder) {
    holder.Checking? ==> forall i :: 0 <= i < holder.passed ==> Check(org, holder.q, i)
  }

  ghost predicate Unlocked(a: Action) { a.PutServer? || a.DropScope? || a.CopyKey? }

  lemma UnlockedKeepsSound(w: World, a: Action)
    requires Sound(w.org) && Unlocked(a)
    ensures Sound(Next(w, a).org)
  {
    var was, now := w.org, Next(w, a).org;
    assert LimitsOf(now, OrgScope) == LimitsOf(was, OrgScope);
    forall s | s in now.guardrails ensures ToolsServed(now.guardrails[s], now.servers) {
      if a.CopyKey? && s == KeyScope(a.to) && KeyScope(a.from) in was.guardrails {
        assert ToolsServed(was.guardrails[KeyScope(a.from)], was.servers);
      } else {
        assert ToolsServed(was.guardrails[s], was.servers);
      }
    }
  }

  /** A guardrail that a write without the lock leaves is one that was there, at a scope of the same kind. */
  lemma UnlockedGuardrails(w: World, a: Action, s: Scope) returns (from: Scope)
    requires Unlocked(a) && s in Next(w, a).org.guardrails
    ensures from in w.org.guardrails && Next(w, a).org.guardrails[s] == w.org.guardrails[from]
    ensures from == OrgScope <==> s == OrgScope
  {
    from := if a.CopyKey? && s == KeyScope(a.to) && KeyScope(a.from) in w.org.guardrails then KeyScope(a.from) else s;
  }

  /** A write without the lock undoes no check. */
  lemma UnlockedKeepsCheck(w: World, a: Action, q: Request, i: nat)
    requires Unlocked(a) && Check(w.org, q, i)
    ensures Check(Next(w, a).org, q, i)
  {
    var was, now := w.org, Next(w, a).org;
    assert LimitsOf(now, OrgScope) == LimitsOf(was, OrgScope);
    if i == 1 && (q.DeleteFilter? || q.DeleteRouter? || q.DeleteServer?) {
      forall s | s in now.guardrails ensures !Names(q, s, now.guardrails[s]) {
        var from := UnlockedGuardrails(w, a, s);
        assert !Names(q, from, was.guardrails[from]);
      }
    }
  }

  lemma NextKeeps(w: World, a: Action)
    requires Sound(w.org) && Holds(w.org, w.holder)
    ensures Sound(Next(w, a).org) && Holds(Next(w, a).org, Next(w, a).holder)
  {
    if Unlocked(a) {
      UnlockedKeepsSound(w, a);
      if w.holder.Checking? {
        forall i | 0 <= i < w.holder.passed ensures Check(Next(w, a).org, w.holder.q, i) {
          UnlockedKeepsCheck(w, a, w.holder.q, i);
        }
      }
    } else if a == GoOn {
      match w.holder {
        case Checking(q, passed) => if passed >= CHECKS { WriteKeepsSound(w.org, q); }
        case Written(q, found) => FollowKeepsSound(w.org, q, found);
        case Free =>
      }
    }
  }

  /** Over every interleaving the catalogue is sound. */
  lemma {:induction false} Reachable(actions: seq<Action>)
    ensures Sound(Run(actions).org) && Holds(Run(actions).org, Run(actions).holder)
  {
    if actions != [] {
      Reachable(actions[..|actions| - 1]);
      NextKeeps(Run(actions[..|actions| - 1]), actions[|actions| - 1]);
    }
  }

  /** A handler that nothing interrupts leaves what it would alone. */
  lemma HandledAlone(w: World, q: Request)
    requires w.holder == Free
    ensures var locked := Next(w, Lock(q));
            var end := Next(Next(Next(Next(Next(Next(locked, GoOn), GoOn), GoOn), GoOn), GoOn), GoOn);
            end == World(Handle(w.org, q).0, Free)
  {
    var locked := Next(w, Lock(q));
    var one := Next(locked, GoOn);
    var two := Next(one, GoOn);
    var three := Next(two, GoOn);
    var four := Next(three, GoOn);
    assert Check(w.org, q, 0) && Check(w.org, q, 1) && Check(w.org, q, 2) && Check(w.org, q, 3) <==>
           !(exists i :: 0 <= i < CHECKS && !Check(w.org, q, i));
  }

  // What it means.

  ghost function OrgList(org: Org): Option<seq<string>> {
    if OrgScope in org.guardrails then org.guardrails[OrgScope].allowedModels else None
  }

  ghost predicate IsModel(org: Org, a: string) { a in org.models && !org.models[a].subscription }

  ghost predicate IsListed(org: Org, a: string) { OrgList(org).Some? ==> a in OrgList(org).value }

  ghost predicate FilterNames(org: Org, f: Filter) {
    f.mode != Pattern && f.model != "" ==> IsModel(org, f.model) && IsListed(org, f.model)
  }

  ghost predicate RouterNames(org: Org, steps: seq<Step>) {
    forall i :: 0 <= i < |steps| ==>
      && (forall a :: StepUses(steps[i], a) ==> IsModel(org, a))
      && (forall a :: StepDecidesWith(steps[i], a) ==> IsListed(org, a))
      && (steps[i].kind == FilterStep ==> steps[i].ref in org.filters)
  }

  ghost predicate GuardrailNames(org: Org, lim: Limits) {
    && (forall a :: a in lim.filters ==> a in org.filters)
    && (lim.allowedTools.Some? ==> forall e :: e in lim.allowedTools.value ==> ServerOf(e) in org.servers)
  }

  lemma RouterMeans(org: Org, steps: seq<Step>)
    requires forall a :: a in Models(steps) ==> Usable(org.models, a)
    requires forall a :: a in Reads(steps) ==> Allows(LimitsOf(org, OrgScope), a)
    requires forall a :: a in Filters(steps) ==> a in org.filters
    ensures RouterNames(org, steps)
  {
    forall i, a | 0 <= i < |steps|
      ensures StepUses(steps[i], a) ==> IsModel(org, a)
      ensures StepDecidesWith(steps[i], a) ==> IsListed(org, a)
      ensures steps[i].kind == FilterStep && steps[i].ref == a ==> a in org.filters
    {
      StepsName(steps, a);
    }
  }

  /** Over every run each filter, each router and each guardrail names what is there, what reads requests is on the
  organisation's list, and no alias is a model's and a router's. */
  lemma ReachableMeans(actions: seq<Action>)
    ensures var org := Run(actions).org;
            && (forall f :: f in org.filters ==> FilterNames(org, org.filters[f]))
            && (forall r :: r in org.routers ==> RouterNames(org, org.routers[r]))
            && (forall s :: s in org.guardrails ==> GuardrailNames(org, org.guardrails[s]))
            && org.models.Keys !! org.routers.Keys
  {
    Reachable(actions);
    var org := Run(actions).org;
    forall r | r in org.routers ensures RouterNames(org, org.routers[r]) {
      RouterMeans(org, org.routers[r]);
    }
    forall s | s in org.guardrails ensures GuardrailNames(org, org.guardrails[s]) {
      assert ToolsServed(org.guardrails[s], org.servers);
    }
  }

  // What each handler does.

  /** Of all guardrails, only the organisation's list of models may have changed, and to this. */
  ghost predicate OnlyListChanged(was: Org, now: Org, list: Option<seq<string>>) {
    && now.guardrails.Keys == was.guardrails.Keys && OrgList(now) == list
    && (forall s :: s in was.guardrails && s != OrgScope ==> now.guardrails[s] == was.guardrails[s])
    && (OrgScope in was.guardrails ==> now.guardrails[OrgScope] == was.guardrails[OrgScope].(allowedModels := list))
  }

  /** No filter runs the model, and no step of a router uses it. */
  ghost predicate NothingUses(org: Org, alias: string) {
    && (forall f :: f in org.filters ==> !(org.filters[f].mode != Pattern && org.filters[f].model == alias))
    && (forall r, i :: r in org.routers && 0 <= i < |org.routers[r]| ==> !StepUses(org.routers[r][i], alias))
  }

  lemma UnusedMeans(org: Org, alias: string)
    requires alias != ""
    ensures ModelUnused(org, alias) <==> NothingUses(org, alias)
  {
    forall r | r in org.routers
      ensures alias in Models(org.routers[r]) <==> exists i :: 0 <= i < |org.routers[r]| && StepUses(org.routers[r][i], alias)
    {
      StepsName(org.routers[r], alias);
    }
  }

  lemma Handles(org: Org, q: Request)
    ensures Handle(org, q).1 == Refused <==> !(Check(org, q, 0) && Check(org, q, 1) && Check(org, q, 2) && Check(org, q, 3))
    ensures Handle(org, q).1 == Refused ==> Handle(org, q).0 == org
    ensures Handle(org, q).1 != Refused ==> Handle(org, q).0 == Follow(Write(org, q), q, Found(org, q))
  {
    if exists i :: 0 <= i < CHECKS && !Check(org, q, i) {
      var i :| 0 <= i < CHECKS && !Check(org, q, i);
      assert i == 0 || i == 1 || i == 2 || i == 3;
    }
  }

  /** A model is saved unless its alias is a router's or it becomes a subscription in use. A new one is put on the
  organisation's list of models, if there is one, and nothing else of the list changes. */
  lemma SavesModel(org: Org, alias: string, m: Model)
    requires alias != ""
    ensures var (now, out) := Handle(org, PutModel(alias, m));
            var list := OrgList(org);
            && (out == Done <==> (alias in org.models || alias !in org.routers) && (m.subscription ==> NothingUses(org, alias)))
            && (out != Done ==> now == org)
            && (out == Done ==>
                  && now.models == org.models[alias := m]
                  && now.filters == org.filters && now.routers == org.routers && now.servers == org.servers
                  && OnlyListChanged(org, now, if list.Some? && alias !in org.models && alias !in list.value
                                               then Some(list.value + [alias]) else list))
  {
    UnusedMeans(org, alias);
    Handles(org, PutModel(alias, m));
  }

  /** A step names filters and models that are there; a model to send to is a chat model that is no subscription. */
  ghost predicate StepNames(org: Org, s: Step) {
    match s.kind
    case FilterStep => s.ref in org.filters && s.model == "" && s.destinations == []
    case ModelStep =>
      s.ref in org.models && org.models[s.ref].kind == Chat && !org.models[s.ref].subscription && s.model == "" && s.destinations == []
    case RouteStep =>
      && (s.decides <==> s.model != "")
      && forall d :: d in s.destinations ==> d in org.models && org.models[d].kind == Chat && !org.models[d].subscription
    case OtherStep => s.ref == "" && s.model == "" && s.destinations == []
  }

  /** The model may read requests before anything is redacted: it writes or, to choose, decides, is no subscription, and is
  and runs where the organisation allows. */
  ghost predicate Reader(org: Org, a: string, choice: bool) {
    && a in org.models && !org.models[a].subscription
    && (org.models[a].kind == Chat || (choice && org.models[a].kind == Decision))
    && (OrgList(org).Some? ==> a in OrgList(org).value)
    && (OrgScope in org.guardrails && org.guardrails[OrgScope].allowedLocations.Some? ==>
          org.models[a].location in org.guardrails[OrgScope].allowedLocations.value)
  }

  /** A router is saved exactly when its steps name what is there, what decides may read, and its alias is no model's. A new
  one is put on a list that lacks it exactly when every model it can end at is on it, and nothing else of the list
  changes. */
  lemma SavesRouter(org: Org, alias: string, steps: seq<Step>)
    ensures var (now, out) := Handle(org, PutRouter(alias, steps));
            var list := OrgList(org);
            && (out == Done <==>
                  && (forall i :: 0 <= i < |steps| ==> StepNames(org, steps[i]))
                  && (forall i, a :: 0 <= i < |steps| && StepDecidesWith(steps[i], a) ==> Reader(org, a, true))
                  && alias !in org.models)
            && (out != Done ==> now == org)
            && (out == Done ==>
                  && now.routers == org.routers[alias := steps]
                  && now.filters == org.filters && now.models == org.models && now.servers == org.servers
                  && OnlyListChanged(org, now, if list.Some? && alias !in org.routers && alias !in list.value && EndsWithin(steps, list.value)
                                               then Some(list.value + [alias]) else list))
  {
    var q := PutRouter(alias, steps);
    Handles(org, q);
    ReadersMean(org, steps);
    EndsMean(org, steps);
    assert forall i :: 0 <= i < |steps| ==> (StepIsRight(org, steps[i]) <==> StepNames(org, steps[i]));
  }

  ghost predicate EndsWithin(steps: seq<Step>, list: seq<string>) {
    forall i, a :: 0 <= i < |steps| && StepEndsAt(steps[i], a) ==> a in list
  }

  lemma ReadersMean(org: Org, steps: seq<Step>)
    ensures (forall a :: a in Reads(steps) ==> CanRead(org, a, true) && MayRead(org, a)) <==>
              forall i, a :: 0 <= i < |steps| && StepDecidesWith(steps[i], a) ==> Reader(org, a, true)
  {
    forall a ensures a in Reads(steps) <==> exists i :: 0 <= i < |steps| && StepDecidesWith(steps[i], a) { StepsName(steps, a); }
    assert forall a :: CanRead(org, a, true) && MayRead(org, a) <==> Reader(org, a, true);
  }

  lemma EndsMean(org: Org, steps: seq<Step>)
    ensures OrgList(org).Some? ==>
              (EndsWithin(steps, OrgList(org).value) <==> forall a :: a in Reaches(steps) ==> Allows(LimitsOf(org, OrgScope), a))
    ensures OrgList(org).None? ==> forall a :: Allows(LimitsOf(org, OrgScope), a)
  {
    if OrgList(org).Some? {
      var list, lim := OrgList(org).value, LimitsOf(org, OrgScope);
      if EndsWithin(steps, list) {
        forall a | a in Reaches(steps) ensures Allows(lim, a) {
          StepsName(steps, a);
        }
      }
      if forall a :: a in Reaches(steps) ==> Allows(lim, a) {
        forall i, a | 0 <= i < |steps| && StepEndsAt(steps[i], a) ensures a in list {
          StepsName(steps, a);
          assert Allows(lim, a);
        }
      }
    }
  }

  lemma RefusesUnused(org: Org, q: Request)
    requires q.DeleteFilter? || q.DeleteRouter? || q.DeleteServer?
    ensures Handle(org, q).1 == Refused <==> !(Check(org, q, 0) && NoneNames(org.guardrails, q))
    ensures Handle(org, q).1 == Refused ==> Handle(org, q).0 == org
    ensures Handle(org, q).1 != Refused ==> Handle(org, q).0 == Write(org, q)
  {
    Handles(org, q);
  }

  /** The organisation's lists of models without an alias, and everything else as it was. */
  ghost predicate OffEveryList(was: map<Scope, Limits>, now: map<Scope, Limits>, alias: string) {
    && now.Keys == was.Keys
    && forall s :: s in was ==>
         && now[s] == was[s].(allowedModels := now[s].allowedModels)
         && (now[s].allowedModels.Some? <==> was[s].allowedModels.Some?)
         && (was[s].allowedModels.Some? ==>
               forall a :: a in now[s].allowedModels.value <==> a in was[s].allowedModels.value && a != alias)
  }

  /** A model is deleted unless something uses it, and comes off every list. */
  lemma DeletesModel(org: Org, alias: string)
    requires alias != ""
    ensures var (now, out) := Handle(org, DeleteModel(alias));
            && (out == Refused <==> !NothingUses(org, alias))
            && (out == Done <==> NothingUses(org, alias) && alias in org.models)
            && (out != Done ==> now == org)
            && (out == Done ==>
                  && now.models == org.models - {alias} && OffEveryList(org.guardrails, now.guardrails, alias)
                  && now.filters == org.filters && now.routers == org.routers && now.servers == org.servers)
  {
    UnusedMeans(org, alias);
    Handles(org, DeleteModel(alias));
  }

  /** A filter that runs no model is saved as it is, and any other exactly when its model may read. */
  lemma SavesFilter(org: Org, alias: string, f: Filter)
    ensures var (now, out) := Handle(org, PutFilter(alias, f));
            && (out == Done <==> if f.mode == Pattern then f.model == "" else f.model != "" && Reader(org, f.model, f.mode == Gate))
            && now == if out == Done then org.(filters := org.filters[alias := f]) else org
  {
    Handles(org, PutFilter(alias, f));
  }

  /** A filter is deleted unless a step applies it or a guardrail names it. */
  lemma DeletesFilter(org: Org, alias: string)
    ensures var (now, out) := Handle(org, DeleteFilter(alias));
            var unused := (forall r :: r in org.routers ==> AppliesNot(org.routers[r], alias))
                       && (forall s :: s in org.guardrails ==> alias !in org.guardrails[s].filters);
            && (out == Refused <==> !unused) && (out == Done <==> unused && alias in org.filters)
            && now == if out == Done then org.(filters := org.filters - {alias}) else org
  {
    RefusesUnused(org, DeleteFilter(alias));
    forall r | r in org.routers ensures AppliesNot(org.routers[r], alias) <==> alias !in Filters(org.routers[r]) {
      StepsName(org.routers[r], alias);
    }
    assert alias !in org.filters ==> org.filters - {alias} == org.filters;
    assert NoneNames(org.guardrails, DeleteFilter(alias)) <==>
           forall s :: s in org.guardrails ==> alias !in org.guardrails[s].filters;
  }

  ghost predicate AppliesNot(steps: seq<Step>, alias: string) {
    forall i :: 0 <= i < |steps| ==> !(steps[i].kind == FilterStep && steps[i].ref == alias)
  }

  /** A list of models stands in the way of deleting a router that it names, but for an organisation's that names more. */
  ghost predicate ListKeeps(s: Scope, lim: Limits, alias: string) {
    lim.allowedModels.Some? && alias in lim.allowedModels.value && !(s == OrgScope && |lim.allowedModels.value| != 1)
  }

  /** A router is deleted unless a list stands in its way, and it comes off the organisation's. */
  lemma DeletesRouter(org: Org, alias: string)
    ensures var (now, out) := Handle(org, DeleteRouter(alias));
            var unused := forall s :: s in org.guardrails ==> !ListKeeps(s, org.guardrails[s], alias);
            && (out == Refused <==> !unused) && (out == Done <==> unused && alias in org.routers)
            && (out != Done ==> now == org)
            && (out == Done ==>
                  && now.routers == org.routers - {alias} && OffEveryList(org.guardrails, now.guardrails, alias)
                  && now.filters == org.filters && now.models == org.models && now.servers == org.servers)
  {
    var q := DeleteRouter(alias);
    RefusesUnused(org, q);
    forall s | s in org.guardrails ensures Names(q, s, org.guardrails[s]) <==> ListKeeps(s, org.guardrails[s], alias) {}
  }

  /** A list of tools names a server or one of its tools. */
  ghost predicate ToolsKeep(lim: Limits, alias: string) {
    lim.allowedTools.Some? && exists i :: 0 <= i < |lim.allowedTools.value| && ServerOf(lim.allowedTools.value[i]) == alias
  }

  /** A server is deleted unless a list of tools names it. */
  lemma DeletesServer(org: Org, alias: string)
    ensures var (now, out) := Handle(org, DeleteServer(alias));
            var unused := forall s :: s in org.guardrails ==> !ToolsKeep(org.guardrails[s], alias);
            && (out == Refused <==> !unused) && (out == Done <==> unused && alias in org.servers)
            && now == if out == Done then org.(servers := org.servers - {alias}) else org
  {
    var q := DeleteServer(alias);
    RefusesUnused(org, q);
    assert alias !in org.servers ==> org.servers - {alias} == org.servers;
    forall s | s in org.guardrails ensures Names(q, s, org.guardrails[s]) <==> ToolsKeep(org.guardrails[s], alias) {
      ServerIsNamed(s, org.guardrails[s], alias);
    }
  }

  lemma ServerIsNamed(s: Scope, lim: Limits, alias: string)
    ensures Names(DeleteServer(alias), s, lim) <==> ToolsKeep(lim, alias)
  {
    if lim.allowedTools.Some? {
      var list := lim.allowedTools.value;
      if e :| e in list && ServerOf(e) == alias {
        var i :| 0 <= i < |list| && list[i] == e;
        assert ServerOf(list[i]) == alias;
      }
      if i :| 0 <= i < |list| && ServerOf(list[i]) == alias {
        assert list[i] in list;
      }
    }
  }

  /** A guardrail is stored exactly when the filters it names are there, its tools are entries of servers that are there,
  and, for the organisation, its list holds every model that reads. It is stored tidied, and nothing else changes. */
  lemma SavesGuardrail(org: Org, scope: Scope, lim: Limits)
    ensures var (now, out) := Handle(org, PutGuardrail(scope, lim));
            && (out == Done <==>
                  && (forall i :: 0 <= i < |lim.filters| && Trim(lim.filters[i]) != "" ==> Trim(lim.filters[i]) in org.filters)
                  && (lim.allowedTools.Some? ==> ToolsAreThere(org, lim.allowedTools.value))
                  && (scope == OrgScope && lim.allowedModels.Some? ==> ReadersAreOn(org, lim.allowedModels.value)))
            && (out != Done ==> now == org)
            && (out == Done ==>
                  && scope in now.guardrails && IsTidied(lim, now.guardrails[scope])
                  && now == org.(guardrails := org.guardrails[scope := now.guardrails[scope]]))
  {
    Handles(org, PutGuardrail(scope, lim));
    KeptIs(lim.filters, |lim.filters|);
    if lim.allowedTools.Some? {
      ToolsMean(org, lim.allowedTools.value);
    }
    if lim.allowedModels.Some? { ReadersMeanListed(org, lim); }
  }

  ghost predicate ToolsAreThere(org: Org, tools: seq<string>) {
    forall i :: 0 <= i < |tools| ==> ValidToolEntry(Trim(tools[i])) && ServerOf(Trim(tools[i])) in org.servers
  }

  lemma ToolsMean(org: Org, tools: seq<string>)
    ensures |TrimAll(tools)| == |tools| && forall i :: 0 <= i < |tools| ==> TrimAll(tools)[i] == Trim(tools[i])
    ensures (forall e :: e in TrimAll(tools) ==> ValidToolEntry(e) && ServerOf(e) in org.servers) <==> ToolsAreThere(org, tools)
  {
    TrimAllIs(tools);
    forall i | 0 <= i < |tools| ensures Trim(tools[i]) in TrimAll(tools) { assert TrimAll(tools)[i] == Trim(tools[i]); }
  }

  /** The list holds the model of every filter that runs one, and of every step that decides with one. */
  ghost predicate ReadersAreOn(org: Org, list: seq<string>) {
    && (forall f :: f in org.filters && org.filters[f].mode != Pattern && org.filters[f].model != "" ==> org.filters[f].model in list)
    && (forall r :: r in org.routers ==> DecidersAreOn(org.routers[r], list))
  }

  ghost predicate DecidersAreOn(steps: seq<Step>, list: seq<string>) {
    forall i, a :: 0 <= i < |steps| && StepDecidesWith(steps[i], a) ==> a in list
  }

  lemma ReadersMeanListed(org: Org, lim: Limits)
    requires lim.allowedModels.Some?
    ensures ReadersAreOn(org, lim.allowedModels.value) <==>
              && (forall f :: f in org.filters && ReadsWith(org.filters[f]) != "" ==> Allows(lim, ReadsWith(org.filters[f])))
              && (forall r :: r in org.routers ==> forall a :: a in Reads(org.routers[r]) ==> Allows(lim, a))
  {
    forall r | r in org.routers
      ensures DecidersAreOn(org.routers[r], lim.allowedModels.value) <==>
                forall a :: a in Reads(org.routers[r]) ==> Allows(lim, a)
    {
      DecidersMean(org.routers[r], lim);
    }
  }

  lemma DecidersMean(steps: seq<Step>, lim: Limits)
    requires lim.allowedModels.Some?
    ensures DecidersAreOn(steps, lim.allowedModels.value) <==> forall a :: a in Reads(steps) ==> Allows(lim, a)
  {
    var list := lim.allowedModels.value;
    if DecidersAreOn(steps, list) {
      forall a | a in Reads(steps) ensures Allows(lim, a) {
        StepsName(steps, a);
      }
    }
    if forall a :: a in Reads(steps) ==> Allows(lim, a) {
      forall i, a | 0 <= i < |steps| && StepDecidesWith(steps[i], a) ensures a in list {
        StepsName(steps, a);
        assert Allows(lim, a);
      }
    }
  }

  /** The filters trimmed, none blank and none twice; the tools trimmed; the lists of models and locations as they are. */
  ghost predicate IsTidied(lim: Limits, tidied: Limits) {
    && tidied.allowedModels == lim.allowedModels && tidied.allowedLocations == lim.allowedLocations
    && (forall a :: a in tidied.filters <==> a != "" && exists i :: 0 <= i < |lim.filters| && Trim(lim.filters[i]) == a)
    && (forall i, j :: 0 <= i < j < |tidied.filters| ==> tidied.filters[i] != tidied.filters[j])
    && (tidied.allowedTools.Some? <==> lim.allowedTools.Some?)
    && (lim.allowedTools.Some? ==>
          && |tidied.allowedTools.value| == |lim.allowedTools.value|
          && forall i :: 0 <= i < |lim.allowedTools.value| ==>
               tidied.allowedTools.value[i] == Trim(lim.allowedTools.value[i]))
  }

  // What the lock and the different aliases are for.

  /** Both checks pass, and the two writes together leave a filter on a model that is gone. */
  lemma LockIsNeeded()
    ensures var org := Org(map["m" := Model(Chat, false, "ch")], map[], map[], {}, map[]);
            var deletes, uses := DeleteModel("m"), PutFilter("f", Filter(Gate, "m"));
            Sound(org) && Checked(org, deletes) && Checked(org, uses)
            && !Sound(Write(Write(org, deletes), uses)) && !Sound(Write(Write(org, uses), deletes))
  {
    var org := Org(map["m" := Model(Chat, false, "ch")], map[], map[], {}, map[]);
    var after := Write(Write(org, DeleteModel("m")), PutFilter("f", Filter(Gate, "m")));
    assert "f" in after.filters && ReadsWith(after.filters["f"]) == "m" && "m" !in after.models;
    var other := Write(Write(org, PutFilter("f", Filter(Gate, "m"))), DeleteModel("m"));
    assert "f" in other.filters && ReadsWith(other.filters["f"]) == "m" && "m" !in other.models;
  }

  /** Were a router to share its alias with a model, deleting it could take a reader's model off the list. */
  lemma AliasesMustDiffer()
    ensures var lim := Limits(Some(["m", "n"]), [], None, None);
            var org := Org(map["m" := Model(Chat, false, "ch")], map["f" := Filter(Gate, "m")], map["m" := []], {}, map[OrgScope := lim]);
            && FiltersAllowed(org.filters, LimitsOf(org, OrgScope)) && Checked(org, DeleteRouter("m"))
            && var after := Write(org, DeleteRouter("m"));
               !FiltersAllowed(after.filters, LimitsOf(after, OrgScope))
  {
    var lim := Limits(Some(["m", "n"]), [], None, None);
    var org := Org(map["m" := Model(Chat, false, "ch")], map["f" := Filter(Gate, "m")], map["m" := []], {}, map[OrgScope := lim]);
    var after := Write(org, DeleteRouter("m"));
    assert "f" in after.filters && ReadsWith(after.filters["f"]) == "m";
    assert LimitsOf(after, OrgScope) == Disallow(lim, "m");
    assert "m" !in Without(["m", "n"], "m");
  }
}
