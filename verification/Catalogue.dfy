/** What refers to what in an organisation's catalogue (internal/control/models.go, filters.go, routers.go, hooks.go,
mcp.go and policy.go; the store's part is internal/store/guardrails.go and routers.go).

Models, filters, routers, MCP servers and guardrails name each other. A handler that changes one makes its checks of the
others under a lock, one at a time, and then writes. `Sound` is what every interleaving of handlers keeps (`Reachable` in
CatalogueRuns.dfy).
*/
module Catalogue {
  import opened Text

  // What there is.

  datatype ModelKind = Chat | Decision | OtherKind
  datatype Model = Model(kind: ModelKind, subscription: bool, location: string)

  datatype FilterMode = Rewrite | Gate | Pattern
  datatype Filter = Filter(mode: FilterMode, model: string)

  /** The model a filter reads with; empty for a pattern filter, which runs none. */
  function ReadsWith(f: Filter): string { if f.mode == Pattern then "" else f.model }

  datatype StepKind = FilterStep | RouteStep | ModelStep | OtherStep

  /** A step of a router. `decides` is the mode that asks `model` to choose a destination, and `branched` are the
  destinations that steps follow. */
  datatype Step = Step(
    kind: StepKind, ref: string, decides: bool, model: string, destinations: seq<string>, branched: set<string>)

  /** The model a step reads with. */
  function StepReads(s: Step): set<string> {
    if s.kind == RouteStep && s.decides && s.model != "" then {s.model} else {}
  }

  /** The models a step uses: to send to and to decide with. */
  function StepModels(s: Step): set<string> {
    match s.kind
    case ModelStep => {s.ref}
    case RouteStep => (set d | d in s.destinations) + (if s.model == "" then {} else {s.model})
    case _ => {}
  }

  function StepFilters(s: Step): set<string> { if s.kind == FilterStep then {s.ref} else {} }

  /** The models a request can end at in a step. */
  function StepReaches(s: Step): set<string> {
    match s.kind
    case ModelStep => {s.ref}
    case RouteStep => set d | d in s.destinations && d !in s.branched
    case _ => {}
  }

  // Over all steps of a router, in the order of its walk.

  function Reads(steps: seq<Step>): set<string> {
    if steps == [] then {} else StepReads(steps[0]) + Reads(steps[1..])
  }

  function Models(steps: seq<Step>): set<string> {
    if steps == [] then {} else StepModels(steps[0]) + Models(steps[1..])
  }

  function Reaches(steps: seq<Step>): set<string> {
    if steps == [] then {} else StepReaches(steps[0]) + Reaches(steps[1..])
  }

  function Filters(steps: seq<Step>): set<string> {
    if steps == [] then {} else StepFilters(steps[0]) + Filters(steps[1..])
  }

  /** A model step sends to its model, and a route step to its destinations; a route step may name a model to decide. */
  ghost predicate StepUses(s: Step, a: string) {
    || (s.kind == ModelStep && s.ref == a)
    || (s.kind == RouteStep && (a in s.destinations || (s.model == a && a != "")))
  }

  ghost predicate StepDecidesWith(s: Step, a: string) { s.kind == RouteStep && s.decides && s.model == a && a != "" }

  /** A request ends at a model step, or at a destination that no steps follow. */
  ghost predicate StepEndsAt(s: Step, a: string) {
    (s.kind == ModelStep && s.ref == a) || (s.kind == RouteStep && a in s.destinations && a !in s.branched)
  }

  /** What a router uses, reads with, applies and can end at, step by step. */
  lemma StepsName(steps: seq<Step>, a: string)
    ensures a in Models(steps) <==> exists i :: 0 <= i < |steps| && StepUses(steps[i], a)
    ensures a in Reads(steps) <==> exists i :: 0 <= i < |steps| && StepDecidesWith(steps[i], a)
    ensures a in Filters(steps) <==> exists i :: 0 <= i < |steps| && steps[i].kind == FilterStep && steps[i].ref == a
    ensures a in Reaches(steps) <==> exists i :: 0 <= i < |steps| && StepEndsAt(steps[i], a)
  {
    StepsAsk(steps, a);
    StepsEnd(steps, a);
  }

  lemma {:induction false} StepsAsk(steps: seq<Step>, a: string)
    ensures a in Models(steps) <==> exists i :: 0 <= i < |steps| && StepUses(steps[i], a)
    ensures a in Reads(steps) <==> exists i :: 0 <= i < |steps| && StepDecidesWith(steps[i], a)
  {
    if steps != [] {
      StepsAsk(steps[1..], a);
      assert forall i :: 1 <= i < |steps| ==> steps[i] == steps[1..][i - 1];
      assert forall i :: 0 <= i < |steps[1..]| ==> steps[1..][i] == steps[i + 1];
    }
  }

  lemma {:induction false} StepsEnd(steps: seq<Step>, a: string)
    ensures a in Filters(steps) <==> exists i :: 0 <= i < |steps| && steps[i].kind == FilterStep && steps[i].ref == a
    ensures a in Reaches(steps) <==> exists i :: 0 <= i < |steps| && StepEndsAt(steps[i], a)
  {
    if steps != [] {
      StepsEnd(steps[1..], a);
      assert forall i :: 1 <= i < |steps| ==> steps[i] == steps[1..][i - 1];
      assert forall i :: 0 <= i < |steps[1..]| ==> steps[1..][i] == steps[i + 1];
    }
  }

  datatype Scope = OrgScope | ProjectScope(id: string) | KeyScope(id: string)

  /** A list that is not set allows everything. */
  datatype Limits = Limits(
    allowedModels: Option<seq<string>>, filters: seq<string>, allowedTools: Option<seq<string>>,
    allowedLocations: Option<seq<string>>)

  const NO_LIMITS := Limits(None, [], None, None)

  datatype Org = Org(
    models: map<string, Model>, filters: map<string, Filter>, routers: map<string, seq<Step>>, servers: set<string>,
    guardrails: map<Scope, Limits>)

  function LimitsOf(org: Org, scope: Scope): Limits {
    if scope in org.guardrails then org.guardrails[scope] else NO_LIMITS
  }

  /** The server of an entry of a tool allow-list, which is a server's alias or alias/tool. */
  function ServerOf(entry: string): string {
    if entry == "" || entry[0] == '/' then "" else [entry[0]] + ServerOf(entry[1..])
  }

  /** The tool of such an entry, if it names one. */
  function ToolOf(entry: string): Option<string> {
    if entry == "" then None else if entry[0] == '/' then Some(entry[1..]) else ToolOf(entry[1..])
  }

  const MAX_ALIAS := 64
  const MAX_TOOL := 128

  predicate ValidAlias(s: string) {
    && s != "" && |s| <= MAX_ALIAS
    && forall i :: 0 <= i < |s| ==>
         'a' <= s[i] <= 'z' || IsDigit(s[i]) || (s[i] == '-' && 0 < i < |s| - 1)
  }

  predicate ValidToolEntry(entry: string) {
    && ValidAlias(ServerOf(entry))
    && match ToolOf(entry)
       case None => true
       case Some(tool) => tool != "" && |tool| <= MAX_TOOL && ' ' !in tool && '\t' !in tool && '\n' !in tool
  }

  // What is kept.

  predicate Usable(models: map<string, Model>, alias: string) { alias in models && !models[alias].subscription }

  ghost predicate FiltersRead(filters: map<string, Filter>, models: map<string, Model>) {
    forall f :: f in filters && ReadsWith(filters[f]) != "" ==> Usable(models, ReadsWith(filters[f]))
  }

  ghost predicate RoutersUse(routers: map<string, seq<Step>>, models: map<string, Model>) {
    forall r, a :: r in routers && a in Models(routers[r]) ==> Usable(models, a)
  }

  ghost predicate RoutersFilter(routers: map<string, seq<Step>>, filters: map<string, Filter>) {
    forall r, a :: r in routers && a in Filters(routers[r]) ==> a in filters
  }

  ghost predicate GuardrailsFilter(guardrails: map<Scope, Limits>, filters: map<string, Filter>) {
    forall s, a :: s in guardrails && a in guardrails[s].filters ==> a in filters
  }

  ghost predicate ToolsServed(lim: Limits, servers: set<string>) {
    lim.allowedTools.Some? ==> forall e :: e in lim.allowedTools.value ==> ServerOf(e) in servers
  }

  ghost predicate GuardrailsTool(guardrails: map<Scope, Limits>, servers: set<string>) {
    forall s :: s in guardrails ==> ToolsServed(guardrails[s], servers)
  }

  ghost predicate AliasesDiffer(models: map<string, Model>, routers: map<string, seq<Step>>) {
    forall a :: a in models ==> a !in routers
  }

  predicate Allows(lim: Limits, alias: string) { lim.allowedModels.Some? ==> alias in lim.allowedModels.value }

  ghost predicate FiltersAllowed(filters: map<string, Filter>, lim: Limits) {
    forall f :: f in filters && ReadsWith(filters[f]) != "" ==> Allows(lim, ReadsWith(filters[f]))
  }

  ghost predicate RoutersAllowed(routers: map<string, seq<Step>>, lim: Limits) {
    forall r, a :: r in routers && a in Reads(routers[r]) ==> Allows(lim, a)
  }

  /** Every model, filter and server that is named is there, and what reads requests before anything is redacted runs only
  on models the organisation allows. */
  ghost predicate Sound(org: Org) {
    && FiltersRead(org.filters, org.models)
    && RoutersUse(org.routers, org.models) && RoutersFilter(org.routers, org.filters)
    && GuardrailsFilter(org.guardrails, org.filters) && GuardrailsTool(org.guardrails, org.servers)
    && AliasesDiffer(org.models, org.routers)
    && FiltersAllowed(org.filters, LimitsOf(org, OrgScope)) && RoutersAllowed(org.routers, LimitsOf(org, OrgScope))
  }

  // What is asked for.

  datatype Request =
    | PutModel(alias: string, model: Model)
    | DeleteModel(alias: string)
    | PutFilter(alias: string, filter: Filter)
    | DeleteFilter(alias: string)
    | PutRouter(alias: string, steps: seq<Step>)
    | DeleteRouter(alias: string)
    | DeleteServer(alias: string)
    | PutGuardrail(scope: Scope, limits: Limits)

  /** No filter and no router uses the model. */
  predicate ModelUnused(org: Org, alias: string) {
    && (forall f :: f in org.filters ==> ReadsWith(org.filters[f]) != alias)
    && (forall r :: r in org.routers ==> alias !in Models(org.routers[r]))
  }

  /** A model a filter or a deciding step can read with. */
  predicate CanRead(org: Org, alias: string, choice: bool) {
    && Usable(org.models, alias)
    && (org.models[alias].kind == Chat || (org.models[alias].kind == Decision && choice))
  }

  /** The organisation's allow-lists include the model and where it runs. */
  predicate MayRead(org: Org, alias: string) {
    var lim := LimitsOf(org, OrgScope);
    && Allows(lim, alias)
    && (lim.allowedLocations.Some? && alias in org.models ==> org.models[alias].location in lim.allowedLocations.value)
  }

  predicate CanAnswer(org: Org, alias: string) {
    Usable(org.models, alias) && org.models[alias].kind == Chat
  }

  /** What is wrong with a step's references, if anything. */
  predicate StepIsRight(org: Org, s: Step) {
    && (s.kind != RouteStep ==> s.model == "" && s.destinations == [])
    && match s.kind
       case FilterStep => s.ref in org.filters
       case ModelStep => CanAnswer(org, s.ref)
       case RouteStep => (s.decides <==> s.model != "") && forall d :: d in s.destinations ==> CanAnswer(org, d)
       case OtherStep => s.ref == ""
  }

  /** The first `n` filters a guardrail keeps: trimmed, none empty, none twice. */
  function KeptTo(filters: seq<string>, n: nat): seq<string>
    requires n <= |filters|
  {
    if n == 0 then []
    else
      var kept := KeptTo(filters, n - 1);
      var alias := Trim(filters[n - 1]);
      if alias == "" || alias in kept then kept else kept + [alias]
  }

  function Kept(filters: seq<string>): seq<string> { KeptTo(filters, |filters|) }

  /** A guardrail keeps each filter that is named, once. */
  lemma {:induction false} KeptIs(filters: seq<string>, n: nat)
    requires n <= |filters|
    ensures forall a :: a in KeptTo(filters, n) <==> a != "" && exists i :: 0 <= i < n && Trim(filters[i]) == a
    ensures forall i, j :: 0 <= i < j < |KeptTo(filters, n)| ==> KeptTo(filters, n)[i] != KeptTo(filters, n)[j]
  {
    if n > 0 {
      KeptIs(filters, n - 1);
      forall a ensures a in KeptTo(filters, n) <==> a != "" && exists i :: 0 <= i < n && Trim(filters[i]) == a {
        KeptHas(filters, n, a);
      }
    }
  }

  lemma {:induction false} KeptHas(filters: seq<string>, n: nat, a: string)
    requires n <= |filters|
    ensures a in KeptTo(filters, n) <==> a != "" && exists i :: 0 <= i < n && Trim(filters[i]) == a
  {
    if n > 0 {
      KeptHas(filters, n - 1, a);
      var alias := Trim(filters[n - 1]);
      if a == alias || exists i :: 0 <= i < n - 1 && Trim(filters[i]) == a {
        assert exists i :: 0 <= i < n && Trim(filters[i]) == a;
      }
    }
  }

  lemma {:induction false} TrimAllIs(entries: seq<string>)
    ensures |TrimAll(entries)| == |entries| && forall i :: 0 <= i < |entries| ==> TrimAll(entries)[i] == Trim(entries[i])
  {
    if entries != [] { TrimAllIs(entries[..|entries| - 1]); }
  }

  /** An entry is its server, or the server, a slash and the tool. */
  lemma {:induction false} EntryIs(entry: string)
    ensures '/' !in ServerOf(entry)
    ensures entry == ServerOf(entry) + match ToolOf(entry) case None => "" case Some(tool) => "/" + tool
  {
    if entry != "" && entry[0] != '/' { EntryIs(entry[1..]); }
  }

  function TrimAll(entries: seq<string>): seq<string> {
    if entries == [] then [] else TrimAll(entries[..|entries| - 1]) + [Trim(entries[|entries| - 1])]
  }

  function Tidied(lim: Limits): Limits {
    Limits(lim.allowedModels, Kept(lim.filters),
           if lim.allowedTools.None? then None else Some(TrimAll(lim.allowedTools.value)), lim.allowedLocations)
  }

  /** Whether a guardrail names what a request deletes. An organisation's own list names a router only while it is all that
  the list names, since the router is taken off it. */
  predicate Names(q: Request, s: Scope, lim: Limits) {
    match q
    case DeleteFilter(alias) => alias in lim.filters
    case DeleteRouter(alias) =>
      lim.allowedModels.Some? && alias in lim.allowedModels.value && (s != OrgScope || |lim.allowedModels.value| == 1)
    case DeleteServer(alias) => lim.allowedTools.Some? && exists e :: e in lim.allowedTools.value && ServerOf(e) == alias
    case _ => false
  }

  predicate NoneNames(guardrails: map<Scope, Limits>, q: Request) {
    forall s :: s in guardrails ==> !Names(q, s, guardrails[s])
  }

  /** The checks of a request, in their order; a request that has fewer passes the rest. */
  const CHECKS := 4

  predicate Check(org: Org, q: Request, i: nat) {
    match q
    case PutModel(alias, m) =>
      (i == 0 ==> alias in org.models || alias !in org.routers) && (i == 1 && m.subscription ==> ModelUnused(org, alias))
    case DeleteModel(alias) => i == 0 ==> ModelUnused(org, alias)
    case PutFilter(alias, f) =>
      if f.mode == Pattern then i == 0 ==> f.model == ""
      else (i == 0 ==> f.model != "" && CanRead(org, f.model, f.mode == Gate))
           && (i == 1 ==> MayRead(org, f.model))
    case DeleteFilter(alias) =>
      && (i == 0 ==> forall r :: r in org.routers ==> alias !in Filters(org.routers[r]))
      && (i == 1 ==> NoneNames(org.guardrails, q))
    case PutRouter(alias, steps) =>
      && (i == 0 ==> forall k :: 0 <= k < |steps| ==> StepIsRight(org, steps[k]))
      && (i == 1 ==> forall a :: a in Reads(steps) ==> CanRead(org, a, true))
      && (i == 2 ==> forall a :: a in Reads(steps) ==> MayRead(org, a))
      && (i == 3 ==> alias !in org.models)
    case DeleteRouter(alias) => i == 1 ==> NoneNames(org.guardrails, q)
    case DeleteServer(alias) => i == 1 ==> NoneNames(org.guardrails, q)
    case PutGuardrail(scope, lim) =>
      && (i == 0 ==> forall a :: a in Kept(lim.filters) ==> a in org.filters)
      && (i == 1 && scope == OrgScope ==>
            forall f :: f in org.filters && ReadsWith(org.filters[f]) != "" ==> Allows(lim, ReadsWith(org.filters[f])))
      && (i == 2 && scope == OrgScope ==>
            forall r :: r in org.routers ==> forall a :: a in Reads(org.routers[r]) ==> Allows(lim, a))
      && (i == 3 && lim.allowedTools.Some? ==>
            forall e :: e in TrimAll(lim.allowedTools.value) ==> ValidToolEntry(e) && ServerOf(e) in org.servers)
  }

  // What is written.

  function Without(list: seq<string>, alias: string): (kept: seq<string>)
    ensures forall a :: a in kept <==> a in list && a != alias
  {
    if list == [] then [] else (if list[0] == alias then [] else [list[0]]) + Without(list[1..], alias)
  }

  function Disallow(lim: Limits, alias: string): Limits {
    if lim.allowedModels.None? then lim else lim.(allowedModels := Some(Without(lim.allowedModels.value, alias)))
  }

  /** Takes an alias off every allow-list of the organisation. */
  function DisallowAll(guardrails: map<Scope, Limits>, alias: string): map<Scope, Limits> {
    map s | s in guardrails :: Disallow(guardrails[s], alias)
  }

  function Write(org: Org, q: Request): Org {
    match q
    case PutModel(alias, m) => org.(models := org.models[alias := m])
    case DeleteModel(alias) =>
      if alias !in org.models then org
      else org.(models := org.models - {alias}, guardrails := DisallowAll(org.guardrails, alias))
    case PutFilter(alias, f) => org.(filters := org.filters[alias := f])
    case DeleteFilter(alias) => org.(filters := org.filters - {alias})
    case PutRouter(alias, steps) => org.(routers := org.routers[alias := steps])
    case DeleteRouter(alias) =>
      if alias !in org.routers then org
      else org.(routers := org.routers - {alias}, guardrails := DisallowAll(org.guardrails, alias))
    case DeleteServer(alias) => org.(servers := org.servers - {alias})
    case PutGuardrail(scope, lim) => org.(guardrails := org.guardrails[scope := Tidied(lim)])
  }

  /** Adds an alias to the organisation's allow-list, if it keeps one. */
  function AllowInOrg(org: Org, alias: string): Org {
    var lim := LimitsOf(org, OrgScope);
    if lim.allowedModels.None? || alias in lim.allowedModels.value then org
    else org.(guardrails := org.guardrails[OrgScope := lim.(allowedModels := Some(lim.allowedModels.value + [alias]))])
  }

  /** What a new model or router is followed by. A router stays off a list that leaves out a model it sends to. */
  function Follow(org: Org, q: Request, found: bool): Org {
    match q
    case PutModel(alias, _) => if found then org else AllowInOrg(org, alias)
    case PutRouter(alias, steps) =>
      if found || exists a :: a in Reaches(steps) && !Allows(LimitsOf(org, OrgScope), a) then org
      else AllowInOrg(org, alias)
    case _ => org
  }

  function Found(org: Org, q: Request): bool {
    match q
    case PutModel(alias, _) => alias in org.models
    case PutRouter(alias, _) => alias in org.routers
    case _ => true
  }

  // Every write keeps the catalogue sound.

  ghost predicate Checked(org: Org, q: Request) { forall i :: 0 <= i < CHECKS ==> Check(org, q, i) }

  lemma {:induction false} StepsAreUsable(org: Org, steps: seq<Step>)
    requires forall k :: 0 <= k < |steps| ==> StepIsRight(org, steps[k])
    requires forall a :: a in Reads(steps) ==> CanRead(org, a, true)
    ensures forall a :: a in Models(steps) ==> Usable(org.models, a)
    ensures forall a :: a in Filters(steps) ==> a in org.filters
  {
    if steps != [] {
      StepsAreUsable(org, steps[1..]);
      var s := steps[0];
      assert StepIsRight(org, s);
      forall a | a in StepModels(s) ensures Usable(org.models, a) {
        if s.kind == RouteStep && a !in s.destinations {
          assert a in Reads(steps);
        }
      }
    }
  }

  lemma PutModelKeeps(org: Org, alias: string, m: Model)
    requires Sound(org) && Checked(org, PutModel(alias, m))
    ensures Sound(Write(org, PutModel(alias, m)))
  {
    var q := PutModel(alias, m);
    assert Check(org, q, 0) && Check(org, q, 1);
    var models := org.models[alias := m];
    assert FiltersRead(org.filters, models);
    forall r, a | r in org.routers && a in Models(org.routers[r]) ensures Usable(models, a) {
      assert Usable(org.models, a);
    }
  }

  lemma DisallowKeeps(org: Org, alias: string)
    requires Sound(org)
    requires forall f :: f in org.filters && ReadsWith(org.filters[f]) != "" ==> ReadsWith(org.filters[f]) != alias
    requires forall r :: r in org.routers ==> alias !in Reads(org.routers[r])
    ensures Sound(org.(guardrails := DisallowAll(org.guardrails, alias)))
  {
    var now := org.(guardrails := DisallowAll(org.guardrails, alias));
    var lim := Disallow(LimitsOf(org, OrgScope), alias);
    assert LimitsOf(now, OrgScope) == lim;
    assert FiltersAllowed(org.filters, lim);
    forall r, a | r in org.routers && a in Reads(org.routers[r]) ensures Allows(lim, a) {
      assert Allows(LimitsOf(org, OrgScope), a);
    }
    assert GuardrailsTool(now.guardrails, org.servers) by {
      forall s | s in now.guardrails ensures ToolsServed(now.guardrails[s], org.servers) {
        assert ToolsServed(org.guardrails[s], org.servers);
      }
    }
  }

  lemma {:induction false} ReadsAreModels(steps: seq<Step>)
    ensures Reads(steps) <= Models(steps)
  {
    if steps != [] { ReadsAreModels(steps[1..]); }
  }

  lemma UnusedIsNotRead(org: Org, alias: string)
    requires ModelUnused(org, alias)
    ensures forall r :: r in org.routers ==> alias !in Reads(org.routers[r])
  {
    forall r | r in org.routers ensures alias !in Reads(org.routers[r]) { ReadsAreModels(org.routers[r]); }
  }

  lemma DropModelKeeps(org: Org, alias: string)
    requires Sound(org) && ModelUnused(org, alias)
    ensures Sound(org.(models := org.models - {alias}))
  {
    assert FiltersRead(org.filters, org.models - {alias});
    forall r, a | r in org.routers && a in Models(org.routers[r]) ensures Usable(org.models - {alias}, a) {
      assert Usable(org.models, a);
    }
  }

  lemma DeleteModelKeeps(org: Org, alias: string)
    requires Sound(org) && Checked(org, DeleteModel(alias))
    ensures Sound(Write(org, DeleteModel(alias)))
  {
    assert Check(org, DeleteModel(alias), 0);
    if alias in org.models {
      UnusedIsNotRead(org, alias);
      DisallowKeeps(org, alias);
      DropModelKeeps(org.(guardrails := DisallowAll(org.guardrails, alias)), alias);
    }
  }

  lemma PutFilterKeeps(org: Org, alias: string, f: Filter)
    requires Sound(org) && Checked(org, PutFilter(alias, f))
    ensures Sound(Write(org, PutFilter(alias, f)))
  {
    var q := PutFilter(alias, f);
    assert Check(org, q, 0) && Check(org, q, 1);
    var filters := org.filters[alias := f];
    assert FiltersRead(filters, org.models);
    assert FiltersAllowed(filters, LimitsOf(org, OrgScope));
  }

  lemma DeleteFilterKeeps(org: Org, alias: string)
    requires Sound(org) && Checked(org, DeleteFilter(alias))
    ensures Sound(Write(org, DeleteFilter(alias)))
  {
    var q := DeleteFilter(alias);
    assert Check(org, q, 0) && Check(org, q, 1);
    var filters := org.filters - {alias};
    assert RoutersFilter(org.routers, filters);
    forall s, a | s in org.guardrails && a in org.guardrails[s].filters ensures a in filters {
      assert !Names(q, s, org.guardrails[s]);
    }
  }

  lemma PutRouterKeeps(org: Org, alias: string, steps: seq<Step>)
    requires Sound(org) && Checked(org, PutRouter(alias, steps))
    ensures Sound(Write(org, PutRouter(alias, steps)))
  {
    var q := PutRouter(alias, steps);
    assert Check(org, q, 0) && Check(org, q, 1) && Check(org, q, 2) && Check(org, q, 3);
    StepsAreUsable(org, steps);
    var routers := org.routers[alias := steps];
    assert RoutersUse(routers, org.models) && RoutersFilter(routers, org.filters);
    assert RoutersAllowed(routers, LimitsOf(org, OrgScope));
  }

  lemma RouterIsNotRead(org: Org, alias: string)
    requires Sound(org) && alias in org.routers
    ensures forall f :: f in org.filters && ReadsWith(org.filters[f]) != "" ==> ReadsWith(org.filters[f]) != alias
    ensures forall r :: r in org.routers ==> alias !in Reads(org.routers[r])
  {
    assert alias !in org.models;
    forall r | r in org.routers ensures alias !in Reads(org.routers[r]) {
      ReadsAreModels(org.routers[r]);
      assert alias in Models(org.routers[r]) ==> Usable(org.models, alias);
    }
  }

  /** Taking a deleted router off the list takes no reader's model off it: a router's alias is no model's. */
  lemma DeleteRouterKeeps(org: Org, alias: string)
    requires Sound(org)
    ensures Sound(Write(org, DeleteRouter(alias)))
  {
    if alias in org.routers {
      RouterIsNotRead(org, alias);
      DisallowKeeps(org, alias);
      DropRouterKeeps(org.(guardrails := DisallowAll(org.guardrails, alias)), alias);
    }
  }

  lemma DropRouterKeeps(org: Org, alias: string)
    requires Sound(org)
    ensures Sound(org.(routers := org.routers - {alias}))
  {}

  lemma DeleteServerKeeps(org: Org, alias: string)
    requires Sound(org) && Checked(org, DeleteServer(alias))
    ensures Sound(Write(org, DeleteServer(alias)))
  {
    assert Check(org, DeleteServer(alias), 1);
    forall s | s in org.guardrails ensures ToolsServed(org.guardrails[s], org.servers - {alias}) {
      assert !Names(DeleteServer(alias), s, org.guardrails[s]);
      assert ToolsServed(org.guardrails[s], org.servers);
    }
  }

  lemma PutGuardrailKeeps(org: Org, scope: Scope, lim: Limits)
    requires Sound(org) && Checked(org, PutGuardrail(scope, lim))
    ensures Sound(Write(org, PutGuardrail(scope, lim)))
  {
    var q := PutGuardrail(scope, lim);
    assert Check(org, q, 0) && Check(org, q, 1) && Check(org, q, 2) && Check(org, q, 3);
    var tidied := Tidied(lim);
    var now := Write(org, q);
    assert GuardrailsFilter(now.guardrails, org.filters);
    assert ToolsServed(tidied, org.servers);
    assert GuardrailsTool(now.guardrails, org.servers);
    if scope == OrgScope {
      assert LimitsOf(now, OrgScope) == tidied;
      assert FiltersAllowed(org.filters, tidied) && RoutersAllowed(org.routers, tidied);
    } else {
      assert LimitsOf(now, OrgScope) == LimitsOf(org, OrgScope);
    }
  }

  lemma WriteKeepsSound(org: Org, q: Request)
    requires Sound(org) && Checked(org, q)
    ensures Sound(Write(org, q))
  {
    match q {
      case PutModel(alias, m) => PutModelKeeps(org, alias, m);
      case DeleteModel(alias) => DeleteModelKeeps(org, alias);
      case PutFilter(alias, f) => PutFilterKeeps(org, alias, f);
      case DeleteFilter(alias) => DeleteFilterKeeps(org, alias);
      case PutRouter(alias, steps) => PutRouterKeeps(org, alias, steps);
      case DeleteRouter(alias) => DeleteRouterKeeps(org, alias);
      case DeleteServer(alias) => DeleteServerKeeps(org, alias);
      case PutGuardrail(scope, lim) => PutGuardrailKeeps(org, scope, lim);
    }
  }

  /** Allowing one alias more leaves no reader out. */
  lemma AllowKeepsSound(org: Org, alias: string)
    requires Sound(org)
    ensures Sound(AllowInOrg(org, alias))
  {
    var now := AllowInOrg(org, alias);
    if now != org {
      var was, lim := LimitsOf(org, OrgScope), LimitsOf(now, OrgScope);
      assert forall a :: Allows(was, a) ==> Allows(lim, a);
      assert FiltersAllowed(org.filters, lim) && RoutersAllowed(org.routers, lim);
      assert ToolsServed(was, org.servers);
      assert GuardrailsTool(now.guardrails, org.servers);
    }
  }

  lemma FollowKeepsSound(org: Org, q: Request, found: bool)
    requires Sound(org)
    ensures Sound(Follow(org, q, found))
  {
    if q.PutModel? || q.PutRouter? { AllowKeepsSound(org, q.alias); }
  }
}
