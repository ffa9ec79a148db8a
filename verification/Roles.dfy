/** Roles of one person in many organisations (`syncRole`, `syncOtherRoles`, `linkIdentity`, internal/control/auth.go;
`switchOrg`, internal/control/memberships.go; `checkDirectory`, internal/control/directory.go; `RoleFor`,
internal/authn/principal.go).

A person has a row in each of their organisations. After a sign-in all of them hold the operator role or none does
(`SignInMakesUniform`), every other step keeps that (`StepKeepsUniform`), and a member's or administrator's role in
another organisation stands unless the person becomes an operator (`OtherRolesStand`).
*/
module Roles {
  import opened Text

  datatype Role = Operator | Admin | Member

  /** An empty `external` is an invitation: no identity has taken the row. */
  datatype Row = Row(id: nat, org: string, email: string, external: string, role: Role, disabled: bool)

  // What the directory says.

  datatype Mapping = Mapping(
    operatorGroups: seq<string>, adminGroups: seq<string>, operatorEmails: seq<string>, default: Role)

  /** `fold` is what equal strings have in common, whatever their case. */
  ghost predicate HasOne(fold: string -> string, have: seq<string>, want: seq<string>) {
    exists w, h :: w in want && h in have && Trim(w) != "" && fold(Trim(h)) == fold(Trim(w))
  }

  method ContainsFold(fold: string -> string, have: seq<string>, want: seq<string>) returns (found: bool)
    ensures found <==> HasOne(fold, have, want)
  {
    for i := 0 to |want|
      invariant forall k, h :: 0 <= k < i && h in have && Trim(want[k]) != "" ==> fold(Trim(h)) != fold(Trim(want[k]))
    {
      var w := Trim(want[i]);
      if w == "" {
        continue;
      }
      for j := 0 to |have|
        invariant forall k :: 0 <= k < j ==> fold(Trim(have[k])) != fold(w)
      {
        if fold(Trim(have[j])) == fold(w) {
          assert want[i] in want && have[j] in have;
          return true;
        }
      }
    }
    return false;
  }

  ghost predicate IsOperator(fold: string -> string, m: Mapping, email: string, groups: seq<string>) {
    HasOne(fold, groups, m.operatorGroups) || exists e :: e in m.operatorEmails && fold(Trim(e)) == fold(email)
  }

  /** An operator is who is in an operator group or has an operator's address, and an administrator anyone else who is in
  an administrators' group; the default is never the operator role. */
  method RoleFor(fold: string -> string, m: Mapping, email: string, groups: seq<string>) returns (role: Role)
    ensures role == Operator <==> IsOperator(fold, m, email, groups)
    ensures role != Operator && HasOne(fold, groups, m.adminGroups) ==> role == Admin
    ensures role != Operator && !HasOne(fold, groups, m.adminGroups) ==>
              role == if m.default == Admin then Admin else Member
  {
    var found := ContainsFold(fold, groups, m.operatorGroups);
    if found {
      return Operator;
    }
    for i := 0 to |m.operatorEmails|
      invariant forall k :: 0 <= k < i ==> fold(Trim(m.operatorEmails[k])) != fold(email)
    {
      if fold(Trim(m.operatorEmails[i])) == fold(email) {
        assert m.operatorEmails[i] in m.operatorEmails;
        return Operator;
      }
    }
    found := ContainsFold(fold, groups, m.adminGroups);
    if found {
      return Admin;
    }
    role := if m.default == Operator then Member else m.default;
  }

  // One row.

  function RoleAtSignIn(stored: Role, fromIDP: Role, adminFromDirectory: bool): (Role, bool) {
    if !adminFromDirectory && fromIDP != Operator && stored != Operator then (stored, false)
    else (fromIDP, stored != fromIDP)
  }

  /** The role a row has after it is synced. `home` is the organisation the person's addresses land in. */
  function SyncedRole(row: Row, fromIDP: Role, adminFromDirectory: bool, home: string): Role {
    var (want, change) := RoleAtSignIn(row.role, fromIDP, adminFromDirectory);
    if !change then row.role
    else if want == Operator || row.org == home then want
    else if row.role != Operator then row.role
    else Member
  }

  /** What syncing decides, case by case. */
  lemma SyncedRoleIs(row: Row, fromIDP: Role, adminFromDirectory: bool, home: string)
    ensures var role := SyncedRole(row, fromIDP, adminFromDirectory, home);
            && (role == Operator <==> fromIDP == Operator)
            && (fromIDP != Operator && row.role != Operator && (row.org != home || !adminFromDirectory) ==> role == row.role)
            && (fromIDP != Operator && row.role == Operator ==> role == if row.org == home then fromIDP else Member)
            && (fromIDP != Operator && row.org == home && adminFromDirectory ==> role == fromIDP)
  {}

  // All rows.

  function SetRole(rows: seq<Row>, id: nat, role: Role): seq<Row> {
    seq(|rows|, i requires 0 <= i < |rows| => if rows[i].id == id then rows[i].(role := role) else rows[i])
  }

  function SyncRows(rows: seq<Row>, ids: set<nat>, fromIDP: Role, adminFromDirectory: bool, home: string): seq<Row> {
    seq(|rows|, i requires 0 <= i < |rows| =>
      if rows[i].id in ids then rows[i].(role := SyncedRole(rows[i], fromIDP, adminFromDirectory, home)) else rows[i])
  }

  function SyncPerson(rows: seq<Row>, external: string, fromIDP: Role, adminFromDirectory: bool, home: string): seq<Row> {
    seq(|rows|, i requires 0 <= i < |rows| =>
      if rows[i].external == external then rows[i].(role := SyncedRole(rows[i], fromIDP, adminFromDirectory, home))
      else rows[i])
  }

  /** The last row before position `n` that matches. */
  function Find(rows: seq<Row>, matches: Row -> bool, n: nat): (at: Option<nat>)
    requires n <= |rows|
    ensures at.Some? ==> at.value < n && matches(rows[at.value])
    ensures at.None? ==> forall i :: 0 <= i < n ==> !matches(rows[i])
  {
    if n == 0 then None else if matches(rows[n - 1]) then Some(n - 1) else Find(rows, matches, n - 1)
  }

  /** No two rows have one id, and no organisation has two rows of one identity or of one address. */
  ghost predicate Distinct(rows: seq<Row>) {
    forall i, j :: 0 <= i < j < |rows| ==>
      && rows[i].id != rows[j].id
      && (rows[i].org == rows[j].org ==> rows[i].email != rows[j].email)
      && (rows[i].org == rows[j].org && rows[i].external == rows[j].external ==> rows[i].external == "")
  }

  /** The person's rows all hold the operator role or none does. */
  ghost predicate Uniform(rows: seq<Row>, external: string) {
    forall i, j :: 0 <= i < |rows| && 0 <= j < |rows| && rows[i].external == rows[j].external == external ==>
      (rows[i].role == Operator <==> rows[j].role == Operator)
  }

  // The steps.

  datatype Link = Link(id: nat, org: string, email: string, external: string, role: Role)

  /** Finds the identity's row in the organisation, takes an invitation to its address, or makes a row. Another
  identity's row is refused. */
  function LinkUser(rows: seq<Row>, l: Link): (linked: (seq<Row>, Option<nat>))
    ensures linked.1.Some? ==> linked.1.value < |linked.0| && linked.0[linked.1.value].external == l.external
  {
    match Find(rows, (r: Row) => r.org == l.org && r.external == l.external, |rows|)
    case Some(i) => (rows, Some(i))
    case None =>
      match Find(rows, (r: Row) => r.org == l.org && r.email == l.email, |rows|)
      case Some(i) => if rows[i].external == "" then (rows[i := rows[i].(external := l.external)], Some(i)) else (rows, None)
      case None => (rows + [Row(l.id, l.org, l.email, l.external, l.role, false)], Some(|rows|))
  }

  /** A sign-in, and whether it succeeds. */
  function SignIn(rows: seq<Row>, l: Link, adminFromDirectory: bool, home: string): (seq<Row>, bool) {
    var (linked, at) := LinkUser(rows, l);
    if at.None? || linked[at.value].disabled then (linked, false)
    else (SyncPerson(linked, l.external, l.role, adminFromDirectory, home), true)
  }

  predicate MayEnter(row: Row, person: Row, vouched: bool) {
    || row.external == person.external
    || (vouched && row.email == person.email && row.external == "" && !row.disabled)
  }

  /** The role a row gets when a person comes to it from one that holds `role`: theirs to be an operator goes with them. */
  function CarriedRole(role: Role, target: Role): Role {
    if (role == Operator) == (target == Operator) then target else if role == Operator then Operator else Member
  }

  function SwitchOrg(rows: seq<Row>, at: nat, org: string, vouched: bool): seq<Row>
    requires at < |rows|
  {
    var person := rows[at];
    match Find(rows, (r: Row) => r.org == org && MayEnter(r, person, vouched), |rows|)
    case None => rows
    case Some(i) =>
      var m := rows[i];
      if m.disabled || m.org == person.org then rows
      else if m.external == "" && Find(rows, (r: Row) => r.org == org && r.external == person.external, |rows|).Some? then rows
      else rows[i := m.(external := person.external, role := CarriedRole(person.role, m.role))]
  }

  function MayGrant(role: Role, adminFromDirectory: bool): bool { role != Operator && !adminFromDirectory }

  function ChangeRole(rows: seq<Row>, id: nat, role: Role, adminFromDirectory: bool): seq<Row> {
    match Find(rows, (r: Row) => r.id == id, |rows|)
    case None => rows
    case Some(i) =>
      if !MayGrant(role, adminFromDirectory) || rows[i].role == Operator then rows else SetRole(rows, id, role)
  }

  function AddUser(rows: seq<Row>, l: Link, adminFromDirectory: bool): seq<Row> {
    if l.role == Operator || (l.role != Member && !MayGrant(l.role, adminFromDirectory)) then rows
    else if Find(rows, (r: Row) => r.org == l.org && r.email == l.email, |rows|).Some? then rows
    else if l.external != "" && Find(rows, (r: Row) => r.org == l.org && r.external == l.external, |rows|).Some? then rows
    else rows + [Row(l.id, l.org, l.email, l.external, l.role, false)]
  }

  /** The rows people sign in to. */
  class Users {
    var rows: seq<Row>

    constructor ()
      ensures rows == []
    {
      rows := [];
    }

    method SetUserRole(id: nat, role: Role)
      modifies this
      ensures rows == SetRole(old(rows), id, role)
    {
      rows := SetRole(rows, id, role);
    }

    method SyncRole(user: Row, fromIDP: Role, adminFromDirectory: bool, home: string) returns (role: Role)
      modifies this
      ensures role == SyncedRole(user, fromIDP, adminFromDirectory, home)
      ensures rows == if role == user.role then old(rows) else SetRole(old(rows), user.id, role)
    {
      var (want, change) := RoleAtSignIn(user.role, fromIDP, adminFromDirectory);
      if !change {
        return user.role;
      }
      if want != Operator {
        if home != user.org {
          if user.role != Operator {
            return user.role;
          }
          want := Member;
        }
      }
      SetUserRole(user.id, want);
      role := want;
    }

    /** The rows of an identity, and with `vouched` the invitations to an address. */
    method Memberships(person: Row, vouched: bool) returns (ms: seq<Row>)
      ensures forall r :: r in ms <==> r in rows && MayEnter(r, person, vouched)
    {
      ms := [];
      for i := 0 to |rows|
        invariant forall r :: r in ms <==> r in rows[..i] && MayEnter(r, person, vouched)
      {
        assert rows[..i + 1] == rows[..i] + [rows[i]];
        if MayEnter(rows[i], person, vouched) {
          ms := ms + [rows[i]];
        }
      }
      assert rows[..|rows|] == rows;
    }

    /** Applies a role to the person's rows besides `user`, which was synced already; `was` is from before that. */
    method SyncOtherRoles(user: Row, fromIDP: Role, adminFromDirectory: bool, home: string, ghost was: seq<Row>)
      requires Distinct(was) && user in was && user.external != ""
      requires rows == SyncRows(was, {user.id}, fromIDP, adminFromDirectory, home)
      modifies this
      ensures rows == SyncPerson(was, user.external, fromIDP, adminFromDirectory, home)
    {
      var ms := Memberships(user, false);
      ghost var synced, done := rows, {user.id};
      OfPersonMore(was, {}, user, user.external);
      var i := 0;
      while i < |ms|
        invariant 0 <= i <= |ms|
        invariant rows == SyncRows(was, done, fromIDP, adminFromDirectory, home)
        invariant OfPerson(was, done, user.external)
        invariant user.id in done && forall k :: 0 <= k < i ==> ms[k].id in done
      {
        var m := ms[i];
        if m.id != user.id {
          assert m in ms && m.external == user.external;
          assert m in was by { OthersAreUntouched(was, synced, m, user, fromIDP, adminFromDirectory, home); }
          ghost var before := rows;
          var role := SyncRole(m, fromIDP, adminFromDirectory, home);
          SyncedOne(was, before, done, rows, m, fromIDP, adminFromDirectory, home);
          OfPersonMore(was, done, m, user.external);
          done := done + {m.id};
        }
        i := i + 1;
      }
      AllAreDone(was, synced, ms, done, user, fromIDP, adminFromDirectory, home);
    }

    /** What a fresh answer of the directory does to a person. */
    method SyncPersonRoles(user: Row, fromIDP: Role, adminFromDirectory: bool, home: string)
      requires Distinct(rows) && user in rows && user.external != ""
      modifies this
      ensures rows == SyncPerson(old(rows), user.external, fromIDP, adminFromDirectory, home)
    {
      ghost var was := rows;
      var role := SyncRole(user, fromIDP, adminFromDirectory, home);
      assert was == SyncRows(was, {}, fromIDP, adminFromDirectory, home);
      SyncedOne(was, was, {}, rows, user, fromIDP, adminFromDirectory, home);
      assert {} + {user.id} == {user.id};
      SyncOtherRoles(user, fromIDP, adminFromDirectory, home, was);
    }

    method SignInAs(l: Link, adminFromDirectory: bool, home: string) returns (ok: bool)
      requires Distinct(rows) && l.external != "" && forall r :: r in rows ==> r.id != l.id
      modifies this
      ensures (rows, ok) == SignIn(old(rows), l, adminFromDirectory, home)
    {
      var (linked, at) := LinkUser(rows, l);
      LinkKeepsDistinct(rows, l);
      rows := linked;
      if at.None? {
        return false;
      }
      var user := rows[at.value];
      if user.disabled {
        return false;
      }
      SyncPersonRoles(user, l.role, adminFromDirectory, home);
      ok := true;
    }

    method Switch(at: nat, org: string, vouched: bool)
      requires at < |rows|
      modifies this
      ensures rows == SwitchOrg(old(rows), at, org, vouched)
    {
      var person := rows[at];
      var found := Find(rows, (r: Row) => r.org == org && MayEnter(r, person, vouched), |rows|);
      if found.None? || rows[found.value].disabled || rows[found.value].org == person.org {
        return;
      }
      var m := rows[found.value];
      if m.external == "" {
        if Find(rows, (r: Row) => r.org == org && r.external == person.external, |rows|).Some? {
          return;
        }
        rows := rows[found.value := m.(external := person.external)];
      }
      var target := rows[found.value];
      if (person.role == Operator) != (target.role == Operator) {
        rows := rows[found.value := target.(role := if person.role == Operator then Operator else Member)];
      }
    }
  }

  lemma IdIsOfOne(rows: seq<Row>, m: Row)
    requires Distinct(rows) && m in rows
    ensures forall r :: r in rows && r.id == m.id ==> r == m
  {}

  ghost predicate OfPerson(rows: seq<Row>, ids: set<nat>, external: string) {
    forall r :: r in rows && r.id in ids ==> r.external == external
  }

  lemma OfPersonMore(rows: seq<Row>, ids: set<nat>, m: Row, external: string)
    requires Distinct(rows) && m in rows && m.external == external && OfPerson(rows, ids, external)
    ensures OfPerson(rows, ids + {m.id}, external)
  {
    IdIsOfOne(rows, m);
  }

  lemma SyncedOne(was: seq<Row>, before: seq<Row>, done: set<nat>, after: seq<Row>, m: Row,
                  fromIDP: Role, adminFromDirectory: bool, home: string)
    requires Distinct(was) && m in was
    requires before == SyncRows(was, done, fromIDP, adminFromDirectory, home)
    requires var role := SyncedRole(m, fromIDP, adminFromDirectory, home);
             after == if role == m.role then before else SetRole(before, m.id, role)
    ensures after == SyncRows(was, done + {m.id}, fromIDP, adminFromDirectory, home)
  {
    IdIsOfOne(was, m);
    var want := SyncRows(was, done + {m.id}, fromIDP, adminFromDirectory, home);
    forall i | 0 <= i < |was| ensures after[i] == want[i] {
      if was[i].id == m.id {
        assert was[i] in was;
      }
    }
  }

  lemma OthersAreUntouched(was: seq<Row>, synced: seq<Row>, m: Row, user: Row,
                           fromIDP: Role, adminFromDirectory: bool, home: string)
    requires synced == SyncRows(was, {user.id}, fromIDP, adminFromDirectory, home)
    requires m in synced && m.id != user.id
    ensures m in was
  {
    var i :| 0 <= i < |synced| && synced[i] == m;
    assert was[i] == m;
  }

  lemma AllAreDone(was: seq<Row>, synced: seq<Row>, ms: seq<Row>, done: set<nat>, user: Row,
                   fromIDP: Role, adminFromDirectory: bool, home: string)
    requires synced == SyncRows(was, {user.id}, fromIDP, adminFromDirectory, home)
    requires forall r :: r in ms <==> r in synced && MayEnter(r, user, false)
    requires OfPerson(was, done, user.external)
    requires user.id in done && forall k :: 0 <= k < |ms| ==> ms[k].id in done
    ensures SyncRows(was, done, fromIDP, adminFromDirectory, home)
         == SyncPerson(was, user.external, fromIDP, adminFromDirectory, home)
  {
    forall i | 0 <= i < |was| ensures was[i].id in done <==> was[i].external == user.external {
      assert was[i] in was;
      if was[i].external == user.external {
        assert synced[i] in ms;
        assert synced[i].id == was[i].id;
      }
    }
  }

  lemma LinkKeepsDistinct(rows: seq<Row>, l: Link)
    requires Distinct(rows) && l.external != "" && forall r :: r in rows ==> r.id != l.id
    ensures Distinct(LinkUser(rows, l).0)
    ensures LinkUser(rows, l).1.Some? ==>
              var (linked, at) := LinkUser(rows, l);
              at.value < |linked| && linked[at.value].org == l.org && linked[at.value].external == l.external
  {}

  // What holds after each step.

  /** After a sign-in every row of the person holds the operator role or none does, as the directory said, whatever was
  before. No other row changes. */
  lemma SignInMakesUniform(rows: seq<Row>, l: Link, adminFromDirectory: bool, home: string)
    requires l.external != "" && SignIn(rows, l, adminFromDirectory, home).1
    ensures var after := SignIn(rows, l, adminFromDirectory, home).0;
            && (forall r :: r in after && r.external == l.external ==> (r.role == Operator <==> l.role == Operator))
            && Uniform(after, l.external)
            && (exists r :: r in after && r.external == l.external && r.org == l.org)
  {
    var (linked, at) := LinkUser(rows, l);
    var after := SyncPerson(linked, l.external, l.role, adminFromDirectory, home);
    assert after[at.value] in after;
  }

  /** The row is the person's own, or the invitation that their sign-in takes. */
  predicate BecomesTheirs(rows: seq<Row>, l: Link, i: nat)
    requires i < |rows|
  {
    || rows[i].external == l.external
    || (rows[i].org == l.org && rows[i].email == l.email
        && forall r :: r in rows ==> !(r.org == l.org && r.external == l.external))
  }

  /** Of the rows there were, one outside the organisation the person's addresses land in keeps a member's or
  administrator's role exactly when it is not theirs or they do not become an operator. */
  lemma OtherRolesStand(rows: seq<Row>, l: Link, adminFromDirectory: bool, home: string, i: nat)
    requires Distinct(rows) && l.external != ""
    requires i < |rows| && rows[i].role != Operator && rows[i].org != home
    requires SignIn(rows, l, adminFromDirectory, home).1
    ensures SignIn(rows, l, adminFromDirectory, home).0[i].role == rows[i].role <==>
              !(BecomesTheirs(rows, l, i) && l.role == Operator)
  {
    var (linked, at) := LinkUser(rows, l);
    SyncedRoleIs(linked[i], l.role, adminFromDirectory, home);
    TakesExactly(rows, l, i);
  }

  lemma TakesExactly(rows: seq<Row>, l: Link, i: nat)
    requires Distinct(rows) && l.external != "" && i < |rows| && LinkUser(rows, l).1.Some?
    ensures var linked := LinkUser(rows, l).0[i];
            && (linked.external == l.external <==> BecomesTheirs(rows, l, i))
            && linked == rows[i].(external := linked.external)
  {
    var own := Find(rows, (r: Row) => r.org == l.org && r.external == l.external, |rows|);
    if own.Some? {
      assert rows[own.value] in rows;
    } else {
      assert forall r :: r in rows ==> !(r.org == l.org && r.external == l.external);
    }
  }

  /** A fresh answer of the directory makes a person's rows uniform, whatever they were, and changes no one else's. */
  lemma RecheckMakesUniform(rows: seq<Row>, external: string, fromIDP: Role, adminFromDirectory: bool, home: string)
    ensures var after := SyncPerson(rows, external, fromIDP, adminFromDirectory, home);
            && |after| == |rows| && Uniform(after, external)
            && (forall i :: 0 <= i < |rows| && rows[i].external == external ==>
                  (after[i].role == Operator <==> fromIDP == Operator) && after[i] == rows[i].(role := after[i].role))
            && (forall i :: 0 <= i < |rows| && rows[i].external != external ==> after[i] == rows[i])
  {
    forall i | 0 <= i < |rows| && rows[i].external == external
      ensures SyncedRole(rows[i], fromIDP, adminFromDirectory, home) == Operator <==> fromIDP == Operator
    {
      SyncedRoleIs(rows[i], fromIDP, adminFromDirectory, home);
    }
  }

  // What the other steps do.

  /** The row an identity has in an organisation, if it has one. */
  ghost predicate IsIn(rows: seq<Row>, org: string, external: string) {
    exists i :: 0 <= i < |rows| && rows[i].org == org && rows[i].external == external
  }

  /** Linking leaves an identity's row as it is, takes an invitation for it, refuses another identity's row, or makes a row
  of its own. */
  lemma LinkDoes(rows: seq<Row>, l: Link, i: nat)
    requires Distinct(rows) && l.external != ""
    ensures IsIn(rows, l.org, l.external) ==> LinkUser(rows, l).0 == rows && LinkUser(rows, l).1.Some?
    ensures i < |rows| && !IsIn(rows, l.org, l.external) && rows[i].org == l.org && rows[i].email == l.email ==>
              LinkUser(rows, l) == if rows[i].external == "" then (rows[i := rows[i].(external := l.external)], Some(i)) else (rows, None)
    ensures !IsIn(rows, l.org, l.external) && (forall k :: 0 <= k < |rows| && rows[k].org == l.org ==> rows[k].email != l.email) ==>
              LinkUser(rows, l).0 == rows + [Row(l.id, l.org, l.email, l.external, l.role, false)]
              && LinkUser(rows, l).1.Some? && LinkUser(rows, l).1.value == |rows|
  {
    var own := Find(rows, (r: Row) => r.org == l.org && r.external == l.external, |rows|);
    var address := Find(rows, (r: Row) => r.org == l.org && r.email == l.email, |rows|);
    if own.None? && i < |rows| && rows[i].org == l.org && rows[i].email == l.email {
      assert address.Some?;
      assert address.value == i;
    }
  }

  /** Row `i` turns a sign-in away: it is the identity's and disabled, or, if the identity has none, it has the address and
  is another identity's or disabled. */
  ghost predicate TurnsAway(rows: seq<Row>, l: Link, i: nat) {
    && i < |rows| && rows[i].org == l.org
    && if rows[i].external == l.external then rows[i].disabled
       else !IsIn(rows, l.org, l.external) && rows[i].email == l.email && (rows[i].external != "" || rows[i].disabled)
  }

  /** A sign-in is refused exactly when a row turns it away. */
  lemma SignInRefusedIff(rows: seq<Row>, l: Link, adminFromDirectory: bool, home: string)
    requires Distinct(rows) && l.external != ""
    ensures !SignIn(rows, l, adminFromDirectory, home).1 <==> exists i :: TurnsAway(rows, l, i)
  {
    var own := Find(rows, (r: Row) => r.org == l.org && r.external == l.external, |rows|);
    var address := Find(rows, (r: Row) => r.org == l.org && r.email == l.email, |rows|);
    var refused := !SignIn(rows, l, adminFromDirectory, home).1;
    if refused {
      assert TurnsAway(rows, l, if own.Some? then own.value else address.value);
    }
    if i :| TurnsAway(rows, l, i) {
      if own.Some? { assert own.value == i; } else { assert address.Some? && address.value == i; }
    }
  }

  /** The row in `org` that the person may switch to: their own, or an invitation to an address that was proved. */
  ghost predicate CanSwitchTo(rows: seq<Row>, at: nat, i: nat, org: string, vouched: bool)
    requires at < |rows|
  {
    && i < |rows| && rows[i].org == org
    && (rows[i].external == rows[at].external
        || (vouched && rows[i].external == "" && rows[i].email == rows[at].email && !rows[i].disabled))
  }

  /** Switching to an organisation with one such row, not disabled, makes that row the person's: an invitation takes their
  identity, and it holds the operator role exactly when the row they come from does, else the role it had, or a member's
  if that was the operator's. No other row changes, and without such a row none does. */
  lemma SwitchDoes(rows: seq<Row>, at: nat, i: nat, org: string, vouched: bool)
    requires at < |rows| && rows[at].external != "" && rows[at].org != org
    ensures (forall k :: !CanSwitchTo(rows, at, k, org, vouched)) ==> SwitchOrg(rows, at, org, vouched) == rows
    ensures CanSwitchTo(rows, at, i, org, vouched) && (forall k :: CanSwitchTo(rows, at, k, org, vouched) ==> k == i) ==>
              SwitchOrg(rows, at, org, vouched) ==
                if rows[i].disabled then rows
                else rows[i := rows[i].(external := rows[at].external,
                                        role := if rows[at].role == Operator then Operator
                                                else if rows[i].role == Operator then Member else rows[i].role)]
  {
    var person := rows[at];
    var found := Find(rows, (r: Row) => r.org == org && MayEnter(r, person, vouched), |rows|);
    if found.Some? {
      assert CanSwitchTo(rows, at, found.value, org, vouched);
    }
    var own := Find(rows, (r: Row) => r.org == org && r.external == person.external, |rows|);
    if own.Some? {
      assert CanSwitchTo(rows, at, own.value, org, vouched);
    }
  }

  /** A role is changed exactly where the directory does not decide it, neither the old nor the new one is the operator's,
  and only on that row. */
  lemma ChangeRoleDoes(rows: seq<Row>, id: nat, role: Role, adminFromDirectory: bool, i: nat)
    requires Distinct(rows) && i < |rows|
    ensures |ChangeRole(rows, id, role, adminFromDirectory)| == |rows|
    ensures ChangeRole(rows, id, role, adminFromDirectory)[i] ==
              if rows[i].id == id && role != Operator && rows[i].role != Operator && !adminFromDirectory
              then rows[i].(role := role) else rows[i]
  {
    var at := Find(rows, (r: Row) => r.id == id, |rows|);
    if at.Some? && rows[i].id == id { assert i == at.value; }
  }

  /** A person is added exactly when the organisation has neither their address nor their identity, as a member, or as an
  administrator where the directory does not decide that; and every row there was stays. */
  lemma AddUserDoes(rows: seq<Row>, l: Link, adminFromDirectory: bool)
    ensures AddUser(rows, l, adminFromDirectory) ==
              if && (l.role == Member || (l.role == Admin && !adminFromDirectory))
                 && (forall i :: 0 <= i < |rows| && rows[i].org == l.org ==>
                       rows[i].email != l.email && (l.external != "" ==> rows[i].external != l.external))
              then rows + [Row(l.id, l.org, l.email, l.external, l.role, false)] else rows
  {
    var address := Find(rows, (r: Row) => r.org == l.org && r.email == l.email, |rows|);
    var own := Find(rows, (r: Row) => r.org == l.org && r.external == l.external, |rows|);
    if address.Some? { assert rows[address.value].org == l.org; }
    if own.Some? { assert rows[own.value].org == l.org; }
  }

  // Whole runs.

  datatype Event =
    | SignsIn(l: Link, home: string)
    | Rechecked(external: string, role: Role, home: string)
    | Switches(at: nat, org: string, vouched: bool)
    | RoleChanged(id: nat, role: Role)
    | Added(l: Link)

  function Step(rows: seq<Row>, e: Event, adminFromDirectory: bool): seq<Row> {
    match e
    case SignsIn(l, home) => SignIn(rows, l, adminFromDirectory, home).0
    case Rechecked(external, role, home) => SyncPerson(rows, external, role, adminFromDirectory, home)
    case Switches(at, org, vouched) => if at < |rows| then SwitchOrg(rows, at, org, vouched) else rows
    case RoleChanged(id, role) => ChangeRole(rows, id, role, adminFromDirectory)
    case Added(l) => AddUser(rows, l, adminFromDirectory)
  }

  /** What the program sees to before a step: ids are new, a person who is somewhere signs in to one of their
  organisations, and only identities are rechecked and switch. */
  ghost predicate Proper(rows: seq<Row>, e: Event) {
    match e
    case SignsIn(l, _) =>
      && l.external != "" && (forall r :: r in rows ==> r.id != l.id)
      && ((exists r :: r in rows && r.external == l.external) ==>
            exists r :: r in rows && r.external == l.external && r.org == l.org)
    case Rechecked(external, _, _) => external != ""
    case Switches(at, _, _) => at < |rows| ==> rows[at].external != ""
    case RoleChanged(_, _) => true
    case Added(l) => forall r :: r in rows ==> r.id != l.id
  }

  /** An added row that is linked to an identity from the start holds no operator role, so the identity's rows may not. */
  ghost predicate LinksNoOperator(rows: seq<Row>, e: Event, external: string) {
    e.Added? && e.l.external == external ==> forall r :: r in rows && r.external == external ==> r.role != Operator
  }

  lemma StepKeepsDistinct(rows: seq<Row>, e: Event, adminFromDirectory: bool)
    requires Distinct(rows) && Proper(rows, e)
    ensures Distinct(Step(rows, e, adminFromDirectory))
  {
    match e {
      case SignsIn(l, home) => LinkKeepsDistinct(rows, l);
      case Switches(at, org, vouched) => if at < |rows| { SwitchKeepsDistinct(rows, at, org, vouched); }
      case Added(l) => AddKeepsDistinct(rows, l, adminFromDirectory);
      case _ =>
    }
  }

  lemma SwitchKeepsDistinct(rows: seq<Row>, at: nat, org: string, vouched: bool)
    requires Distinct(rows) && at < |rows|
    ensures Distinct(SwitchOrg(rows, at, org, vouched))
  {}

  lemma AddKeepsDistinct(rows: seq<Row>, l: Link, adminFromDirectory: bool)
    requires Distinct(rows) && forall r :: r in rows ==> r.id != l.id
    ensures Distinct(AddUser(rows, l, adminFromDirectory))
  {
    assert forall i :: 0 <= i < |rows| ==> rows[i] in rows;
  }

  lemma StepKeepsUniform(rows: seq<Row>, e: Event, adminFromDirectory: bool, external: string)
    requires Distinct(rows) && Proper(rows, e) && LinksNoOperator(rows, e, external)
    requires external != "" && Uniform(rows, external)
    ensures Uniform(Step(rows, e, adminFromDirectory), external)
  {
    match e {
      case SignsIn(l, home) => SignInKeepsUniform(rows, l, adminFromDirectory, home, external);
      case Switches(at, org, vouched) =>
        if at < |rows| { SwitchKeepsUniform(rows, at, org, vouched, external); }
      case RoleChanged(id, role) => ChangeKeepsUniform(rows, id, role, adminFromDirectory, external);
      case _ =>
    }
  }

  lemma SignInKeepsUniform(rows: seq<Row>, l: Link, adminFromDirectory: bool, home: string, external: string)
    requires Proper(rows, SignsIn(l, home)) && external != "" && Uniform(rows, external)
    ensures Uniform(SignIn(rows, l, adminFromDirectory, home).0, external)
  {
    if external != l.external {
      LinkLeavesOthers(rows, l, external);
    } else {
      LinkOfSomeone(rows, l, home);
    }
  }

  lemma LinkLeavesOthers(rows: seq<Row>, l: Link, external: string)
    requires external != l.external && external != ""
    ensures var linked := LinkUser(rows, l).0;
            |rows| <= |linked|
            && forall i :: 0 <= i < |linked| && linked[i].external == external ==> i < |rows| && linked[i] == rows[i]
  {}

  /** Who has a row already signs in to one of them, and anyone else has only the row they sign in to. */
  lemma LinkOfSomeone(rows: seq<Row>, l: Link, home: string)
    requires Proper(rows, SignsIn(l, home))
    ensures var (linked, at) := LinkUser(rows, l);
            linked == rows || forall i :: 0 <= i < |linked| && linked[i].external == l.external ==> at == Some(i)
  {
    if r :| r in rows && r.external == l.external && r.org == l.org {
      assert LinkUser(rows, l).0 == rows;
    } else {
      assert forall i :: 0 <= i < |rows| ==> rows[i] in rows;
    }
  }

  lemma SwitchKeepsUniform(rows: seq<Row>, at: nat, org: string, vouched: bool, external: string)
    requires at < |rows| && rows[at].external != "" && external != "" && Uniform(rows, external)
    ensures Uniform(SwitchOrg(rows, at, org, vouched), external)
  {
    var after := SwitchOrg(rows, at, org, vouched);
    var person := rows[at];
    forall i | 0 <= i < |rows| && after[i].external == external
      ensures external == person.external ==> (after[i].role == Operator <==> person.role == Operator)
      ensures external != person.external ==> after[i] == rows[i]
    {}
  }

  lemma ChangeKeepsUniform(rows: seq<Row>, id: nat, role: Role, adminFromDirectory: bool, external: string)
    requires Distinct(rows) && Uniform(rows, external)
    ensures Uniform(ChangeRole(rows, id, role, adminFromDirectory), external)
  {
    var at := Find(rows, (r: Row) => r.id == id, |rows|);
    if at.Some? {
      assert forall i :: 0 <= i < |rows| && rows[i].id == id ==> i == at.value;
    }
  }

  function Run(rows: seq<Row>, events: seq<Event>, adminFromDirectory: bool): seq<Row>
    decreases |events|
  {
    if events == [] then rows else Run(Step(rows, events[0], adminFromDirectory), events[1..], adminFromDirectory)
  }

  ghost predicate AllProper(rows: seq<Row>, events: seq<Event>, adminFromDirectory: bool, external: string)
    decreases |events|
  {
    events != [] ==>
      && Proper(rows, events[0]) && LinksNoOperator(rows, events[0], external)
      && AllProper(Step(rows, events[0], adminFromDirectory), events[1..], adminFromDirectory, external)
  }

  /** Over every run a person's rows all hold the operator role or none does. */
  lemma {:induction false} RunKeepsUniform(
      rows: seq<Row>, events: seq<Event>, adminFromDirectory: bool, external: string)
    requires Distinct(rows) && AllProper(rows, events, adminFromDirectory, external)
    requires external != "" && Uniform(rows, external)
    ensures Distinct(Run(rows, events, adminFromDirectory))
    ensures Uniform(Run(rows, events, adminFromDirectory), external)
    decreases |events|
  {
    if events != [] {
      StepKeepsDistinct(rows, events[0], adminFromDirectory);
      StepKeepsUniform(rows, events[0], adminFromDirectory, external);
      RunKeepsUniform(Step(rows, events[0], adminFromDirectory), events[1..], adminFromDirectory, external);
    }
  }

  /** Adding a row that is linked to a known identity keeps its rows uniform exactly when none of them is an operator's.
  The identity's next sign-in makes them uniform again. */
  lemma AddKeepsUniformIff(rows: seq<Row>, l: Link, adminFromDirectory: bool)
    requires l.external != "" && Uniform(rows, l.external)
    requires AddUser(rows, l, adminFromDirectory) != rows
    ensures Uniform(AddUser(rows, l, adminFromDirectory), l.external) <==>
              forall r :: r in rows && r.external == l.external ==> r.role != Operator
  {
    var after := AddUser(rows, l, adminFromDirectory);
    assert after == rows + [Row(l.id, l.org, l.email, l.external, l.role, false)];
    if r :| r in rows && r.external == l.external && r.role == Operator {
      var i :| 0 <= i < |rows| && rows[i] == r;
      assert after[i].role == Operator && after[|rows|].role != Operator;
    }
  }

  /** No sign-in, recheck or switch changes a member's or administrator's role that stood outside the organisation the
  person's addresses land in, but to make them an operator there too. */
  lemma StandingRolesStay(rows: seq<Row>, e: Event, adminFromDirectory: bool, i: nat)
    requires i < |rows| && rows[i].role != Operator && Proper(rows, e) && !e.RoleChanged?
    requires e.SignsIn? || e.Rechecked? ==> rows[i].org != e.home
    ensures var after := Step(rows, e, adminFromDirectory);
            i < |after| && (after[i].role == rows[i].role || after[i].role == Operator)
  {
    match e {
      case SignsIn(l, home) => SignInLeavesStanding(rows, l, adminFromDirectory, home, i);
      case Switches(at, org, vouched) => if at < |rows| { SwitchLeavesStanding(rows, at, org, vouched, i); }
      case Rechecked(external, role, home) => SyncedRoleIs(rows[i], role, adminFromDirectory, home);
      case Added(l) =>
    }
  }

  lemma SignInLeavesStanding(rows: seq<Row>, l: Link, adminFromDirectory: bool, home: string, i: nat)
    requires i < |rows| && rows[i].role != Operator && rows[i].org != home
    ensures var after := SignIn(rows, l, adminFromDirectory, home).0;
            i < |after| && (after[i].role == rows[i].role || after[i].role == Operator)
  {
    SyncedRoleIs(LinkUser(rows, l).0[i], l.role, adminFromDirectory, home);
  }

  lemma SwitchLeavesStanding(rows: seq<Row>, at: nat, org: string, vouched: bool, i: nat)
    requires at < |rows| && i < |rows| && rows[i].role != Operator
    ensures var after := SwitchOrg(rows, at, org, vouched);
            |after| == |rows| && (after[i].role == rows[i].role || after[i].role == Operator)
  {}
}
