/** Administrator accounts: creating, updating and deleting users under the last-admin guard. */
module LastAdmin {
  import opened Wrappers

  datatype User = User(role: string, enabled: bool)

  /** The users, and the members of the admin group. */
  datatype State = State(users: map<string, User>, group: set<string>)

  const ADMIN: string := "admin"

  /** Enabled, and in the admin group or with role admin. */
  predicate ActiveAdmin(st: State, id: string) {
    id in st.users && st.users[id].enabled && (id in st.group || st.users[id].role == ADMIN)
  }

  function ActiveAdmins(st: State): set<string> {
    set id | id in st.users && ActiveAdmin(st, id)
  }

  // ----- the guard's two counting queries ------------------------------------------------------

  function OtherGroupAdmins(st: State, except: string): set<string> {
    set id | id in st.group && id in st.users && st.users[id].enabled && id != except
  }

  function OtherLegacyAdmins(st: State, except: string): set<string> {
    set id | id in st.users && st.users[id].role == ADMIN && st.users[id].enabled && id != except && id !in st.group
  }

  /** `count_other_active_instance_admins`. */
  function CountOthers(st: State, except: string): nat {
    |OtherGroupAdmins(st, except)| + |OtherLegacyAdmins(st, except)|
  }

  /** The two queries count every other active admin once. */
  lemma CountOthersExact(st: State, except: string)
    ensures CountOthers(st, except) == |ActiveAdmins(st) - {except}|
  {
    var a, b := OtherGroupAdmins(st, except), OtherLegacyAdmins(st, except);
    assert a !! b;
    assert a + b == ActiveAdmins(st) - {except};
  }

  // ----- requests ------------------------------------------------------------------------------

  datatype AdminError = NotFound | BadRequest | Forbidden | Database

  /** `normalize_role` of a trimmed, lower-cased name. */
  function NormalizedRole(role: string): Result<string, AdminError> {
    if role == "user" then Ok("pro")
    else if role == ADMIN || role == "pro" || role == "standard" then Ok(role)
    else Err(BadRequest)
  }

  /** Role, activation, and whether a new quota fits and a new password is long enough. */
  datatype Patch = Patch(role: Option<string>, enabled: Option<bool>, quotaFits: Option<bool>, passwordOk: Option<bool>)

  datatype Write = SetRole(role: string) | SyncGroup(role: string) | SetEnabled(enabled: bool)

  function Written(st: State, id: string, w: Write): State
    requires id in st.users
  {
    match w
    case SetRole(role) => st.(users := st.users[id := st.users[id].(role := role)])
    case SyncGroup(role) => st.(group := if role == ADMIN then st.group + {id} else st.group - {id})
    case SetEnabled(enabled) => st.(users := st.users[id := st.users[id].(enabled := enabled)])
  }

  function WrittenAll(st: State, id: string, ws: seq<Write>): (st': State)
    requires id in st.users
    ensures st'.users.Keys == st.users.Keys
    decreases |ws|
  {
    if ws == [] then st else WrittenAll(Written(st, id, ws[0]), id, ws[1..])
  }

  /** Will the account still be an active admin once the patch is through? */
  predicate StaysAdmin(st: State, id: string, newRole: Option<string>, enabled: bool)
    requires id in st.users
  {
    enabled && (if newRole.Some? then newRole.value == ADMIN else id in st.group || st.users[id].role == ADMIN)
  }

  function RoleWrites(role: Option<string>): seq<Write> {
    if role.Some? then [SetRole(role.value), SyncGroup(role.value)] else []
  }

  /** The writes to role, group and activation that a patch asks for. */
  function WantedWrites(role: Option<string>, enabled: Option<bool>): seq<Write> {
    RoleWrites(role) + if enabled.Some? then [SetEnabled(enabled.value)] else []
  }

  /** The last-admin guard of `update_user`. */
  predicate GuardRefuses(st: State, id: string, role: Option<string>, enabled: Option<bool>)
    requires id in st.users
  {
    (role.Some? || enabled.Some?) && ActiveAdmin(st, id) &&
    !StaysAdmin(st, id, role, if enabled.Some? then enabled.value else st.users[id].enabled) && CountOthers(st, id) == 0
  }

  /** The writes `update_user` attempts, in order, and how it ends if the database does not fail. */
  function UpdatePlan(st: State, actor: string, id: string, p: Patch): (seq<Write>, Result<(), AdminError>)
  {
    if p.role.None? && p.enabled.None? && p.quotaFits.None? && p.passwordOk.None? then ([], Err(BadRequest))
    else if id !in st.users then ([], Err(NotFound))
    else if p.role.Some? && NormalizedRole(p.role.value).Err? then ([], Err(BadRequest))
    else
      var role := if p.role.Some? then Some(NormalizedRole(p.role.value).value) else None;
      if GuardRefuses(st, id, role, p.enabled) then ([], Err(Forbidden))
      else if p.enabled == Some(false) && id == actor then (RoleWrites(role), Err(Forbidden))
      else
        (WantedWrites(role, p.enabled),
         if p.quotaFits == Some(false) || p.passwordOk == Some(false) then Err(BadRequest) else Ok(()))
  }

  /** The role stored for a role asked for. */
  predicate StoredRole(asked: string, stored: string) {
    (asked == "user" && stored == "pro") || (asked in {"admin", "pro", "standard"} && stored == asked)
  }

  /** One account with a new role and activation; membership of the admin group follows a new role. */
  function Patched(st: State, id: string, role: Option<string>, enabled: Option<bool>): State
    requires id in st.users
  {
    var user := st.users[id];
    var stored := if role.None? then user.role else if role.value == "user" then "pro" else role.value;
    State(st.users[id := User(stored, if enabled.Some? then enabled.value else user.enabled)],
          if role.None? then st.group else if stored == "admin" then st.group + {id} else st.group - {id})
  }

  class Accounts {
    var users: map<string, User>
    var group: set<string>
    /** How many more statements the database will execute before it fails. */
    var budget: nat

    ghost function Now(): State
      reads this
    {
      State(users, group)
    }

    constructor (users: map<string, User>, group: set<string>, budget: nat)
      ensures Now() == State(users, group) && this.budget == budget
    {
      this.users, this.group, this.budget := users, group, budget;
    }

    method Write(id: string, w: Write) returns (ok: bool)
      requires id in users
      modifies this
      ensures ok <==> old(budget) > 0
      ensures budget == if ok then old(budget) - 1 else 0
      ensures Now() == if ok then Written(old(Now()), id, w) else old(Now())
    {
      if budget == 0 {
        return false;
      }
      budget := budget - 1;
      ok := true;
      match w
      case SetRole(role) => users := users[id := users[id].(role := role)];
      case SyncGroup(role) => group := if role == ADMIN then group + {id} else group - {id};
      case SetEnabled(enabled) => users := users[id := users[id].(enabled := enabled)];
    }

    /** Writes as far as the database goes along. */
    method WriteAll(id: string, ws: seq<Write>) returns (ok: bool)
      requires id in users
      modifies this
      ensures ok <==> |ws| <= old(budget)
      ensures Now() == WrittenAll(old(Now()), id, if ok then ws else ws[..old(budget)])
    {
      var i := 0;
      while i < |ws|
        invariant i <= |ws| && i <= old(budget) && budget == old(budget) - i && id in users
        invariant Now() == WrittenAll(old(Now()), id, ws[..i])
      {
        var done := Write(id, ws[i]);
        if !done {
          return false;
        }
        WrittenSnoc(old(Now()), id, ws[..i], ws[i]);
        assert ws[..i] + [ws[i]] == ws[..i + 1];
        i := i + 1;
      }
      assert ws[..i] == ws;
      ok := true;
    }

    /** However far it gets, an update performs a prefix of its plan. */
    method UpdateUser(actor: string, id: string, p: Patch) returns (r: Result<(), AdminError>)
      modifies this
      ensures var (ws, end) := UpdatePlan(old(Now()), actor, id, p);
              if |ws| <= old(budget) then
                r == end && (id in old(users) ==> Now() == WrittenAll(old(Now()), id, ws))
              else
                r == Err(Database) && id in old(users) && Now() == WrittenAll(old(Now()), id, ws[..old(budget)])
      ensures id !in old(users) ==> Now() == old(Now())
      ensures r.Ok? ==>
                id in old(users) && !(id == actor && p.enabled == Some(false)) &&
                Now() == Patched(old(Now()), id, p.role, p.enabled)
    {
      if p.role.None? && p.enabled.None? && p.quotaFits.None? && p.passwordOk.None? {
        return Err(BadRequest);
      }
      if id !in users {
        return Err(NotFound);
      }
      var newRole: Option<string> := None;
      if p.role.Some? {
        var normalized := NormalizedRole(p.role.value);
        if normalized.Err? {
          return Err(BadRequest);
        }
        newRole := Some(normalized.value);
      }
      var target := if p.enabled.Some? then p.enabled.value else users[id].enabled;
      var st := State(users, group);
      if p.role.Some? || p.enabled.Some? {
        if ActiveAdmin(st, id) && !StaysAdmin(st, id, newRole, target) {
          if CountOthers(st, id) == 0 {
            return Err(Forbidden);
          }
        }
      }
      var ws, end := UpdateWrites(actor, id, p, newRole);
      var ok := WriteAll(id, ws);
      WantedState(st, id, newRole, p.enabled);
      r := if ok then end else Err(Database);
    }

    method UpdateWrites(actor: string, id: string, p: Patch, newRole: Option<string>)
      returns (ws: seq<Write>, end: Result<(), AdminError>)
      ensures if p.enabled == Some(false) && id == actor then ws == RoleWrites(newRole) && end == Err(Forbidden)
              else ws == WantedWrites(newRole, p.enabled) &&
                   end == if p.quotaFits == Some(false) || p.passwordOk == Some(false) then Err(BadRequest) else Ok(())
    {
      ws := RoleWrites(newRole);
      if p.enabled.Some? {
        if id == actor && !p.enabled.value {
          return ws, Err(Forbidden);
        }
        ws := ws + [SetEnabled(p.enabled.value)];
      }
      if p.quotaFits == Some(false) || p.passwordOk == Some(false) {
        return ws, Err(BadRequest);
      }
      end := Ok(());
    }

    method CreateUser(id: string, role: string, enabled: bool) returns (r: Result<(), AdminError>)
      requires id !in users && id !in group
      modifies this
      ensures r == if NormalizedRole(role).Err? then Err(BadRequest)
                   else if old(budget) < 2 then Err(Database) else Ok(())
      ensures Now() == Created(old(Now()), id, role, enabled, old(budget))
      ensures r != Err(BadRequest) <==> exists stored :: StoredRole(role, stored)
      ensures r.Ok? ==>
                exists stored :: StoredRole(role, stored) && users == old(users)[id := User(stored, enabled)] &&
                  group == old(group) + if stored == "admin" then {id} else {}
      ensures r.Err? ==>
                group == old(group) &&
                (users == old(users) || (r == Err(Database) && users.Keys == old(users).Keys + {id} &&
                                         users == old(users)[id := users[id]]))
    {
      var normalized := NormalizedRole(role);
      if normalized.Err? {
        return Err(BadRequest);
      }
      assert StoredRole(role, normalized.value);
      if budget == 0 {
        return Err(Database);
      }
      users := users[id := User(normalized.value, enabled)];
      budget := budget - 1;
      var synced := Write(id, SyncGroup(normalized.value));
      r := if synced then Ok(()) else Err(Database);
    }

    method DeleteUser(actor: string, id: string) returns (r: Result<(), AdminError>)
      modifies this
      ensures r == DeleteOutcome(old(Now()), actor, id, old(budget))
      ensures Now() == if r.Ok? then Deleted(old(Now()), id) else old(Now())
      ensures r.Ok? ==> users == old(users) - {id} && group == old(group) - {id}
      ensures r == Err(NotFound) <==> id != actor && id !in old(users)
      ensures r.Ok? ==> id != actor
    {
      if id == actor {
        return Err(Forbidden);
      }
      if id !in users {
        return Err(NotFound);
      }
      var st := State(users, group);
      if ActiveAdmin(st, id) && CountOthers(st, id) == 0 {
        return Err(Forbidden);
      }
      if budget == 0 {
        return Err(Database);
      }
      users := users - {id};
      group := group - {id};
      r := Ok(());
    }
  }

  lemma {:induction false} WrittenSnoc(st: State, id: string, ws: seq<Write>, w: Write)
    requires id in st.users
    ensures WrittenAll(st, id, ws + [w]) == Written(WrittenAll(st, id, ws), id, w)
    decreases |ws|
  {
    if ws == [] {
      assert ([] + [w])[1..] == [];
    } else {
      assert (ws + [w])[1..] == ws[1..] + [w];
      WrittenSnoc(Written(st, id, ws[0]), id, ws[1..], w);
    }
  }

  lemma UpdateTwice<K, V>(m: map<K, V>, k: K, u: V, v: V)
    ensures m[k := u][k := v] == m[k := v]
    ensures k in m ==> m[k := m[k]] == m
  {
  }

  /** All the writes a patch asks for amount to the patched account. */
  lemma WantedState(st: State, id: string, role: Option<string>, enabled: Option<bool>)
    requires id in st.users && (role.Some? ==> role.value != "user")
    ensures WrittenAll(st, id, WantedWrites(role, enabled)) == Patched(st, id, role, enabled)
  {
    var user := st.users[id];
    var u := User(if role.Some? then role.value else user.role, user.enabled);
    RoleState(st, id, role);
    if enabled.Some? {
      WrittenSnoc(st, id, RoleWrites(role), SetEnabled(enabled.value));
      UpdateTwice(st.users, id, u, u.(enabled := enabled.value));
    } else {
      assert WantedWrites(role, enabled) == RoleWrites(role);
    }
  }

  lemma WrittenOne(st: State, id: string, a: Write)
    requires id in st.users
    ensures WrittenAll(st, id, [a]) == Written(st, id, a)
  {
    WrittenSnoc(st, id, [], a);
    assert [] + [a] == [a];
  }

  lemma RoleState(st: State, id: string, role: Option<string>)
    requires id in st.users && (role.Some? ==> role.value != "user")
    ensures WrittenAll(st, id, RoleWrites(role)) == Patched(st, id, role, None)
  {
    if role.Some? {
      WrittenOne(st, id, SetRole(role.value));
      WrittenSnoc(st, id, [SetRole(role.value)], SyncGroup(role.value));
      assert [SetRole(role.value)] + [SyncGroup(role.value)] == RoleWrites(role);
    } else {
      UpdateTwice(st.users, id, st.users[id], st.users[id]);
    }
  }

  /** An update goes through, if the database does not fail, exactly when it asks for something, of an
      account that exists, with a known role, a quota that fits and a password long enough, does not
      deactivate the actor, and is not refused by the guard. */
  lemma UpdateGoesThroughIff(st: State, actor: string, id: string, p: Patch)
    ensures UpdatePlan(st, actor, id, p).1.Ok? <==>
            && (p.role.Some? || p.enabled.Some? || p.quotaFits.Some? || p.passwordOk.Some?)
            && id in st.users
            && (p.role.Some? ==> p.role.value in {"user", "admin", "pro", "standard"})
            && p.quotaFits != Some(false) && p.passwordOk != Some(false)
            && !(id == actor && p.enabled == Some(false))
            && !GuardRefuses(st, id, if p.role == Some("user") then Some("pro") else p.role, p.enabled)
  {
  }

  /** An insert, then the group sync; the database may fail before either. */
  function Created(st: State, id: string, role: string, enabled: bool, budget: nat): State {
    if NormalizedRole(role).Err? || budget == 0 then st
    else
      var inserted := st.(users := st.users[id := User(NormalizedRole(role).value, enabled)]);
      if budget == 1 then inserted else Written(inserted, id, SyncGroup(NormalizedRole(role).value))
  }

  /** Group rows go with their user. */
  function Deleted(st: State, id: string): State {
    State(st.users - {id}, st.group - {id})
  }

  function DeleteOutcome(st: State, actor: string, id: string, budget: nat): Result<(), AdminError> {
    if id == actor then Err(Forbidden)
    else if id !in st.users then Err(NotFound)
    else if ActiveAdmin(st, id) && CountOthers(st, id) == 0 then Err(Forbidden)
    else if budget == 0 then Err(Database)
    else Ok(())
  }

  // ----- some administrator always remains -----------------------------------------------------

  lemma OthersRemain(st: State, id: string)
    requires CountOthers(st, id) > 0
    ensures exists other :: other != id && ActiveAdmin(st, other)
  {
    CountOthersExact(st, id);
    var others := ActiveAdmins(st) - {id};
    assert others != {};
    var other :| other in others;
  }

  lemma {:induction false} WritesSpareOthers(st: State, id: string, ws: seq<Write>, other: string)
    requires id in st.users && other != id
    ensures ActiveAdmin(WrittenAll(st, id, ws), other) <==> ActiveAdmin(st, other)
    decreases |ws|
  {
    if ws != [] {
      WritesSpareOthers(Written(st, id, ws[0]), id, ws[1..], other);
    }
  }

  predicate KeepsAdmin(w: Write) {
    w == SetRole(ADMIN) || w == SyncGroup(ADMIN) || w == SetEnabled(true)
  }

  lemma {:induction false} AdminKeepingWrites(st: State, id: string, ws: seq<Write>)
    requires ActiveAdmin(st, id) && forall k :: 0 <= k < |ws| ==> KeepsAdmin(ws[k])
    ensures ActiveAdmin(WrittenAll(st, id, ws), id)
    decreases |ws|
  {
    if ws != [] {
      assert KeepsAdmin(ws[0]);
      AdminKeepingWrites(Written(st, id, ws[0]), id, ws[1..]);
    }
  }

  /** A plan that writes at all on an active admin keeps it one, or others remain. */
  lemma PlanIsGuarded(st: State, actor: string, id: string, p: Patch)
    requires id in st.users && ActiveAdmin(st, id) && UpdatePlan(st, actor, id, p).0 != []
    ensures (forall k :: 0 <= k < |UpdatePlan(st, actor, id, p).0| ==> KeepsAdmin(UpdatePlan(st, actor, id, p).0[k])) ||
            CountOthers(st, id) > 0
  {
  }

  /** An update that stops after any number of its writes leaves an active administrator. */
  lemma UpdateKeepsAdmin(st: State, actor: string, id: string, p: Patch, n: nat)
    requires ActiveAdmins(st) != {} && id in st.users
    requires n <= |UpdatePlan(st, actor, id, p).0|
    ensures ActiveAdmins(WrittenAll(st, id, UpdatePlan(st, actor, id, p).0[..n])) != {}
  {
    var ws := UpdatePlan(st, actor, id, p).0;
    if ws != [] && ActiveAdmin(st, id) {
      PlanIsGuarded(st, actor, id, p);
    }
    PrefixKeepsAdmin(st, id, ws, n);
  }

  lemma PrefixKeepsAdmin(st: State, id: string, ws: seq<Write>, n: nat)
    requires ActiveAdmins(st) != {} && id in st.users && n <= |ws|
    requires ActiveAdmin(st, id) ==> (forall k :: 0 <= k < |ws| ==> KeepsAdmin(ws[k])) || CountOthers(st, id) > 0
    ensures ActiveAdmins(WrittenAll(st, id, ws[..n])) != {}
  {
    var after := WrittenAll(st, id, ws[..n]);
    var someone :| someone in ActiveAdmins(st);
    if someone != id {
      WritesSpareOthers(st, id, ws[..n], someone);
      assert someone in ActiveAdmins(after);
    } else if CountOthers(st, id) > 0 {
      OthersRemain(st, id);
      var other :| other != id && ActiveAdmin(st, other);
      WritesSpareOthers(st, id, ws[..n], other);
      assert other in ActiveAdmins(after);
    } else {
      AdminKeepingWrites(st, id, ws[..n]);
      assert id in ActiveAdmins(after);
    }
  }

  lemma AloneIff(st: State, after: State, id: string)
    requires ActiveAdmins(st) != {}
    requires forall other :: other != id ==> (ActiveAdmin(after, other) <==> ActiveAdmin(st, other))
    ensures ActiveAdmins(after) == {} <==> ActiveAdmin(st, id) && !ActiveAdmin(after, id) && CountOthers(st, id) == 0
  {
    CountOthersExact(st, id);
    assert ActiveAdmins(after) - {id} == ActiveAdmins(st) - {id};
    if ActiveAdmins(after) == {} {
      assert ActiveAdmins(st) - {id} == {};
      assert id !in ActiveAdmins(after);
      assert id in ActiveAdmins(st);
    }
  }

  /** The guard of an update is exact: it refuses if and only if the writes asked for, all done, would
      leave no active administrator. */
  lemma UpdateGuardExact(st: State, id: string, role: Option<string>, enabled: Option<bool>)
    requires ActiveAdmins(st) != {} && id in st.users
    ensures GuardRefuses(st, id, role, enabled) <==> ActiveAdmins(WrittenAll(st, id, WantedWrites(role, enabled))) == {}
  {
    var ws := WantedWrites(role, enabled);
    forall other | other != id ensures ActiveAdmin(WrittenAll(st, id, ws), other) <==> ActiveAdmin(st, other) {
      WritesSpareOthers(st, id, ws, other);
    }
    AloneIff(st, WrittenAll(st, id, ws), id);
    WantedOutcome(st, id, role, enabled);
  }

  /** The prediction made before writing is what the writes bring about. */
  lemma WantedOutcome(st: State, id: string, role: Option<string>, enabled: Option<bool>)
    requires id in st.users
    ensures var target := if enabled.Some? then enabled.value else st.users[id].enabled;
            ActiveAdmin(WrittenAll(st, id, WantedWrites(role, enabled)), id) <==> StaysAdmin(st, id, role, target)
  {
    var st1 := WrittenAll(st, id, RoleWrites(role));
    RoleOutcome(st, id, role);
    if enabled.Some? {
      WrittenSnoc(st, id, RoleWrites(role), SetEnabled(enabled.value));
    } else {
      assert WantedWrites(role, enabled) == RoleWrites(role);
    }
  }

  lemma RoleOutcome(st: State, id: string, role: Option<string>)
    requires id in st.users
    ensures var st1 := WrittenAll(st, id, RoleWrites(role));
            st1.users[id].enabled == st.users[id].enabled &&
            (id in st1.group || st1.users[id].role == ADMIN <==>
               if role.Some? then role.value == ADMIN else id in st.group || st.users[id].role == ADMIN)
  {
    if role.Some? {
      WrittenOne(st, id, SetRole(role.value));
      WrittenSnoc(st, id, [SetRole(role.value)], SyncGroup(role.value));
      assert [SetRole(role.value)] + [SyncGroup(role.value)] == RoleWrites(role);
    }
  }

  /** So is the guard of a deletion. */
  lemma DeleteGuardExact(st: State, actor: string, id: string, budget: nat)
    requires ActiveAdmins(st) != {} && actor != id && id in st.users
    ensures DeleteOutcome(st, actor, id, budget) == Err(Forbidden) <==> ActiveAdmins(Deleted(st, id)) == {}
  {
    CountOthersExact(st, id);
    assert ActiveAdmins(Deleted(st, id)) == ActiveAdmins(st) - {id};
  }

  datatype Event =
    | Create(id: string, role: string, enabled: bool, budget: nat)
    | Update(actor: string, id: string, patch: Patch, budget: nat)
    | Delete(actor: string, id: string, budget: nat)

  predicate EventOk(st: State, e: Event) {
    e.Create? ==> e.id !in st.users && e.id !in st.group
  }

  function Next(st: State, e: Event): State {
    match e
    case Create(id, role, enabled, budget) => Created(st, id, role, enabled, budget)
    case Update(actor, id, patch, budget) =>
      var ws := UpdatePlan(st, actor, id, patch).0;
      if id !in st.users then st
      else WrittenAll(st, id, if |ws| <= budget then ws else ws[..budget])
    case Delete(actor, id, budget) => if DeleteOutcome(st, actor, id, budget).Ok? then Deleted(st, id) else st
  }

  lemma StepKeepsAdmin(st: State, e: Event)
    requires ActiveAdmins(st) != {} && EventOk(st, e)
    ensures ActiveAdmins(Next(st, e)) != {}
  {
    var someone :| someone in ActiveAdmins(st);
    match e
    case Create(id, role, enabled, budget) =>
      assert someone in ActiveAdmins(Next(st, e));
    case Update(actor, id, patch, budget) =>
      if id in st.users {
        var ws := UpdatePlan(st, actor, id, patch).0;
        assert ws[..|ws|] == ws;
        UpdateKeepsAdmin(st, actor, id, patch, if |ws| <= budget then |ws| else budget);
      }
    case Delete(actor, id, budget) =>
      if DeleteOutcome(st, actor, id, budget).Ok? {
        if someone != id {
          assert someone in ActiveAdmins(Next(st, e));
        } else {
          OthersRemain(st, id);
          var other :| other != id && ActiveAdmin(st, other);
          assert other in ActiveAdmins(Next(st, e));
        }
      }
  }

  ghost predicate ValidRun(st: State, es: seq<Event>)
    decreases |es|
  {
    es != [] ==> EventOk(st, es[0]) && ValidRun(Next(st, es[0]), es[1..])
  }

  ghost function Final(st: State, es: seq<Event>): State
    decreases |es|
  {
    if es == [] then st else Final(Next(st, es[0]), es[1..])
  }

  /** Last administrator: over every sequence of creations, updates and deletions, with the database
      failing between any two writes, at least one enabled administrator remains. */
  lemma {:induction false} AnAdminAlwaysRemains(st: State, es: seq<Event>)
    requires ActiveAdmins(st) != {} && ValidRun(st, es)
    ensures ActiveAdmins(Final(st, es)) != {}
    decreases |es|
  {
    if es != [] {
      StepKeepsAdmin(st, es[0]);
      AnAdminAlwaysRemains(Next(st, es[0]), es[1..]);
    }
  }
}
