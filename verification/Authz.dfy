/** Permissions, grants and the bottom-up resolver, and the top-down list of readable folders. */
module Authz {
  import opened Wrappers
  import opened SetFacts
  import opened Forest
  import opened FolderTable
  import opened FolderWalk

  datatype Permission =
    | InstanceAdmin | InstanceSettingsRead | InstanceSettingsManage | InstanceUsersRead | InstanceUsersManage
    | InstanceGroupsRead | InstanceGroupsManage | InstancePermissionsManage | InstanceAuditRead
    | ContentRead | ContentWrite | ContentDelete | ContentShare | ContentManageAcl

  /** A grant of `granted` counts for a check of `required`. */
  predicate Satisfies(required: Permission, granted: Permission) {
    required == granted ||
    match required
    case InstanceAdmin => granted.InstanceAdmin?
    case InstanceSettingsRead =>
      granted.InstanceAdmin? || granted.InstanceSettingsRead? || granted.InstanceSettingsManage?
    case InstanceSettingsManage => granted.InstanceAdmin? || granted.InstanceSettingsManage?
    case InstanceUsersRead => granted.InstanceAdmin? || granted.InstanceUsersRead? || granted.InstanceUsersManage?
    case InstanceUsersManage => granted.InstanceAdmin? || granted.InstanceUsersManage?
    case InstanceGroupsRead => granted.InstanceAdmin? || granted.InstanceGroupsRead? || granted.InstanceGroupsManage?
    case InstanceGroupsManage => granted.InstanceAdmin? || granted.InstanceGroupsManage?
    case InstancePermissionsManage => granted.InstanceAdmin? || granted.InstancePermissionsManage?
    case InstanceAuditRead => granted.InstanceAdmin? || granted.InstanceAuditRead?
    case ContentRead =>
      granted.ContentWrite? || granted.ContentDelete? || granted.ContentShare? || granted.ContentManageAcl?
    case ContentWrite => granted.ContentManageAcl?
    case ContentShare => granted.ContentManageAcl?
    case ContentDelete => false
    case ContentManageAcl => false
  }

  datatype Subject = User(id: string) | Group(id: string)

  datatype Resource = Instance | FolderRes(id: string) | FileRes(id: string)

  datatype Effect = Allow | Deny | Absent

  /** A grant row; a permission string outside the catalog is `None` and matches nothing. */
  datatype Grant = Grant(
    subject: Subject, resource: Resource, permission: Option<Permission>, allow: bool, expired: bool)

  datatype Db = Db(folders: Folders, files: Files, groups: map<string, set<string>>, grants: seq<Grant>,
                   readShares: set<(string, Resource)>)

  const MAX_DEPTH: nat := 64

  /** `folder_ancestor_chain`: the active folders from `id` upwards, at most `cap` of them. */
  function Chain(p: Parents, id: string, cap: nat): seq<string>
    decreases cap
  {
    if cap == 0 || id !in p then []
    else [id] + (if p[id].Some? then Chain(p, p[id].value, cap - 1) else [])
  }

  /** The resources whose grants apply to a check on `r`. */
  function ResourceKeys(db: Db, r: Resource): set<Resource> {
    match r
    case Instance => {Instance}
    case FolderRes(id) =>
      {Instance, FolderRes(id)} + FoldersUp(db, id)
    case FileRes(id) =>
      {Instance, FileRes(id)} +
      (if id in db.files && !db.files[id].deleted && db.files[id].folder.Some?
       then FoldersUp(db, db.files[id].folder.value) else {})
  }

  function FoldersUp(db: Db, id: string): set<Resource> {
    set a | a in Chain(AllActiveParents(db.folders), id, MAX_DEPTH) :: FolderRes(a)
  }

  predicate SubjectIs(db: Db, user: string, s: Subject) {
    match s
    case User(id) => id == user
    case Group(id) => user in db.groups && id in db.groups[user]
  }

  predicate Applies(db: Db, user: string, keys: set<Resource>, g: Grant) {
    !g.expired && SubjectIs(db, user, g.subject) && g.resource in keys
  }

  predicate Matches(required: Permission, g: Grant) {
    g.permission.Some? && Satisfies(required, g.permission.value)
  }

  // ----- the resolver --------------------------------------------------------------------------

  predicate HasDeny(required: Permission, rows: seq<Grant>) {
    exists g :: g in rows && Matches(required, g) && !g.allow
  }

  predicate HasAllow(required: Permission, rows: seq<Grant>) {
    exists g :: g in rows && Matches(required, g) && g.allow
  }

  /** The order-free meaning of a list of grants. */
  function EffectOf(required: Permission, rows: seq<Grant>): Effect {
    if HasDeny(required, rows) then Deny else if HasAllow(required, rows) then Allow else Absent
  }

  function Applicable(db: Db, user: string, keys: set<Resource>, grants: seq<Grant>): (rows: seq<Grant>)
    ensures forall g :: g in rows <==> g in grants && Applies(db, user, keys, g)
  {
    if grants == [] then []
    else
      var rest := Applicable(db, user, keys, grants[1..]);
      assert forall g :: g in grants <==> g == grants[0] || g in grants[1..];
      if Applies(db, user, keys, grants[0]) then [grants[0]] + rest else rest
  }

  function Rows(db: Db, user: string, r: Resource): seq<Grant> {
    Applicable(db, user, ResourceKeys(db, r), db.grants)
  }

  function Resolve(db: Db, user: string, required: Permission, r: Resource): Effect {
    EffectOf(required, Rows(db, user, r))
  }

  /** The resolver's loop with its early exit, over rows in any order. */
  method EffectOfRows(required: Permission, rows: seq<Grant>) returns (e: Effect)
    ensures e == EffectOf(required, rows)
  {
    var hasAllow := false;
    for i := 0 to |rows|
      invariant hasAllow <==> HasAllow(required, rows[..i])
      invariant !HasDeny(required, rows[..i])
    {
      assert rows[..i + 1] == rows[..i] + [rows[i]];
      if Matches(required, rows[i]) {
        if !rows[i].allow {
          return Deny;
        }
        hasAllow := true;
      }
    }
    assert rows[..|rows|] == rows;
    e := if hasAllow then Allow else Absent;
  }

  /** A stored grant that has a say in whether `user` has `required` on `r`. */
  predicate Governs(db: Db, user: string, required: Permission, r: Resource, g: Grant) {
    g in db.grants && Applies(db, user, ResourceKeys(db, r), g) && Matches(required, g)
  }

  method ResolveEffect(db: Db, user: string, required: Permission, r: Resource) returns (e: Effect)
    ensures e == Deny <==> exists g :: Governs(db, user, required, r, g) && !g.allow
    ensures e == Allow <==>
            (exists g :: Governs(db, user, required, r, g)) && forall g :: Governs(db, user, required, r, g) ==> g.allow
    ensures e == Resolve(db, user, required, r)
  {
    var rows := Rows(db, user, r);
    assert forall g :: Governs(db, user, required, r, g) <==> g in rows && Matches(required, g);
    e := EffectOfRows(required, rows);
  }

  /** `authorize`: deny wins, then an allow, then ownership, then a legacy read share. */
  function Authorized(db: Db, user: string, required: Permission, r: Resource): bool {
    match Resolve(db, user, required, r)
    case Deny => false
    case Allow => true
    case Absent => Owns(db, user, r) || (required.ContentRead? && !r.Instance? && (user, r) in db.readShares)
  }

  predicate Owns(db: Db, user: string, r: Resource) {
    match r
    case Instance => false
    case FolderRes(id) => IsActive(db.folders, id) && db.folders[id].owner == user
    case FileRes(id) => id in db.files && !db.files[id].deleted && db.files[id].owner == user
  }

  // ----- deny algebra --------------------------------------------------------------------------

  lemma SatisfiesTransitive(a: Permission, b: Permission, c: Permission)
    requires Satisfies(a, b) && Satisfies(b, c)
    ensures Satisfies(a, c)
  {
  }

  /** Adding one grant: a matching deny decides, a matching allow lifts Absent only, nothing else counts. */
  lemma AddGrant(required: Permission, rows: seq<Grant>, g: Grant)
    ensures EffectOf(required, rows + [g]) ==
            if !Matches(required, g) then EffectOf(required, rows)
            else if !g.allow then Deny
            else if EffectOf(required, rows) == Deny then Deny else Allow
  {
    assert g in rows + [g];
    assert forall x :: x in rows + [g] <==> x in rows || x == g;
  }

  /** Only which grants there are matters, not their order or number. */
  lemma EffectOrderFree(required: Permission, rows: seq<Grant>, rows': seq<Grant>)
    requires forall g :: g in rows <==> g in rows'
    ensures EffectOf(required, rows) == EffectOf(required, rows')
  {
  }

  /** A denied permission takes every permission it implies with it; an allowed one gives every
      permission it implies unless that one is denied. */
  lemma ImpliedEffects(p: Permission, implied: Permission, rows: seq<Grant>)
    requires Satisfies(implied, p)
    ensures EffectOf(p, rows) == Deny ==> EffectOf(implied, rows) == Deny
    ensures EffectOf(p, rows) == Allow ==> EffectOf(implied, rows) != Absent
  {
    forall g | g in rows && Matches(p, g) ensures Matches(implied, g) {
      SatisfiesTransitive(implied, p, g.permission.value);
    }
  }

  /** Every folder of the chain is an active folder fewer than `cap` levels up, and the other way round. */
  lemma {:induction false} ChainSound(p: Parents, id: string, cap: nat, a: string) returns (n: nat)
    requires a in Chain(p, id, cap)
    ensures n < cap && Up(p, id, n) == Some(a) && a in p
    decreases cap
  {
    if a == id {
      n := 0;
    } else {
      n := ChainSound(p, p[id].value, cap - 1, a);
      n := n + 1;
    }
  }

  lemma {:induction false} ChainComplete(p: Parents, id: string, cap: nat, n: nat)
    requires n < cap && Up(p, id, n).Some? && Up(p, id, n).value in p
    ensures Up(p, id, n).value in Chain(p, id, cap)
    decreases cap
  {
    if n == 0 {
      assert Chain(p, id, cap)[0] == id;
    } else {
      ChainComplete(p, p[id].value, cap - 1, n - 1);
      assert Chain(p, id, cap)[1..] == Chain(p, p[id].value, cap - 1);
    }
  }

  /** A deny on any active ancestor within 64 levels refuses everyone it names, owners included, on the
      folder and on every active file in it, whatever else is granted there. */
  lemma AncestorDenyRefuses(db: Db, user: string, required: Permission, g: Grant, ancestor: string,
                            id: string, n: nat, file: string)
    requires g in db.grants && !g.expired && SubjectIs(db, user, g.subject) && !g.allow
    requires g.resource == FolderRes(ancestor) && Matches(required, g)
    requires n < MAX_DEPTH && Up(AllActiveParents(db.folders), id, n) == Some(ancestor) &&
             ancestor in AllActiveParents(db.folders)
    ensures !Authorized(db, user, required, FolderRes(id))
    ensures file in db.files && !db.files[file].deleted && db.files[file].folder == Some(id) ==>
              !Authorized(db, user, required, FileRes(file))
  {
    ChainComplete(AllActiveParents(db.folders), id, MAX_DEPTH, n);
    assert FolderRes(ancestor) in FoldersUp(db, id);
    assert FolderRes(ancestor) in ResourceKeys(db, FolderRes(id));
    DenyRowRefuses(db, user, required, FolderRes(id), g);
    if file in db.files && !db.files[file].deleted && db.files[file].folder == Some(id) {
      assert FolderRes(ancestor) in ResourceKeys(db, FileRes(file));
      DenyRowRefuses(db, user, required, FileRes(file), g);
    }
  }

  lemma DenyRowRefuses(db: Db, user: string, required: Permission, r: Resource, g: Grant)
    requires g in db.grants && !g.expired && SubjectIs(db, user, g.subject) && !g.allow
    requires Matches(required, g) && g.resource in ResourceKeys(db, r)
    ensures Resolve(db, user, required, r) == Deny && !Authorized(db, user, required, r)
  {
    assert g in Rows(db, user, r);
  }

  // ----- who is let in -------------------------------------------------------------------------

  /** What holding a permission gives, stated from the holder's side. */
  function Gives(granted: Permission): set<Permission> {
    match granted
    case InstanceAdmin =>
      {InstanceAdmin, InstanceSettingsRead, InstanceSettingsManage, InstanceUsersRead, InstanceUsersManage,
       InstanceGroupsRead, InstanceGroupsManage, InstancePermissionsManage, InstanceAuditRead}
    case InstanceSettingsManage => {InstanceSettingsManage, InstanceSettingsRead}
    case InstanceUsersManage => {InstanceUsersManage, InstanceUsersRead}
    case InstanceGroupsManage => {InstanceGroupsManage, InstanceGroupsRead}
    case ContentManageAcl => {ContentManageAcl, ContentRead, ContentWrite, ContentShare}
    case ContentWrite => {ContentWrite, ContentRead}
    case ContentDelete => {ContentDelete, ContentRead}
    case ContentShare => {ContentShare, ContentRead}
    case other => {other}
  }

  lemma SatisfiesIffGives(required: Permission, granted: Permission)
    ensures Satisfies(required, granted) <==> required in Gives(granted)
  {
  }

  /** `a` is an active folder at `id` or fewer than 64 levels above it. */
  ghost predicate FewLevelsUp(fs: Folders, a: string, id: string) {
    IsActive(fs, a) && exists n: nat :: n < 64 && Up(AllActiveParents(fs), id, n) == Some(a)
  }

  lemma ChainIff(fs: Folders, id: string, a: string)
    ensures a in Chain(AllActiveParents(fs), id, MAX_DEPTH) <==> FewLevelsUp(fs, a, id)
  {
    var p := AllActiveParents(fs);
    if a in Chain(p, id, MAX_DEPTH) {
      var n := ChainSound(p, id, MAX_DEPTH, a);
    }
    if FewLevelsUp(fs, a, id) {
      var n: nat :| n < 64 && Up(p, id, n) == Some(a);
      ChainComplete(p, id, MAX_DEPTH, n);
    }
  }

  /** A grant on `on` concerns a request for `r`: the instance, the thing itself, or a folder that an
      active folder or an active file lies in. */
  ghost predicate Concerns(db: Db, on: Resource, r: Resource) {
    match r
    case Instance => on == Instance
    case FolderRes(id) => on == Instance || on == r || (on.FolderRes? && FewLevelsUp(db.folders, on.id, id))
    case FileRes(id) =>
      on == Instance || on == r ||
      (on.FolderRes? && id in db.files && !db.files[id].deleted && db.files[id].folder.Some? &&
       FewLevelsUp(db.folders, on.id, db.files[id].folder.value))
  }

  /** The grant bears on the request: it has not expired, names the user or a group of the user's,
      concerns the resource, and carries a permission that gives the one asked for. */
  ghost predicate BearsOn(db: Db, user: string, required: Permission, r: Resource, g: Grant) {
    && g in db.grants && !g.expired
    && (g.subject == User(user) || (g.subject.Group? && user in db.groups && g.subject.id in db.groups[user]))
    && Concerns(db, g.resource, r)
    && g.permission.Some? && required in Gives(g.permission.value)
  }

  lemma BearsOnIff(db: Db, user: string, required: Permission, r: Resource, g: Grant)
    ensures g in Rows(db, user, r) && Matches(required, g) <==> BearsOn(db, user, required, r, g)
  {
    if g.permission.Some? {
      SatisfiesIffGives(required, g.permission.value);
    }
    KeysIff(db, g.resource, r);
  }

  lemma KeysIff(db: Db, on: Resource, r: Resource)
    ensures on in ResourceKeys(db, r) <==> Concerns(db, on, r)
  {
    if on.FolderRes? && r.FolderRes? {
      ChainIff(db.folders, r.id, on.id);
    }
    if on.FolderRes? && r.FileRes? && r.id in db.files && db.files[r.id].folder.Some? {
      ChainIff(db.folders, db.files[r.id].folder.value, on.id);
    }
  }

  /** A request is let in if and only if no grant that bears on it denies, and one allows, or the user
      owns the active folder or file, or reading is asked for and a legacy share exists. */
  lemma AuthorizedIff(db: Db, user: string, required: Permission, r: Resource)
    ensures Authorized(db, user, required, r) <==>
            && (forall g :: BearsOn(db, user, required, r, g) ==> g.allow)
            && (|| (exists g :: BearsOn(db, user, required, r, g))
                || (r.FolderRes? && r.id in db.folders && !db.folders[r.id].deleted && db.folders[r.id].owner == user)
                || (r.FileRes? && r.id in db.files && !db.files[r.id].deleted && db.files[r.id].owner == user)
                || (required == ContentRead && r != Instance && (user, r) in db.readShares))
  {
    forall g ensures g in Rows(db, user, r) && Matches(required, g) <==> BearsOn(db, user, required, r, g) {
      BearsOnIff(db, user, required, r, g);
    }
    EffectByBearing(db, user, required, r);
  }

  lemma EffectByBearing(db: Db, user: string, required: Permission, r: Resource)
    requires forall g :: g in Rows(db, user, r) && Matches(required, g) <==> BearsOn(db, user, required, r, g)
    ensures Resolve(db, user, required, r) ==
            if exists g :: BearsOn(db, user, required, r, g) && !g.allow then Deny
            else if exists g :: BearsOn(db, user, required, r, g) then Allow else Absent
  {
  }

  // ----- the readable subtree ------------------------------------------------------------------

  /** The permissions the subtree query lists by name. */
  predicate ListedForRead(p: Permission) {
    p.ContentRead? || p.ContentWrite? || p.ContentDelete? || p.ContentShare? || p.ContentManageAcl?
  }

  lemma ListedIffSatisfiesRead(p: Permission)
    ensures ListedForRead(p) <==> Satisfies(ContentRead, p)
  {
  }

  predicate ReadRoot(db: Db, user: string, g: Grant) {
    !g.expired && SubjectIs(db, user, g.subject) && g.resource.FolderRes? && g.allow &&
    g.permission.Some? && ListedForRead(g.permission.value)
  }

  function ReadRoots(db: Db, user: string): set<string> {
    set g | g in db.grants && ReadRoot(db, user, g) :: g.resource.id
  }

  ghost function Descendants(p: Parents, roots: set<string>): set<string> {
    set x | x in p && exists r :: r in roots && r in p && OnChain(p, r, x)
  }

  ghost function Readable(db: Db, user: string): set<string> {
    ReadRoots(db, user) + Descendants(AllActiveParents(db.folders), ReadRoots(db, user))
  }

  lemma {:induction false} HeightGap(p: Parents, id: string, n: nat)
    requires id in p && Up(p, id, n).Some? && Up(p, id, n).value in p
    requires !ProperlyAbove(p, Up(p, id, n).value, Up(p, id, n).value)
    ensures Height(p, Up(p, id, n).value) + n <= Height(p, id)
    decreases n
  {
    if n > 0 {
      var parent, top := p[id].value, Up(p, id, n).value;
      assert parent in p;
      assert Up(p, parent, n - 1) == Some(top);
      if ProperlyAbove(p, parent, parent) {
        assert OnChain(p, top, parent);
        OnChainTransProper(p, top, parent);
      }
      ParentLower(p, id);
      HeightGap(p, parent, n - 1);
    }
  }

  lemma HeightBound(p: Parents, id: string)
    ensures Height(p, id) <= |p|
  {
    SubsetAtMost(Above(p, id), p.Keys);
  }

  /** The folder `n` levels above `id` is an active root. */
  ghost predicate RootAt(p: Parents, roots: set<string>, id: string, n: nat) {
    Up(p, id, n).Some? && Up(p, id, n).value in p && Up(p, id, n).value in roots
  }

  /** The folders exactly `n` levels below an active root. */
  ghost function Level(p: Parents, roots: set<string>, n: nat): set<string> {
    set x | x in p && RootAt(p, roots, x, n)
  }

  function NextLevel(p: Parents, level: set<string>): set<string> {
    set x | x in p && p[x].Some? && p[x].value in level
  }

  lemma LevelStep(p: Parents, roots: set<string>, n: nat)
    ensures NextLevel(p, Level(p, roots, n)) == Level(p, roots, n + 1)
  {
    forall x | x in Level(p, roots, n + 1) ensures x in NextLevel(p, Level(p, roots, n)) {
      UpInside(p, x, n);
    }
  }

  /** The parent of a folder that has an ancestor in the map is in the map itself. */
  lemma {:induction false} UpInside(p: Parents, x: string, n: nat)
    requires x in p && Up(p, x, n + 1).Some? && Up(p, x, n + 1).value in p
    ensures p[x].Some? && p[x].value in p && Up(p, p[x].value, n) == Up(p, x, n + 1)
  {
  }

  // The query joins level after level until one is empty; it does not remember what it has seen.

  ghost predicate QueryEnds(p: Parents, roots: set<string>) {
    exists n: nat :: Level(p, roots, n) == {}
  }

  /** No active root is below itself. */
  ghost predicate RootsOffCycles(p: Parents, roots: set<string>) {
    forall r :: r in roots && r in p ==> !ProperlyAbove(p, r, r)
  }

  /** The recursive query ends if and only if no root lies on a cycle of active folders. */
  lemma QueryEndsIff(p: Parents, roots: set<string>)
    ensures QueryEnds(p, roots) <==> RootsOffCycles(p, roots)
  {
    if RootsOffCycles(p, roots) {
      var level := Level(p, roots, |p| + 1);
      if level != {} {
        var x :| x in level;
        HeightGap(p, x, |p| + 1);
        HeightBound(p, x);
      }
      assert Level(p, roots, |p| + 1) == {};
    } else {
      var r :| r in roots && r in p && ProperlyAbove(p, r, r);
      forall n: nat ensures Level(p, roots, n) != {} {
        CycledRootStays(p, roots, r, n);
      }
    }
  }

  /** A root on a cycle comes back for ever, so no level is empty. */
  lemma CycledRootStays(p: Parents, roots: set<string>, r: string, n: nat)
    requires r in roots && r in p && ProperlyAbove(p, r, r)
    ensures Level(p, roots, n) != {}
  {
    var k: nat :| k > 0 && Up(p, r, k) == Some(r);
    CycleRepeats(p, r, k, n);
    assert r in Level(p, roots, n * k);
    if Level(p, roots, n) == {} {
      assert n <= n * k;
      EmptyLevels(p, roots, n, n * k);
    }
  }

  /** An accepted move can make the query endless: after the move that puts a folder below another
      owner's folder inside it, no level below that folder is empty. */
  lemma CrossOwnerMoveMakesListingEndless(fold: string -> string, ann: string, bob: string, a: string, b: string)
    requires ann != bob && a != b
    ensures var fs := map[a := Folder(ann, None, "A", false), b := Folder(bob, Some(a), "B", false)];
            MoveOutcome(fs, fold, ann, a, Some(b), true).Ok? &&
            !QueryEnds(AllActiveParents(MoveOutcome(fs, fold, ann, a, Some(b), true).value), {a})
  {
    CrossOwnerMoveCanCycle(fold, ann, bob, a, b);
    var fs := map[a := Folder(ann, None, "A", false), b := Folder(bob, Some(a), "B", false)];
    var p := AllActiveParents(MoveOutcome(fs, fold, ann, a, Some(b), true).value);
    assert p[a] == Some(b) && p[b] == Some(a);
    assert Up(p, b, 1) == Up(p, a, 0) == Some(a);
    assert Up(p, a, 2) == Some(a);
    QueryEndsIff(p, {a});
  }

  /** The recursive query, evaluated level by level, on exactly the folders on which it ends. */
  method CollectDescendants(p: Parents, roots: set<string>) returns (found: set<string>)
    requires QueryEnds(p, roots)
    ensures found == Descendants(p, roots) - roots
  {
    QueryEndsIff(p, roots);
    var level := set x | x in p && x in roots;
    var all := level;
    ghost var n := 0;
    assert level == Level(p, roots, 0);
    while level != {}
      invariant n <= |p| + 1
      invariant level == Level(p, roots, n)
      invariant forall x :: x in all <==> exists m: nat :: m <= n && x in Level(p, roots, m)
      decreases |p| + 1 - n
    {
      ghost var someone :| someone in level;
      HeightGap(p, someone, n);
      HeightBound(p, someone);
      LevelStep(p, roots, n);
      level := NextLevel(p, level);
      n := n + 1;
      all := all + level;
    }
    forall x ensures x in all <==> x in Descendants(p, roots) {
      AllLevels(p, roots, n, x);
    }
    assert all == Descendants(p, roots);
    found := all - roots;
  }

  lemma {:induction false} EmptyLevels(p: Parents, roots: set<string>, n: nat, m: nat)
    requires Level(p, roots, n) == {} && n <= m
    ensures Level(p, roots, m) == {}
    decreases m
  {
    if n < m {
      EmptyLevels(p, roots, n, m - 1);
      LevelStep(p, roots, m - 1);
    }
  }

  lemma AllLevels(p: Parents, roots: set<string>, n: nat, x: string)
    requires Level(p, roots, n) == {}
    ensures (exists m: nat :: m <= n && x in Level(p, roots, m)) <==> x in Descendants(p, roots)
  {
    if x in Descendants(p, roots) {
      var r :| r in roots && r in p && OnChain(p, r, x);
      var m: nat :| Up(p, x, m) == Some(r);
      assert x in Level(p, roots, m);
      if m > n {
        EmptyLevels(p, roots, n, m);
      }
    }
    if exists m: nat :: m <= n && x in Level(p, roots, m) {
      var m: nat :| m <= n && x in Level(p, roots, m);
      var r := Up(p, x, m).value;
      assert OnChain(p, r, x);
    }
  }

  method ReadableFolderSubtreeIds(db: Db, user: string) returns (all: set<string>)
    requires QueryEnds(AllActiveParents(db.folders), ReadRoots(db, user))
    ensures all == Readable(db, user)
  {
    var roots: set<string> := {};
    for i := 0 to |db.grants|
      invariant roots == set g | g in db.grants[..i] && ReadRoot(db, user, g) :: g.resource.id
    {
      assert db.grants[..i + 1] == db.grants[..i] + [db.grants[i]];
      if ReadRoot(db, user, db.grants[i]) {
        roots := roots + {db.grants[i].resource.id};
      }
    }
    assert db.grants[..|db.grants|] == db.grants;
    var below := CollectDescendants(AllActiveParents(db.folders), roots);
    all := roots + below;
  }

  // ----- the two agree -------------------------------------------------------------------------

  predicate InstanceReadAllow(db: Db, user: string) {
    exists g :: g in db.grants && !g.expired && SubjectIs(db, user, g.subject) && g.resource.Instance? &&
                Matches(ContentRead, g) && g.allow
  }

  /** Some granted folder lies fewer than 64 levels above `id`, or is `id`. */
  ghost predicate RootWithin64(db: Db, user: string, id: string) {
    exists n: nat :: n < MAX_DEPTH && RootAt(AllActiveParents(db.folders), ReadRoots(db, user), id, n)
  }

  lemma ReadableIff(db: Db, user: string, id: string)
    requires id in AllActiveParents(db.folders)
    ensures id in Readable(db, user) <==>
            exists n: nat :: RootAt(AllActiveParents(db.folders), ReadRoots(db, user), id, n)
  {
    var p, roots := AllActiveParents(db.folders), ReadRoots(db, user);
    if id in roots {
      assert Up(p, id, 0) == Some(id);
      assert RootAt(p, roots, id, 0);
    }
    if id in Descendants(p, roots) {
      var r :| r in roots && r in p && OnChain(p, r, id);
      var n: nat :| Up(p, id, n) == Some(r);
      assert RootAt(p, roots, id, n);
    }
    if n: nat :| RootAt(p, roots, id, n) {
      assert OnChain(p, Up(p, id, n).value, id);
    }
  }

  /** What the resolver's rows say about reading a folder. */
  lemma AllowRowsIff(db: Db, user: string, id: string)
    requires id in AllActiveParents(db.folders)
    ensures HasAllow(ContentRead, Rows(db, user, FolderRes(id))) <==>
            InstanceReadAllow(db, user) || RootWithin64(db, user, id)
  {
    var p, roots := AllActiveParents(db.folders), ReadRoots(db, user);
    var rows := Rows(db, user, FolderRes(id));
    if HasAllow(ContentRead, rows) {
      var g :| g in rows && Matches(ContentRead, g) && g.allow;
      ListedIffSatisfiesRead(g.permission.value);
      if g.resource.FolderRes? {
        assert ReadRoot(db, user, g);
        assert g.resource.id in roots;
        if g.resource.id == id {
          assert Up(p, id, 0) == Some(id);
          assert RootAt(p, roots, id, 0);
        } else {
          var n := ChainSound(p, id, MAX_DEPTH, g.resource.id);
          assert RootAt(p, roots, id, n);
        }
      }
    }
    if RootWithin64(db, user, id) {
      var n: nat :| n < MAX_DEPTH && RootAt(p, roots, id, n);
      var g :| g in db.grants && ReadRoot(db, user, g) && g.resource.id == Up(p, id, n).value;
      ListedIffSatisfiesRead(g.permission.value);
      ChainComplete(p, id, MAX_DEPTH, n);
      assert g.resource.id in Chain(p, id, MAX_DEPTH);
      assert FolderRes(g.resource.id) in FoldersUp(db, id);
      assert g in rows;
    }
    if InstanceReadAllow(db, user) {
      var g :| g in db.grants && !g.expired && SubjectIs(db, user, g.subject) && g.resource.Instance? &&
        Matches(ContentRead, g) && g.allow;
      assert g in rows;
    }
  }

  /** The fast list agrees with the resolver: up to 64 levels deep, an active folder resolves to Allow
      for reading exactly when it is listed, or reading is granted on the instance, and no applicable
      grant denies it. */
  lemma FastAgreesWithSlow(db: Db, user: string, id: string)
    requires id in AllActiveParents(db.folders)
    requires var p := AllActiveParents(db.folders);
             forall n: nat :: Up(p, id, n).Some? && Up(p, id, n).value in p ==> n < MAX_DEPTH
    ensures Resolve(db, user, ContentRead, FolderRes(id)) == Allow <==>
            (id in Readable(db, user) || InstanceReadAllow(db, user)) &&
            !HasDeny(ContentRead, Rows(db, user, FolderRes(id)))
  {
    AllowRowsIff(db, user, id);
    ReadableIff(db, user, id);
  }

  /** At any depth, and with neither deny nor instance grants, the two agree on a folder if and only if
      it is not listed solely on account of folders 64 or more levels above it. */
  lemma AgreementIffWithin64(db: Db, user: string, id: string)
    requires id in AllActiveParents(db.folders)
    requires !InstanceReadAllow(db, user) && !HasDeny(ContentRead, Rows(db, user, FolderRes(id)))
    ensures (Resolve(db, user, ContentRead, FolderRes(id)) == Allow ==> id in Readable(db, user))
    ensures (id in Readable(db, user) <==> Resolve(db, user, ContentRead, FolderRes(id)) == Allow) <==>
            (id in Readable(db, user) ==> RootWithin64(db, user, id))
  {
    AllowRowsIff(db, user, id);
    ReadableIff(db, user, id);
  }
}
