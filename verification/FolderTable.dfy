/** The folder rows and the operations that create, move and trash them. */
module FolderTable {
  import opened Wrappers
  import opened Text
  import opened Forest

  datatype Folder = Folder(owner: string, parent: Option<string>, name: string, deleted: bool)

  type Folders = map<string, Folder>

  /** The active folders of one owner with their parents: what the ancestor walk can see. */
  function ActiveParents(fs: Folders, owner: string): Parents {
    map id | id in fs && fs[id].owner == owner && !fs[id].deleted :: fs[id].parent
  }

  /** The active folders of everyone. */
  function AllActiveParents(fs: Folders): Parents {
    map id | id in fs && !fs[id].deleted :: fs[id].parent
  }

  predicate IsActive(fs: Folders, id: string) {
    id in fs && !fs[id].deleted
  }

  datatype FolderError =
    | NotFound | AlreadyHere | IntoItself | IntoSubfolder | Forbidden | NameTaken | BadName | Database

  /** `normalize_folder_name`, given the trimmed name as bytes. */
  function NormalizedName(trimmed: string): (r: Result<string, FolderError>)
    ensures r.Ok? <==> trimmed != "" && |trimmed| <= 255 && SlashFree(trimmed) && '\\' !in trimmed &&
                       trimmed != "." && trimmed != ".."
    ensures r.Ok? ==> r.value == trimmed
  {
    if trimmed == "" then Err(BadName)
    else if |trimmed| > 255 then Err(BadName)
    else if '/' in trimmed || '\\' in trimmed then Err(BadName)
    else if trimmed == "." || trimmed == ".." then Err(BadName)
    else Ok(trimmed)
  }

  /** `UNIQUE (user_id, parent_id, name)`: trashed rows count, root folders do not. */
  predicate Clashes(fs: Folders, id: string, owner: string, parent: Option<string>, name: string) {
    parent.Some? &&
    exists x :: x in fs && x != id && fs[x].owner == owner && fs[x].parent == parent && fs[x].name == name
  }

  /** `ensure_unique_folder_name`: active siblings, root included, compared without case. */
  predicate SiblingTaken(fs: Folders, fold: string -> string, id: string, owner: string,
                         parent: Option<string>, name: string) {
    exists x :: x in fs && x != id && fs[x].owner == owner && !fs[x].deleted && fs[x].parent == parent &&
                fold(fs[x].name) == fold(name)
  }

  /** What `move_folder_in_place` answers; `mayWrite` is the authorization decision on the target. */
  ghost function MoveOutcome(fs: Folders, fold: string -> string, user: string, id: string,
                             target: Option<string>, mayWrite: bool): Result<Folders, FolderError>
  {
    if id !in ActiveParents(fs, user) then Err(NotFound)
    else if fs[id].parent == target then Err(AlreadyHere)
    else if target == Some(id) then Err(IntoItself)
    else if target.Some? && OnChain(ActiveParents(fs, user), id, target.value) then Err(IntoSubfolder)
    else if target.Some? && !IsActive(fs, target.value) then Err(NotFound)
    else if target.Some? && !mayWrite then Err(Forbidden)
    else if SiblingTaken(fs, fold, id, user, target, fs[id].name) then Err(NameTaken)
    else if Clashes(fs, id, user, target, fs[id].name) then Err(Database)
    else Ok(fs[id := fs[id].(parent := target)])
  }

  function CreateOutcome(fs: Folders, user: string, id: string, parent: Option<string>, trimmed: string,
                         mayWrite: bool): Result<Folders, FolderError>
  {
    if NormalizedName(trimmed).Err? then Err(BadName)
    else if parent.Some? && !IsActive(fs, parent.value) then Err(NotFound)
    else if parent.Some? && !mayWrite then Err(Forbidden)
    else if Clashes(fs, id, user, parent, trimmed) then Err(NameTaken)
    else Ok(fs[id := Folder(user, parent, trimmed, false)])
  }

  /** A move goes through exactly for an active folder of the user's that is not there already, is put
      at the root or below an active folder outside it that the user may write to, and has there no
      active sibling whose name differs in case at most, and below a folder no trashed one of its name. */
  lemma MoveGoesThroughIff(fs: Folders, fold: string -> string, user: string, id: string,
                           target: Option<string>, mayWrite: bool)
    ensures var r := MoveOutcome(fs, fold, user, id, target, mayWrite);
            && (r.Ok? <==>
                  && id in fs && fs[id].owner == user && !fs[id].deleted
                  && fs[id].parent != target && target != Some(id)
                  && (target.Some? ==>
                        !OnChain(ActiveParents(fs, user), id, target.value) &&
                        target.value in fs && !fs[target.value].deleted && mayWrite)
                  && (forall x :: x in fs && x != id && fs[x].owner == user && fs[x].parent == target ==>
                        (fs[x].deleted || fold(fs[x].name) != fold(fs[id].name)) &&
                        (target.Some? ==> fs[x].name != fs[id].name)))
            && (r.Ok? ==> r.value == fs[id := Folder(user, target, fs[id].name, false)])
            && (r == Err(Forbidden) ==> target.Some? && !mayWrite)
            && (r == Err(IntoSubfolder) ==> target.Some? && OnChain(ActiveParents(fs, user), id, target.value))
            && (r == Err(NameTaken) ==>
                  id in fs &&
                  exists x ::
                    x in fs && x != id && fs[x].owner == user && !fs[x].deleted && fs[x].parent == target &&
                    fold(fs[x].name) == fold(fs[id].name))
  {
  }

  /** A folder is made exactly with a proper name, at the root or below an active folder that the user
      may write to and that holds no folder of that name and owner, trashed ones included. */
  lemma CreateGoesThroughIff(fs: Folders, user: string, id: string, parent: Option<string>, trimmed: string,
                             mayWrite: bool)
    ensures var r := CreateOutcome(fs, user, id, parent, trimmed, mayWrite);
            && (r.Ok? <==>
                  && NormalizedName(trimmed).Ok?
                  && (parent.Some? ==>
                        parent.value in fs && !fs[parent.value].deleted && mayWrite &&
                        forall x :: x in fs && x != id && fs[x].owner == user && fs[x].parent == parent ==>
                          fs[x].name != trimmed))
            && (r.Ok? ==> r.value == fs[id := Folder(user, parent, trimmed, false)])
            && (r == Err(Forbidden) ==> parent.Some? && !mayWrite)
            && (r == Err(NameTaken) ==>
                  parent.Some? &&
                  exists x :: x in fs && fs[x].owner == user && fs[x].parent == parent && fs[x].name == trimmed)
  {
  }

  class FolderTable {
    var folders: Folders

    constructor ()
      ensures folders == map[]
    {
      folders := map[];
    }

    /** The ancestor walk. It may only be started where it ends: on a forest without cycles. */
    method FolderIsAncestorOf(user: string, ancestor: string, candidate: string) returns (r: bool)
      requires Acyclic(ActiveParents(folders, user))
      ensures r <==> OnChain(ActiveParents(folders, user), ancestor, candidate)
    {
      ghost var p := ActiveParents(folders, user);
      if ancestor == candidate {
        OnChainStep(p, ancestor, candidate);
        return true;
      }
      var current := Some(candidate);
      while current.Some?
        invariant current.Some? ==> (OnChain(p, ancestor, current.value) <==> OnChain(p, ancestor, candidate))
        invariant current.None? ==> !OnChain(p, ancestor, candidate)
        decreases if current.None? then 0 else if current.value !in p then 1 else 2 + Height(p, current.value)
      {
        var id := current.value;
        OnChainStep(p, ancestor, id);
        if id == ancestor {
          return true;
        }
        if id !in folders || folders[id].owner != user || folders[id].deleted {
          return false;
        }
        if folders[id].parent.Some? && folders[id].parent.value in p {
          ParentLower(p, id);
        }
        current := folders[id].parent;
      }
      r := false;
    }

    method MoveFolder(fold: string -> string, user: string, id: string, target: Option<string>, mayWrite: bool)
      returns (r: Result<(), FolderError>)
      requires Acyclic(ActiveParents(folders, user))
      modifies this
      ensures var outcome := MoveOutcome(old(folders), fold, user, id, target, mayWrite);
              match outcome
              case Ok(after) => r == Ok(()) && folders == after
              case Err(e) => r == Err(e) && folders == old(folders)
    {
      if id !in folders || folders[id].owner != user || folders[id].deleted {
        return Err(NotFound);
      }
      if folders[id].parent == target {
        return Err(AlreadyHere);
      }
      if target.Some? {
        if target.value == id {
          return Err(IntoItself);
        }
        var below := FolderIsAncestorOf(user, id, target.value);
        if below {
          return Err(IntoSubfolder);
        }
        if !IsActive(folders, target.value) {
          return Err(NotFound);
        }
        if !mayWrite {
          return Err(Forbidden);
        }
      }
      if SiblingTaken(folders, fold, id, user, target, folders[id].name) {
        return Err(NameTaken);
      }
      if Clashes(folders, id, user, target, folders[id].name) {
        return Err(Database);
      }
      folders := folders[id := folders[id].(parent := target)];
      r := Ok(());
    }

    method CreateFolder(user: string, id: string, parent: Option<string>, trimmed: string, mayWrite: bool)
      returns (r: Result<(), FolderError>)
      modifies this
      ensures match CreateOutcome(old(folders), user, id, parent, trimmed, mayWrite)
              case Ok(after) => r == Ok(()) && folders == after
              case Err(e) => r == Err(e) && folders == old(folders)
    {
      var name := NormalizedName(trimmed);
      if name.Err? {
        return Err(BadName);
      }
      if parent.Some? {
        if !IsActive(folders, parent.value) {
          return Err(NotFound);
        }
        if !mayWrite {
          return Err(Forbidden);
        }
      }
      if Clashes(folders, id, user, parent, name.value) {
        return Err(NameTaken);
      }
      folders := folders[id := Folder(user, parent, name.value, false)];
      r := Ok(());
    }
  }

  // ----- every run -----------------------------------------------------------------------------

  datatype Event =
    | Create(user: string, id: string, parent: Option<string>, trimmed: string, mayWrite: bool)
    | Move(user: string, id: string, target: Option<string>, mayWrite: bool)
    | Trash(ids: set<string>)

  /** New ids are fresh, as random identifiers are. */
  predicate Enabled(fs: Folders, e: Event) {
    e.Create? ==> e.id !in fs && e.parent != Some(e.id)
  }

  function Trashed(fs: Folders, ids: set<string>): Folders {
    map id | id in fs :: if id in ids then fs[id].(deleted := true) else fs[id]
  }

  ghost function Next(fs: Folders, fold: string -> string, e: Event): Folders {
    match e
    case Create(user, id, parent, trimmed, mayWrite) =>
      (match CreateOutcome(fs, user, id, parent, trimmed, mayWrite) case Ok(after) => after case Err(_) => fs)
    case Move(user, id, target, mayWrite) =>
      (match MoveOutcome(fs, fold, user, id, target, mayWrite) case Ok(after) => after case Err(_) => fs)
    case Trash(ids) => Trashed(fs, ids)
  }

  ghost predicate Forests(fs: Folders) {
    forall owner :: Acyclic(ActiveParents(fs, owner))
  }

  ghost predicate ParentsExist(fs: Folders) {
    forall id :: id in fs && fs[id].parent.Some? ==> fs[id].parent.value in fs
  }

  ghost predicate NamesOk(fs: Folders) {
    forall id :: id in fs ==> NormalizedName(fs[id].name).Ok?
  }

  predicate SamePlace(f: Folder, g: Folder) {
    f.owner == g.owner && f.parent.Some? && f.parent == g.parent
  }

  ghost predicate SiblingsDiffer(fs: Folders) {
    forall x, y :: x in fs && y in fs && x != y && SamePlace(fs[x], fs[y]) ==> fs[x].name != fs[y].name
  }

  /** For each owner the active folders form a forest; parents exist; names are proper path segments;
      siblings under one parent folder have different names. */
  ghost predicate Inv(fs: Folders) {
    Forests(fs) && ParentsExist(fs) && NamesOk(fs) && SiblingsDiffer(fs)
  }

  lemma InsertKeepsForests(fs: Folders, id: string, f: Folder)
    requires Forests(fs) && ParentsExist(fs) && id !in fs && f.parent != Some(id)
    ensures Forests(fs[id := f])
  {
    var after := fs[id := f];
    forall owner ensures Acyclic(ActiveParents(after, owner)) {
      var p := ActiveParents(fs, owner);
      if owner == f.owner && !f.deleted {
        assert ActiveParents(after, owner) == p[id := f.parent];
        NewLeafAcyclic(p, id, f.parent);
      } else {
        assert ActiveParents(after, owner) == p;
      }
    }
  }

  lemma ReparentKeepsForests(fs: Folders, id: string, target: Option<string>)
    requires Forests(fs) && IsActive(fs, id)
    requires target.Some? ==> !OnChain(ActiveParents(fs, fs[id].owner), id, target.value)
    ensures Forests(fs[id := fs[id].(parent := target)])
  {
    var after := fs[id := fs[id].(parent := target)];
    forall owner ensures Acyclic(ActiveParents(after, owner)) {
      var p := ActiveParents(fs, owner);
      if owner == fs[id].owner {
        assert ActiveParents(after, owner) == p[id := target];
        if target.Some? {
          ReparentAcyclicIff(p, id, target.value);
        } else {
          UprootAcyclic(p, id);
        }
      } else {
        assert ActiveParents(after, owner) == p;
      }
    }
  }

  lemma TrashKeepsForests(fs: Folders, ids: set<string>)
    requires Forests(fs)
    ensures Forests(Trashed(fs, ids))
  {
    forall owner ensures Acyclic(ActiveParents(Trashed(fs, ids), owner)) {
      SubmapAcyclic(ActiveParents(fs, owner), ActiveParents(Trashed(fs, ids), owner));
    }
  }

  lemma PlacedKeepsRest(fs: Folders, id: string, f: Folder)
    requires ParentsExist(fs) && NamesOk(fs) && SiblingsDiffer(fs)
    requires !Clashes(fs, id, f.owner, f.parent, f.name)
    requires NormalizedName(f.name).Ok? && (f.parent.Some? ==> f.parent.value in fs)
    ensures ParentsExist(fs[id := f]) && NamesOk(fs[id := f]) && SiblingsDiffer(fs[id := f])
  {
    var after := fs[id := f];
    forall x, y | x in after && y in after && x != y && SamePlace(after[x], after[y])
      ensures after[x].name != after[y].name
    {
    }
  }

  lemma CreateKeepsInv(fs: Folders, e: Event)
    requires Inv(fs) && Enabled(fs, e) && e.Create?
    requires CreateOutcome(fs, e.user, e.id, e.parent, e.trimmed, e.mayWrite).Ok?
    ensures Inv(CreateOutcome(fs, e.user, e.id, e.parent, e.trimmed, e.mayWrite).value)
  {
    InsertKeepsForests(fs, e.id, Folder(e.user, e.parent, e.trimmed, false));
    PlacedKeepsRest(fs, e.id, Folder(e.user, e.parent, e.trimmed, false));
  }

  lemma MoveKeepsInv(fs: Folders, fold: string -> string, e: Event)
    requires Inv(fs) && e.Move? && MoveOutcome(fs, fold, e.user, e.id, e.target, e.mayWrite).Ok?
    ensures Inv(MoveOutcome(fs, fold, e.user, e.id, e.target, e.mayWrite).value)
  {
    ReparentKeepsForests(fs, e.id, e.target);
    PlacedKeepsRest(fs, e.id, fs[e.id].(parent := e.target));
  }

  /** Every create, move and trash, allowed or refused, keeps the folder invariant. */
  lemma StepKeepsInv(fs: Folders, fold: string -> string, e: Event)
    requires Inv(fs) && Enabled(fs, e)
    ensures Inv(Next(fs, fold, e))
  {
    if e.Create? && CreateOutcome(fs, e.user, e.id, e.parent, e.trimmed, e.mayWrite).Ok? {
      CreateKeepsInv(fs, e);
    } else if e.Move? && MoveOutcome(fs, fold, e.user, e.id, e.target, e.mayWrite).Ok? {
      MoveKeepsInv(fs, fold, e);
    } else if e.Trash? {
      TrashKeepsForests(fs, e.ids);
      TrashKeepsRest(fs, e.ids);
    }
  }

  lemma TrashKeepsRest(fs: Folders, ids: set<string>)
    requires ParentsExist(fs) && NamesOk(fs) && SiblingsDiffer(fs)
    ensures var t := Trashed(fs, ids); ParentsExist(t) && NamesOk(t) && SiblingsDiffer(t)
  {
    var t := Trashed(fs, ids);
    forall x, y | x in t && y in t && x != y && SamePlace(t[x], t[y]) ensures t[x].name != t[y].name {
      assert SamePlace(fs[x], fs[y]);
    }
  }

  ghost predicate ValidRun(fs: Folders, fold: string -> string, es: seq<Event>)
    decreases |es|
  {
    es != [] ==> Enabled(fs, es[0]) && ValidRun(Next(fs, fold, es[0]), fold, es[1..])
  }

  ghost function Final(fs: Folders, fold: string -> string, es: seq<Event>): Folders
    decreases |es|
  {
    if es == [] then fs else Final(Next(fs, fold, es[0]), fold, es[1..])
  }

  lemma {:induction false} ForestStaysAcyclic(fs: Folders, fold: string -> string, es: seq<Event>)
    requires Inv(fs) && ValidRun(fs, fold, es)
    ensures Inv(Final(fs, fold, es))
    decreases |es|
  {
    if es != [] {
      StepKeepsInv(fs, fold, es[0]);
      ForestStaysAcyclic(Next(fs, fold, es[0]), fold, es[1..]);
    }
  }

  // ----- across owners -------------------------------------------------------------------------

  /** The forest of all owners together stays acyclic under a move if and only if the folder is not on
      the whole chain of its target; the walk only looks at the mover's own part of that chain. */
  lemma MoveKeepsWholeForestIff(fs: Folders, fold: string -> string, user: string, id: string,
                                target: string, mayWrite: bool)
    requires Acyclic(AllActiveParents(fs))
    requires MoveOutcome(fs, fold, user, id, Some(target), mayWrite).Ok?
    ensures var after := MoveOutcome(fs, fold, user, id, Some(target), mayWrite).value;
            Acyclic(AllActiveParents(after)) <==> !OnChain(AllActiveParents(fs), id, target)
  {
    var after := MoveOutcome(fs, fold, user, id, Some(target), mayWrite).value;
    assert AllActiveParents(after) == AllActiveParents(fs)[id := Some(target)];
    ReparentAcyclicIff(AllActiveParents(fs), id, target);
  }

  /** Without that condition a move can close a cycle: a folder may go below a folder of another owner
      that itself lies below it. */
  lemma CrossOwnerMoveCanCycle(fold: string -> string, ann: string, bob: string, a: string, b: string)
    requires ann != bob && a != b
    ensures var fs := map[a := Folder(ann, None, "A", false), b := Folder(bob, Some(a), "B", false)];
            Inv(fs) && Acyclic(AllActiveParents(fs)) &&
            MoveOutcome(fs, fold, ann, a, Some(b), true).Ok? &&
            !Acyclic(AllActiveParents(MoveOutcome(fs, fold, ann, a, Some(b), true).value))
  {
    var fs := map[a := Folder(ann, None, "A", false), b := Folder(bob, Some(a), "B", false)];
    var p := AllActiveParents(fs);
    TwoFoldersAcyclic(p, a, b);
    assert Forests(fs) by {
      forall owner ensures Acyclic(ActiveParents(fs, owner)) {
        SubmapAcyclic(p, ActiveParents(fs, owner));
      }
    }
    CrossOwnerMoveAllowed(fs, fold, ann, bob, a, b);
    MoveKeepsWholeForestIff(fs, fold, ann, a, b, true);
    OnChainStep(p, a, a);
    OnChainStep(p, a, b);
  }

  lemma CrossOwnerMoveAllowed(fs: Folders, fold: string -> string, ann: string, bob: string, a: string, b: string)
    requires ann != bob && a != b
    requires fs.Keys == {a, b} && fs[a] == Folder(ann, None, "A", false) && fs[b] == Folder(bob, Some(a), "B", false)
    ensures MoveOutcome(fs, fold, ann, a, Some(b), true).Ok?
  {
    OnChainStep(ActiveParents(fs, ann), a, b);
    MoveGoesThroughIff(fs, fold, ann, a, Some(b), true);
  }

  lemma TwoFoldersAcyclic(p: Parents, a: string, b: string)
    requires a != b && p.Keys == {a, b} && p[a] == None && p[b] == Some(a)
    ensures Acyclic(p)
  {
    forall id | id in p ensures !ProperlyAbove(p, id, id) {
      ProperlyAboveStep(p, id, id);
      OnChainStep(p, b, a);
    }
  }
}
