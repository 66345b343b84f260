/** The worklist walks over a folder's subtree: the deletion preview and the archive listing. */
module FolderWalk {
  import opened Wrappers
  import opened Text
  import opened Forest
  import opened FolderTable

  datatype FileRow = FileRow(owner: string, folder: Option<string>, name: string, deleted: bool)

  type Files = map<string, FileRow>

  function Kids(fs: Folders, user: string, id: string): set<string> {
    set x | x in fs && fs[x].owner == user && !fs[x].deleted && fs[x].parent == Some(id)
  }

  function FilesIn(files: Files, user: string, folder: string): set<string> {
    set f | f in files && files[f].owner == user && !files[f].deleted && files[f].folder == Some(folder)
  }

  /** The root and every active folder of the owner whose chain passes through it. */
  ghost function Subtree(fs: Folders, user: string, root: string): set<string> {
    {root} + Below(fs, user, root)
  }

  ghost function Below(fs: Folders, user: string, root: string): set<string> {
    set x | x in ActiveParents(fs, user) && ProperlyAbove(ActiveParents(fs, user), root, x)
  }

  /** The active files of the owner in some folder of the subtree. */
  ghost function SubtreeFiles(fs: Folders, files: Files, user: string, root: string): set<string> {
    set f | f in files && files[f].owner == user && !files[f].deleted && files[f].folder.Some? &&
            files[f].folder.value in Subtree(fs, user, root)
  }

  ghost predicate NoDuplicates<T>(q: seq<T>) {
    forall i, j :: 0 <= i < j < |q| ==> q[i] != q[j]
  }

  function Elements<T>(q: seq<T>): set<T> {
    set x | x in q
  }

  /** The rows a query returns, in an order the query does not promise. */
  method InSomeOrder<T>(s: set<T>) returns (q: seq<T>)
    ensures NoDuplicates(q) && Elements(q) == s && |q| == |s|
  {
    q := [];
    var todo := s;
    while todo != {}
      invariant Elements(q) + todo == s && Elements(q) !! todo
      invariant NoDuplicates(q) && |q| + |todo| == |s|
      decreases |todo|
    {
      var x :| x in todo;
      ElementsSnoc(q, x);
      q := q + [x];
      todo := todo - {x};
    }
  }

  lemma ElementsSnoc<T>(q: seq<T>, x: T)
    ensures Elements(q + [x]) == Elements(q) + {x}
    ensures NoDuplicates(q) && x !in Elements(q) ==> NoDuplicates(q + [x])
  {
  }

  // ----- the invariant both walks share --------------------------------------------------------

  /** `seen` are the folders already popped, `open` those still on the worklist. */
  ghost predicate Walking(fs: Folders, user: string, root: string, seen: set<string>, open: set<string>) {
    && seen !! open
    && root in seen + open
    && (forall x :: x in seen + open ==> x == root || x in Below(fs, user, root))
    && (forall x :: x in seen ==> Kids(fs, user, x) <= seen + open)
    && (forall x :: x in seen + open && x != root ==> x in fs && fs[x].parent.Some? && fs[x].parent.value in seen)
  }

  /** Popping a folder replaces it on the worklist by its children, none of which was met before. */
  lemma PopFolder(fs: Folders, user: string, root: string, seen: set<string>, open: set<string>, f: string)
    requires Acyclic(ActiveParents(fs, user)) && Walking(fs, user, root, seen, open) && f in open
    ensures Kids(fs, user, f) !! seen + open
    ensures Walking(fs, user, root, seen + {f}, open - {f} + Kids(fs, user, f))
  {
    var p := ActiveParents(fs, user);
    assert OnChain(p, root, f) by {
      OnChainStep(p, root, f);
      if f != root {
        ProperlyAboveStep(p, root, f);
      }
    }
    forall c | c in Kids(fs, user, f) ensures c !in seen + open && c in Below(fs, user, root) {
      ProperlyAboveStep(p, root, c);
      assert ProperlyAbove(p, root, c);
    }
  }

  /** A walk with an empty worklist has seen the whole subtree. */
  lemma WalkedAll(fs: Folders, user: string, root: string, seen: set<string>)
    requires Walking(fs, user, root, seen, {})
    ensures seen == Subtree(fs, user, root)
  {
    var p := ActiveParents(fs, user);
    forall x | x in Below(fs, user, root) ensures x in seen {
      var n: nat :| n > 0 && Up(p, x, n) == Some(root);
      ReachedFromRoot(fs, user, root, seen, x, n);
    }
  }

  lemma {:induction false} ReachedFromRoot(fs: Folders, user: string, root: string, seen: set<string>,
                                           x: string, n: nat)
    requires Walking(fs, user, root, seen, {})
    requires Up(ActiveParents(fs, user), x, n) == Some(root)
    ensures x in seen
    decreases n
  {
    if n > 0 {
      var q := fs[x].parent.value;
      ReachedFromRoot(fs, user, root, seen, q, n - 1);
      assert x in Kids(fs, user, q);
    }
  }

  lemma RootNotBelow(fs: Folders, user: string, root: string)
    requires Acyclic(ActiveParents(fs, user))
    ensures root !in Below(fs, user, root)
    ensures |Subtree(fs, user, root)| == |Below(fs, user, root)| + 1
  {
  }

  ghost function FilesOf(files: Files, user: string, folders: set<string>): set<string> {
    set f | f in files && files[f].owner == user && !files[f].deleted && files[f].folder.Some? &&
            files[f].folder.value in folders
  }

  lemma DisjointConcat<T>(a: seq<T>, b: seq<T>)
    requires NoDuplicates(a) && NoDuplicates(b) && Elements(a) !! Elements(b)
    ensures NoDuplicates(a + b) && Elements(a + b) == Elements(a) + Elements(b)
  {
    forall i, j | 0 <= i < j < |a + b| ensures (a + b)[i] != (a + b)[j] {
      if i < |a| && j >= |a| {
        assert a[i] in Elements(a) && b[j - |a|] in Elements(b);
      }
    }
  }

  lemma PopLast<T>(q: seq<T>)
    requires q != [] && NoDuplicates(q)
    ensures NoDuplicates(q[..|q| - 1]) && Elements(q[..|q| - 1]) == Elements(q) - {q[|q| - 1]}
  {
    var r := q[..|q| - 1];
    forall x | x in Elements(q) - {q[|q| - 1]} ensures x in Elements(r) {
      var i :| 0 <= i < |q| && q[i] == x;
      assert r[i] == x;
    }
    forall x | x in Elements(r) ensures x in Elements(q) - {q[|q| - 1]} {
      var i :| 0 <= i < |r| && r[i] == x;
      assert q[i] == x;
    }
  }

  // ----- the deletion preview ------------------------------------------------------------------

  /** The worklist of a walk that has popped `seen`. */
  ghost predicate QueueOk(fs: Folders, user: string, root: string, seen: set<string>, queue: seq<string>) {
    NoDuplicates(queue) && Walking(fs, user, root, seen, Elements(queue))
  }

  lemma QueueStart(fs: Folders, user: string, root: string)
    ensures QueueOk(fs, user, root, {}, [root])
  {
    assert Elements([root]) == {root};
  }

  /** Popping the last folder and pushing its children. */
  lemma QueueStep(fs: Folders, user: string, root: string, seen: set<string>, queue: seq<string>, children: seq<string>)
    requires Acyclic(ActiveParents(fs, user)) && QueueOk(fs, user, root, seen, queue) && queue != []
    requires NoDuplicates(children) && Elements(children) == Kids(fs, user, queue[|queue| - 1])
    ensures var f := queue[|queue| - 1];
            f !in seen && f in Subtree(fs, user, root) &&
            QueueOk(fs, user, root, seen + {f}, queue[..|queue| - 1] + children)
  {
    var f, rest := queue[|queue| - 1], queue[..|queue| - 1];
    assert f in Elements(queue);
    PopLast(queue);
    PopFolder(fs, user, root, seen, Elements(queue), f);
    DisjointConcat(rest, children);
    assert Elements(rest + children) == Elements(queue) - {f} + Kids(fs, user, f);
  }

  lemma QueueEnd(fs: Folders, user: string, root: string, seen: set<string>)
    requires QueueOk(fs, user, root, seen, [])
    ensures seen == Subtree(fs, user, root)
  {
    var none: seq<string> := [];
    assert Elements(none) == {};
    WalkedAll(fs, user, root, seen);
  }

  lemma FilesOfGrow(files: Files, user: string, seen: set<string>, folder: string)
    ensures FilesOf(files, user, seen + {folder}) == FilesOf(files, user, seen) + FilesIn(files, user, folder)
    ensures folder !in seen ==> FilesOf(files, user, seen) !! FilesIn(files, user, folder)
  {
  }

  /** Every active file of the subtree exactly once, and the number of proper descendant folders. */
  method CollectFolderContents(fs: Folders, files: Files, user: string, root: string)
    returns (found: seq<string>, subfolders: nat)
    requires Acyclic(ActiveParents(fs, user))
    ensures NoDuplicates(found) && Elements(found) == SubtreeFiles(fs, files, user, root)
    ensures subfolders == |Below(fs, user, root)|
  {
    found, subfolders := [], 0;
    var queue := [root];
    ghost var seen: set<string> := {};
    QueueStart(fs, user, root);
    while queue != []
      invariant QueueOk(fs, user, root, seen, queue)
      invariant subfolders + 1 == |seen| + |queue|
      invariant NoDuplicates(found) && Elements(found) == FilesOf(files, user, seen)
      decreases Subtree(fs, user, root) - seen
    {
      var folder := queue[|queue| - 1];
      var children := InSomeOrder(Kids(fs, user, folder));
      QueueStep(fs, user, root, seen, queue, children);
      subfolders := subfolders + |children|;
      queue := queue[..|queue| - 1] + children;
      var rows := InSomeOrder(FilesIn(files, user, folder));
      FilesOfGrow(files, user, seen, folder);
      DisjointConcat(found, rows);
      found := found + rows;
      seen := seen + {folder};
    }
    QueueEnd(fs, user, root, seen);
    RootNotBelow(fs, user, root);
  }

  // ----- the archive listing -------------------------------------------------------------------

  /** Folder names from below the root down to `id`, which is `depth` levels under it. */
  ghost function Segments(fs: Folders, id: string, depth: nat): seq<string>
    decreases depth
  {
    if depth == 0 || id !in fs || fs[id].parent.None? then []
    else Segments(fs, fs[id].parent.value, depth - 1) + [fs[id].name]
  }

  ghost predicate At(fs: Folders, user: string, root: string, id: string, depth: nat) {
    Up(ActiveParents(fs, user), id, depth) == Some(root)
  }

  /** The raw archive path of a file: folder names and file name, joined by slashes. */
  ghost predicate PathIs(fs: Folders, files: Files, user: string, root: string, f: string, path: string) {
    f in files && files[f].folder.Some? &&
    exists depth: nat :: At(fs, user, root, files[f].folder.value, depth) &&
      path == Join(Segments(fs, files[f].folder.value, depth) + [files[f].name])
  }

  function Child(prefix: string, name: string): string {
    if prefix == "" then name else prefix + "/" + name
  }

  lemma {:induction false} JoinSnoc(xs: seq<string>, y: string)
    ensures Join(xs + [y]) == if xs == [] then y else Join(xs) + "/" + y
    decreases |xs|
  {
    if |xs| == 1 {
      assert (xs + [y])[1..] == [y];
    } else if |xs| > 1 {
      assert (xs + [y])[1..] == xs[1..] + [y];
      JoinSnoc(xs[1..], y);
      assert xs[0] + "/" + (Join(xs[1..]) + "/" + y) == xs[0] + "/" + Join(xs[1..]) + "/" + y;
    }
  }

  lemma {:induction false} SegmentsProper(fs: Folders, user: string, root: string, id: string, depth: nat)
    requires NamesOk(fs) && At(fs, user, root, id, depth)
    ensures |Segments(fs, id, depth)| == depth && AllSlashFree(Segments(fs, id, depth))
    ensures depth > 0 ==> Join(Segments(fs, id, depth)) != ""
    decreases depth
  {
    if depth > 0 {
      SegmentsProper(fs, user, root, fs[id].parent.value, depth - 1);
      JoinSnoc(Segments(fs, fs[id].parent.value, depth - 1), fs[id].name);
      assert NormalizedName(fs[id].name).Ok?;
    }
  }

  /** Extending a folder's prefix by a name gives the join of one more segment. */
  lemma ChildIsJoin(fs: Folders, user: string, root: string, id: string, depth: nat, name: string)
    requires NamesOk(fs) && At(fs, user, root, id, depth)
    ensures Child(Join(Segments(fs, id, depth)), name) == Join(Segments(fs, id, depth) + [name])
  {
    SegmentsProper(fs, user, root, id, depth);
    JoinSnoc(Segments(fs, id, depth), name);
  }

  ghost predicate PrefixIs(fs: Folders, user: string, root: string, id: string, prefix: string) {
    exists depth: nat :: At(fs, user, root, id, depth) && prefix == Join(Segments(fs, id, depth))
  }

  lemma ChildPrefix(fs: Folders, user: string, root: string, id: string, prefix: string, c: string)
    requires NamesOk(fs) && PrefixIs(fs, user, root, id, prefix) && c in Kids(fs, user, id)
    ensures PrefixIs(fs, user, root, c, Child(prefix, fs[c].name))
  {
    var depth: nat :| At(fs, user, root, id, depth) && prefix == Join(Segments(fs, id, depth));
    ChildIsJoin(fs, user, root, id, depth, fs[c].name);
    assert At(fs, user, root, c, depth + 1);
    assert Segments(fs, c, depth + 1) == Segments(fs, id, depth) + [fs[c].name];
  }

  lemma FilePath(fs: Folders, files: Files, user: string, root: string, id: string, prefix: string, f: string)
    requires NamesOk(fs) && PrefixIs(fs, user, root, id, prefix) && f in FilesIn(files, user, id)
    ensures PathIs(fs, files, user, root, f, Child(prefix, files[f].name))
  {
    var depth: nat :| At(fs, user, root, id, depth) && prefix == Join(Segments(fs, id, depth));
    ChildIsJoin(fs, user, root, id, depth, files[f].name);
  }

  datatype Entry = Entry(file: string, path: string)

  function Ids(entries: seq<Entry>): seq<string> {
    seq(|entries|, i requires 0 <= i < |entries| => entries[i].file)
  }

  /** The files of `folders`, once each and with their raw paths. */
  ghost predicate Listed(fs: Folders, files: Files, owner: string, root: string, entries: seq<Entry>,
                         ids: set<string>)
  {
    && NoDuplicates(Ids(entries)) && Elements(Ids(entries)) == ids
    && forall i :: 0 <= i < |entries| ==> PathIs(fs, files, owner, root, entries[i].file, entries[i].path)
  }

  ghost predicate Prefixed(fs: Folders, owner: string, root: string, queue: seq<string>, prefixes: seq<string>) {
    |prefixes| == |queue| && forall i :: 0 <= i < |queue| ==> PrefixIs(fs, owner, root, queue[i], prefixes[i])
  }

  lemma ListedAppend(fs: Folders, files: Files, owner: string, root: string,
                     a: seq<Entry>, b: seq<Entry>, x: set<string>, y: set<string>)
    requires Listed(fs, files, owner, root, a, x) && Listed(fs, files, owner, root, b, y) && x !! y
    ensures Listed(fs, files, owner, root, a + b, x + y)
  {
    DisjointConcat(Ids(a), Ids(b));
    assert Ids(a + b) == Ids(a) + Ids(b);
  }

  lemma PrefixedStep(fs: Folders, owner: string, root: string, queue: seq<string>, prefixes: seq<string>,
                     children: seq<string>, more: seq<string>)
    requires Prefixed(fs, owner, root, queue, prefixes) && Prefixed(fs, owner, root, children, more) && queue != []
    ensures Prefixed(fs, owner, root, queue[..|queue| - 1] + children, prefixes[..|queue| - 1] + more)
  {
  }

  /** The listing names every active file of the subtree exactly once, each with its raw path. */
  method CollectZipEntries(fs: Folders, files: Files, owner: string, root: string) returns (entries: seq<Entry>)
    requires Acyclic(ActiveParents(fs, owner)) && NamesOk(fs)
    ensures Listed(fs, files, owner, root, entries, SubtreeFiles(fs, files, owner, root))
  {
    entries := [];
    var queue, prefixes := [root], [""];
    ghost var seen: set<string> := {};
    assert PrefixIs(fs, owner, root, root, "") by {
      assert At(fs, owner, root, root, 0);
    }
    QueueStart(fs, owner, root);
    while queue != []
      invariant Prefixed(fs, owner, root, queue, prefixes)
      invariant QueueOk(fs, owner, root, seen, queue)
      invariant Listed(fs, files, owner, root, entries, FilesOf(files, owner, seen))
      decreases Subtree(fs, owner, root) - seen
    {
      var folder, prefix := queue[|queue| - 1], prefixes[|queue| - 1];
      var children, childPrefixes := ChildFolders(fs, owner, root, folder, prefix);
      QueueStep(fs, owner, root, seen, queue, children);
      PrefixedStep(fs, owner, root, queue, prefixes, children, childPrefixes);
      queue, prefixes := queue[..|queue| - 1] + children, prefixes[..|queue| - 1] + childPrefixes;
      var more := FileEntries(fs, files, owner, root, folder, prefix);
      FilesOfGrow(files, owner, seen, folder);
      ListedAppend(fs, files, owner, root, entries, more, FilesOf(files, owner, seen), FilesIn(files, owner, folder));
      entries := entries + more;
      seen := seen + {folder};
    }
    QueueEnd(fs, owner, root, seen);
  }

  method ChildFolders(fs: Folders, owner: string, ghost root: string, folder: string, prefix: string)
    returns (children: seq<string>, prefixes: seq<string>)
    requires NamesOk(fs) && PrefixIs(fs, owner, root, folder, prefix)
    ensures NoDuplicates(children) && Elements(children) == Kids(fs, owner, folder)
    ensures Prefixed(fs, owner, root, children, prefixes)
  {
    children := InSomeOrder(Kids(fs, owner, folder));
    prefixes := [];
    for i := 0 to |children|
      invariant |prefixes| == i
      invariant forall j :: 0 <= j < i ==> PrefixIs(fs, owner, root, children[j], prefixes[j])
    {
      assert children[i] in Elements(children);
      ChildPrefix(fs, owner, root, folder, prefix, children[i]);
      prefixes := prefixes + [Child(prefix, fs[children[i]].name)];
    }
  }

  method FileEntries(fs: Folders, files: Files, owner: string, ghost root: string, folder: string, prefix: string)
    returns (entries: seq<Entry>)
    requires NamesOk(fs) && PrefixIs(fs, owner, root, folder, prefix)
    ensures Listed(fs, files, owner, root, entries, FilesIn(files, owner, folder))
  {
    var rows := InSomeOrder(FilesIn(files, owner, folder));
    entries := [];
    for i := 0 to |rows|
      invariant Ids(entries) == rows[..i]
      invariant forall j :: 0 <= j < |entries| ==> PathIs(fs, files, owner, root, entries[j].file, entries[j].path)
    {
      assert rows[i] in Elements(rows);
      FilePath(fs, files, owner, root, folder, prefix, rows[i]);
      entries := entries + [Entry(rows[i], Child(prefix, files[rows[i]].name))];
    }
    assert rows[..|rows|] == rows;
  }

  // ----- distinct paths ------------------------------------------------------------------------

  /** Two folders at the same depth with the same names all the way down from the root are one. */
  lemma {:induction false} SameSegmentsSameFolder(fs: Folders, user: string, root: string,
                                                  x: string, y: string, depth: nat)
    requires NamesOk(fs) && SiblingsDiffer(fs)
    requires At(fs, user, root, x, depth) && At(fs, user, root, y, depth)
    requires Segments(fs, x, depth) == Segments(fs, y, depth)
    ensures x == y
    decreases depth
  {
    if depth > 0 {
      var sx, sy := Segments(fs, x, depth), Segments(fs, y, depth);
      SegmentsProper(fs, user, root, x, depth);
      assert sx[depth - 1] == fs[x].name && sy[depth - 1] == fs[y].name by {
        SegmentsProper(fs, user, root, fs[x].parent.value, depth - 1);
        SegmentsProper(fs, user, root, fs[y].parent.value, depth - 1);
      }
      assert Segments(fs, fs[x].parent.value, depth - 1) == sx[..|sx| - 1];
      assert Segments(fs, fs[y].parent.value, depth - 1) == sy[..|sy| - 1];
      SameSegmentsSameFolder(fs, user, root, fs[x].parent.value, fs[y].parent.value, depth - 1);
      assert x != y ==> SamePlace(fs[x], fs[y]);
    }
  }

  /** Two files of the subtree get the same raw path if and only if they lie in the same folder under
      the same name. */
  lemma SamePathIff(fs: Folders, files: Files, user: string, root: string, f: string, g: string,
                    pf: string, pg: string)
    requires Acyclic(ActiveParents(fs, user)) && NamesOk(fs) && SiblingsDiffer(fs)
    requires PathIs(fs, files, user, root, f, pf) && PathIs(fs, files, user, root, g, pg)
    requires SlashFree(files[f].name) && SlashFree(files[g].name)
    ensures pf == pg <==> files[f].folder == files[g].folder && files[f].name == files[g].name
  {
    var x, y := files[f].folder.value, files[g].folder.value;
    var m: nat :| At(fs, user, root, x, m) && pf == Join(Segments(fs, x, m) + [files[f].name]);
    var n: nat :| At(fs, user, root, y, n) && pg == Join(Segments(fs, y, n) + [files[g].name]);
    SegmentsProper(fs, user, root, x, m);
    SegmentsProper(fs, user, root, y, n);
    var sx, sy := Segments(fs, x, m) + [files[f].name], Segments(fs, y, n) + [files[g].name];
    if pf == pg {
      JoinInjective(sx, sy);
      assert m == n && sx[m] == sy[n];
      assert Segments(fs, x, m) == sx[..m] == sy[..n] == Segments(fs, y, n);
      SameSegmentsSameFolder(fs, user, root, x, y, m);
    }
    if x == y {
      DepthUnique(fs, user, root, x, m, n);
    }
  }

  lemma DepthUnique(fs: Folders, user: string, root: string, id: string, m: nat, n: nat)
    requires Acyclic(ActiveParents(fs, user)) && At(fs, user, root, id, m) && At(fs, user, root, id, n)
    ensures m == n
  {
    var p := ActiveParents(fs, user);
    if m < n {
      UpAdd(p, id, m, n - m);
      assert ProperlyAbove(p, root, root);
    } else if n < m {
      UpAdd(p, id, n, m - n);
      assert ProperlyAbove(p, root, root);
    }
  }
}
