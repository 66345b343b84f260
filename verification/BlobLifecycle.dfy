/** File rows, stored objects, uploads and delete jobs, interleaved statement by statement.

    A delete job loads the rows it is to remove, removes them, asks which of their storage keys are
    still referenced, and purges the others: it resolves what is stored under the key and deletes that
    object by object. An upload stores its blob and then inserts its row; a deduplicated one looks for a
    row to share with and inserts its own row later. Any of these may step in between any others. */
module BlobLifecycle {
  import opened Wrappers
  import opened Text
  import opened FileDelete

  datatype Row = Row(owner: string, storageKey: string, contentHash: string, size: nat,
                     trashed: bool, hlsReady: bool, segments: Option<int>)

  /** `resolved` holds, per key whose purge has begun, the objects still to be deleted. */
  datatype Job =
    | Loaded(ids: set<string>, keys: set<string>)
    | RowsGone(keys: set<string>)
    | Purging(keys: set<string>, resolved: map<string, set<string>>)

  /** `seen` is history kept for the proof: what was stored for the found row when it was found. */
  datatype Upload =
    | Fresh(id: string, row: Row)
    | Found(row: Row, seen: set<string>)

  /** `ids` are all file ids ever given out. */
  datatype World = World(rows: map<string, Row>, objects: set<string>, jobs: map<nat, Job>,
                         uploads: map<nat, Upload>, ids: set<string>)

  datatype Event =
    | BeginUpload(i: nat, id: string, row: Row)
    | PutRoot(i: nat)
    | EndUpload(i: nat)
    | DropUpload(i: nat)
    | FindSource(i: nat, source: string, isVideo: bool)
    | InsertDeduped(i: nat, id: string)
    | Sidecar(id: string, obj: string)
    | SetTrashed(id: string, trashed: bool)
    | Load(job: nat, ids: set<string>)
    | DeleteRows(job: nat)
    | Check(job: nat)
    | CheckFails(job: nat)
    | StartPurge(job: nat, key: string, segments: Option<int>, listlessMime: bool, bulkWorks: bool, listWorks: bool)
    | BulkBreaksOff(job: nat, key: string, gone: set<string>)
    | DeleteObject(job: nat, key: string, obj: string, ok: bool)
    | FinishKey(job: nat, key: string)

  predicate Referenced(rows: map<string, Row>, key: string) {
    exists id :: id in rows && rows[id].storageKey == key
  }

  function KeysOf(rows: map<string, Row>, ids: set<string>): set<string> {
    set id | id in ids && id in rows :: rows[id].storageKey
  }

  /** `find_dedup_source` accepts this row for an upload with the same owner, hash and size. */
  predicate DedupSource(row: Row, isVideo: bool) {
    row.contentHash != "" && !row.trashed && (isVideo ==> row.hlsReady)
  }

  function StoredFor(objects: set<string>, key: string): set<string> {
    set o | o in objects && Under(o, key)
  }

  /** Nothing stored or loaded knows this id. */
  predicate FreeId(w: World, id: string) {
    && id !in w.rows
    && (forall j :: j in w.jobs && w.jobs[j].Loaded? ==> id !in w.jobs[j].ids)
    && (forall i :: i in w.uploads && w.uploads[i].Fresh? ==> id != w.uploads[i].id)
  }

  predicate IsPurging(w: World, job: nat, key: string) {
    job in w.jobs && w.jobs[job].Purging? && key in w.jobs[job].keys
  }

  predicate IsFresh(w: World, i: nat) {
    i in w.uploads && w.uploads[i].Fresh?
  }

  predicate Enabled(w: World, e: Event) {
    match e
    case BeginUpload(i, id, row) =>
      i !in w.uploads && id !in w.ids && SlashFree(id) && SlashFree(row.owner) && !row.trashed &&
      row.storageKey == FileKey(row.owner, id)
    case PutRoot(i) => IsFresh(w, i)
    case EndUpload(i) => IsFresh(w, i)
    case DropUpload(i) => IsFresh(w, i)
    case FindSource(i, source, isVideo) =>
      i !in w.uploads && source in w.rows && DedupSource(w.rows[source], isVideo)
    case InsertDeduped(i, id) => i in w.uploads && w.uploads[i].Found? && FreeId(w, id)
    case Sidecar(id, obj) => id in w.rows && Under(obj, w.rows[id].storageKey)
    case SetTrashed(id, _) => id in w.rows
    case Load(job, ids) => job !in w.jobs && ids <= w.rows.Keys
    case DeleteRows(job) => job in w.jobs && w.jobs[job].Loaded?
    case Check(job) => job in w.jobs && w.jobs[job].RowsGone?
    case CheckFails(job) => job in w.jobs && w.jobs[job].RowsGone?
    case StartPurge(job, key, _, _, _, _) => IsPurging(w, job, key) && key !in w.jobs[job].resolved
    case BulkBreaksOff(job, key, gone) =>
      IsPurging(w, job, key) && key !in w.jobs[job].resolved && gone <= InDirectory(w.objects, key)
    case DeleteObject(job, key, obj, _) =>
      IsPurging(w, job, key) && key in w.jobs[job].resolved && obj in w.jobs[job].resolved[key]
    case FinishKey(job, key) =>
      IsPurging(w, job, key) && key in w.jobs[job].resolved && w.jobs[job].resolved[key] == {}
  }

  function Next(w: World, e: Event): World
    requires Enabled(w, e)
  {
    match e
    case BeginUpload(i, id, row) => w.(uploads := w.uploads[i := Fresh(id, row)], ids := w.ids + {id})
    case PutRoot(i) => w.(objects := w.objects + {w.uploads[i].row.storageKey})
    case EndUpload(i) => w.(rows := w.rows[w.uploads[i].id := w.uploads[i].row], uploads := w.uploads - {i})
    case DropUpload(i) =>
      w.(objects := w.objects - {w.uploads[i].row.storageKey}, uploads := w.uploads - {i})
    case FindSource(i, source, _) =>
      var row := w.rows[source];
      w.(uploads := w.uploads[i := Found(row, StoredFor(w.objects, row.storageKey))])
    case InsertDeduped(i, id) =>
      w.(rows := w.rows[id := w.uploads[i].row], uploads := w.uploads - {i}, ids := w.ids + {id})
    case Sidecar(_, obj) => w.(objects := w.objects + {obj})
    case SetTrashed(id, trashed) => w.(rows := w.rows[id := w.rows[id].(trashed := trashed)])
    case Load(job, ids) => w.(jobs := w.jobs[job := Loaded(ids, KeysOf(w.rows, ids))])
    case DeleteRows(job) =>
      w.(rows := w.rows - w.jobs[job].ids, jobs := w.jobs[job := RowsGone(w.jobs[job].keys)])
    case Check(job) =>
      w.(jobs := w.jobs[job := Purging(w.jobs[job].keys - KeysOf(w.rows, w.rows.Keys), map[])])
    case CheckFails(job) => w.(jobs := w.jobs[job := Purging({}, map[])])
    case StartPurge(job, key, segments, listlessMime, bulkWorks, listWorks) =>
      var found := Resolved(w.objects, key, segments, listlessMime, bulkWorks, listWorks);
      w.(jobs := w.jobs[job := w.jobs[job].(resolved := w.jobs[job].resolved[key := found])])
    case BulkBreaksOff(_, _, gone) => w.(objects := w.objects - gone)
    case DeleteObject(job, key, obj, ok) =>
      var left := w.jobs[job].resolved[key] - {obj};
      w.(objects := if ok then w.objects - {obj} else w.objects,
         jobs := w.jobs[job := w.jobs[job].(resolved := w.jobs[job].resolved[key := left])])
    case FinishKey(job, key) =>
      w.(jobs := w.jobs[job := Purging(w.jobs[job].keys - {key}, w.jobs[job].resolved - {key})])
  }

  lemma KeysOfAll(rows: map<string, Row>, key: string)
    ensures key in KeysOf(rows, rows.Keys) <==> Referenced(rows, key)
  {
    if Referenced(rows, key) {
      var id :| id in rows && rows[id].storageKey == key;
      assert id in rows.Keys;
    }
  }

  /** A row can be shared exactly while it is not trashed and has a hash, and for a video only once its
      stream is ready; what the upload then holds is that row. */
  lemma SourcesAreReady(w: World, i: nat, source: string, isVideo: bool)
    ensures Enabled(w, FindSource(i, source, isVideo)) <==>
            i !in w.uploads && source in w.rows && w.rows[source].contentHash != "" && !w.rows[source].trashed &&
            (isVideo ==> w.rows[source].hlsReady)
    ensures Enabled(w, FindSource(i, source, isVideo)) ==>
              Next(w, FindSource(i, source, isVideo)).uploads[i].row == w.rows[source]
  {
  }

  // ----- what holds of every run ---------------------------------------------------------------

  predicate IsKey(owner: string, id: string, key: string) {
    SlashFree(owner) && SlashFree(id) && key == FileKey(owner, id)
  }

  /** A storage key made for one of the ids. */
  ghost predicate Issued(ids: set<string>, key: string) {
    exists owner, id :: id in ids && IsKey(owner, id, key)
  }

  lemma IssuedSlashes(ids: set<string>, key: string)
    requires Issued(ids, key)
    ensures Slashes(key) == 3
  {
    var owner, id :| id in ids && IsKey(owner, id, key);
    FileKeySlashes(owner, id);
  }

  lemma IssuedGrows(ids: set<string>, more: set<string>, key: string)
    requires Issued(ids, key)
    ensures Issued(ids + more, key)
  {
    var owner, id :| id in ids && IsKey(owner, id, key);
    assert id in ids + more;
  }

  /** A new id makes a new key. */
  lemma NewKeyDiffers(ids: set<string>, owner: string, id: string, key: string)
    requires Issued(ids, key) && id !in ids && SlashFree(owner) && SlashFree(id)
    ensures FileKey(owner, id) != key
  {
    var u, f :| f in ids && IsKey(u, f, key);
    if FileKey(owner, id) == key {
      FileKeysDisjoint(key, u, f, owner, id);
    }
  }

  /** Issued keys own disjoint sets of objects. */
  lemma OwnersAgree(ids: set<string>, obj: string, k1: string, k2: string)
    requires Issued(ids, k1) && Issued(ids, k2) && Under(obj, k1) && Under(obj, k2)
    ensures k1 == k2
  {
    IssuedSlashes(ids, k1);
    IssuedSlashes(ids, k2);
    SameDepthDisjoint(obj, k1, k2);
  }

  /** Every key in use has been issued. */
  ghost predicate KeysIssued(w: World) {
    && (forall id :: id in w.rows ==> Issued(w.ids, w.rows[id].storageKey))
    && (forall i :: i in w.uploads ==> Issued(w.ids, w.uploads[i].row.storageKey))
    && (forall j, k :: j in w.jobs && k in w.jobs[j].keys ==> Issued(w.ids, k))
  }

  /** Every id in use has been given out. */
  ghost predicate IdsGiven(w: World) {
    && w.rows.Keys <= w.ids
    && (forall i :: IsFresh(w, i) ==> w.uploads[i].id in w.ids)
    && (forall j :: j in w.jobs && w.jobs[j].Loaded? ==> w.jobs[j].ids <= w.ids)
  }

  /** What was found for a key and what is being purged lie under the key. */
  ghost predicate ListsUnder(w: World) {
    && (forall i, o :: i in w.uploads && w.uploads[i].Found? && o in w.uploads[i].seen ==>
          Under(o, w.uploads[i].row.storageKey))
    && (forall j, k, o ::
          j in w.jobs && w.jobs[j].Purging? && k in w.jobs[j].resolved && o in w.jobs[j].resolved[k] ==> Under(o, k))
  }

  ghost predicate Keyed(w: World) {
    KeysIssued(w) && IdsGiven(w) && ListsUnder(w)
  }

  /** Nobody but the upload itself knows the key and the id of its row, which is not inserted yet. */
  ghost predicate Apart(w: World, i: nat, key: string, id: string) {
    && !Referenced(w.rows, key) && id !in w.rows
    && (forall j :: j in w.jobs ==> key !in w.jobs[j].keys && (w.jobs[j].Loaded? ==> id !in w.jobs[j].ids))
    && (forall k :: k in w.uploads && k != i ==>
          w.uploads[k].row.storageKey != key && (w.uploads[k].Fresh? ==> w.uploads[k].id != id))
  }

  ghost predicate FreshApart(w: World) {
    forall i :: IsFresh(w, i) ==> Apart(w, i, w.uploads[i].row.storageKey, w.uploads[i].id)
  }

  ghost predicate Inv(w: World) {
    Keyed(w) && FreshApart(w)
  }

  lemma StepKeepsIssued(w: World, e: Event)
    requires KeysIssued(w) && Enabled(w, e)
    ensures KeysIssued(Next(w, e))
  {
    var w' := Next(w, e);
    forall key | Issued(w.ids, key) ensures Issued(w'.ids, key) {
      if e.BeginUpload? || e.InsertDeduped? {
        IssuedGrows(w.ids, {e.id}, key);
      }
    }
    if e.BeginUpload? {
      assert IsKey(e.row.owner, e.id, e.row.storageKey) && e.id in w'.ids;
    }
  }

  lemma StepKeepsLists(w: World, e: Event)
    requires ListsUnder(w) && Enabled(w, e)
    ensures ListsUnder(Next(w, e))
  {
    if e.StartPurge? {
      forall o | o in Resolved(w.objects, e.key, e.segments, e.listlessMime, e.bulkWorks, e.listWorks)
        ensures Under(o, e.key)
      {
        PurgeStaysUnderKey(w.objects, e.key, e.segments, e.listlessMime, e.bulkWorks, e.listWorks, o);
      }
    }
  }

  lemma StepKeepsGiven(w: World, e: Event)
    requires IdsGiven(w) && Enabled(w, e)
    ensures IdsGiven(Next(w, e))
  {
  }

  lemma StepKeepsKeyed(w: World, e: Event)
    requires Keyed(w) && Enabled(w, e)
    ensures Keyed(Next(w, e))
  {
    StepKeepsIssued(w, e);
    StepKeepsGiven(w, e);
    StepKeepsLists(w, e);
  }

  lemma NewUploadApart(w: World, e: Event)
    requires Keyed(w) && Enabled(w, e) && e.BeginUpload?
    ensures Apart(Next(w, e), e.i, e.row.storageKey, e.id)
  {
    var key := e.row.storageKey;
    if Issued(w.ids, key) {
      NewKeyDiffers(w.ids, e.row.owner, e.id, key);
    }
    forall j | j in w.jobs ensures key !in w.jobs[j].keys && (w.jobs[j].Loaded? ==> e.id !in w.jobs[j].ids) {
      assert key in w.jobs[j].keys ==> Issued(w.ids, key);
    }
  }

  lemma UploadStaysApart(w: World, e: Event, i: nat)
    requires Keyed(w) && FreshApart(w) && Enabled(w, e) && IsFresh(w, i) && IsFresh(Next(w, e), i)
    ensures Apart(Next(w, e), i, w.uploads[i].row.storageKey, w.uploads[i].id)
  {
    var w', key, id := Next(w, e), w.uploads[i].row.storageKey, w.uploads[i].id;
    assert Apart(w, i, key, id);
    assert forall x :: x in w.rows ==> w.rows[x].storageKey != key;
    if e.BeginUpload? {
      NewKeyDiffers(w.ids, e.row.owner, e.id, key);
    }
    if Referenced(w'.rows, key) {
      UnreferencedStaysIff(w, e, key);
    }
  }

  lemma StepKeepsFresh(w: World, e: Event)
    requires Keyed(w) && FreshApart(w) && Enabled(w, e)
    ensures FreshApart(Next(w, e))
  {
    var w' := Next(w, e);
    forall i | IsFresh(w', i) ensures Apart(w', i, w'.uploads[i].row.storageKey, w'.uploads[i].id) {
      if e.BeginUpload? && i == e.i {
        NewUploadApart(w, e);
      } else {
        UploadStaysApart(w, e, i);
      }
    }
  }

  /** The invariant needs nothing of the run: stale inserts keep it too. */
  lemma StepKeepsInv(w: World, e: Event)
    requires Inv(w) && Enabled(w, e)
    ensures Inv(Next(w, e))
  {
    StepKeepsKeyed(w, e);
    StepKeepsFresh(w, e);
  }

  /** A key without a row gets one only from an upload that made it or has found it before. */
  lemma UnreferencedStaysIff(w: World, e: Event, key: string)
    requires Enabled(w, e) && !Referenced(w.rows, key)
    ensures Referenced(Next(w, e).rows, key) <==>
            (e.EndUpload? || e.InsertDeduped?) && w.uploads[e.i].row.storageKey == key
  {
    var w' := Next(w, e);
    if Referenced(w'.rows, key) {
      var id :| id in w'.rows && w'.rows[id].storageKey == key;
      assert id in w.rows ==> w.rows[id].storageKey != key;
    }
    if e.EndUpload? {
      assert w'.rows[w.uploads[e.i].id] == w.uploads[e.i].row;
    }
    if e.InsertDeduped? {
      assert w'.rows[e.id] == w.uploads[e.i].row;
    }
  }

  /** If a job purges this key, no row has it. */
  ghost predicate KeyClear(w: World, key: string) {
    forall j :: IsPurging(w, j, key) ==> !Referenced(w.rows, key)
  }

  /** Not an insert of a deduplicated row under this key while a job is purging it. */
  ghost predicate ClearInsert(w: World, e: Event, key: string)
    requires Enabled(w, e)
  {
    e.InsertDeduped? && w.uploads[e.i].row.storageKey == key ==> forall j :: !IsPurging(w, j, key)
  }

  /** Every step keeps a key that is being purged unreferenced, except exactly the insert of a
      deduplicated row under it. */
  lemma StepKeepsClearIff(w: World, e: Event, key: string)
    requires Inv(w) && Enabled(w, e) && KeyClear(w, key)
    ensures KeyClear(Next(w, e), key) <==> ClearInsert(w, e, key)
  {
    var w' := Next(w, e);
    if ClearInsert(w, e, key) {
      forall j | IsPurging(w', j, key) ensures !Referenced(w'.rows, key) {
        if e.Check? && j == e.job {
          KeysOfAll(w.rows, key);
        } else {
          assert IsPurging(w, j, key);
          UnreferencedStaysIff(w, e, key);
        }
      }
    } else {
      var j :| IsPurging(w, j, key);
      assert IsPurging(w', j, key);
      assert w'.rows[e.id].storageKey == key;
    }
  }

  // ----- safety --------------------------------------------------------------------------------

  /** The job has not begun with this key, or still has objects of it on its list. */
  predicate Threatens(w: World, job: nat, key: string) {
    IsPurging(w, job, key) && (key in w.jobs[job].resolved ==> w.jobs[job].resolved[key] != {})
  }

  ghost predicate Unthreatened(w: World, key: string) {
    forall j :: !Threatens(w, j, key)
  }

  /** No step removes an object at or under the storage key of a row, trashed rows included, unless a job
      threatens that very key. */
  lemma StepSparesReferenced(w: World, e: Event, obj: string, id: string)
    requires Inv(w) && Enabled(w, e)
    requires obj in w.objects && obj !in Next(w, e).objects
    requires id in w.rows && Unthreatened(w, w.rows[id].storageKey)
    ensures !Under(obj, w.rows[id].storageKey)
  {
    var key := if e.DropUpload? then w.uploads[e.i].row.storageKey else e.key;
    assert Under(obj, key);
    if Under(obj, w.rows[id].storageKey) {
      OwnersAgree(w.ids, obj, w.rows[id].storageKey, key);
      assert e.DropUpload? ==> Apart(w, e.i, key, w.uploads[e.i].id);
      assert !e.DropUpload? ==> Threatens(w, e.job, key);
    }
  }

  /** A row that exists keeps every job from selecting its key. */
  lemma StaysUnthreatened(w: World, e: Event, id: string)
    requires Enabled(w, e) && id in w.rows && Unthreatened(w, w.rows[id].storageKey)
    ensures Unthreatened(Next(w, e), w.rows[id].storageKey)
  {
    var w', key := Next(w, e), w.rows[id].storageKey;
    forall j ensures !Threatens(w', j, key) {
      KeysOfAll(w.rows, key);
      assert Referenced(w.rows, key);
      assert !Threatens(w, j, key);
    }
  }

  ghost predicate ValidRun(w: World, es: seq<Event>)
    decreases |es|
  {
    es != [] ==> Enabled(w, es[0]) && ValidRun(Next(w, es[0]), es[1..])
  }

  ghost function Final(w: World, es: seq<Event>): World
    requires ValidRun(w, es)
    decreases |es|
  {
    if es == [] then w else Final(Next(w, es[0]), es[1..])
  }

  lemma {:induction false} OneMore(w: World, es: seq<Event>, e: Event)
    requires ValidRun(w, es) && Enabled(Final(w, es), e)
    ensures ValidRun(w, es + [e]) && Final(w, es + [e]) == Next(Final(w, es), e)
    decreases |es|
  {
    if es == [] {
      assert [e][1..] == [];
      assert Final(w, [e]) == Final(Next(w, e), []);
    } else {
      assert (es + [e])[1..] == es[1..] + [e];
      OneMore(Next(w, es[0]), es[1..], e);
    }
  }

  function Start(): World {
    World(map[], {}, map[], map[], {})
  }

  lemma {:induction false} RunKeepsInv(w: World, es: seq<Event>)
    requires Inv(w) && ValidRun(w, es)
    ensures Inv(Final(w, es))
    decreases |es|
  {
    if es != [] {
      StepKeepsInv(w, es[0]);
      RunKeepsInv(Next(w, es[0]), es[1..]);
    }
  }

  /** A row that lives through a run. */
  ghost predicate RowLives(w: World, es: seq<Event>, id: string)
    requires ValidRun(w, es)
    decreases |es|
  {
    id in w.rows && (es != [] ==> RowLives(Next(w, es[0]), es[1..], id))
  }

  /** No step of the run removes an object of this row. */
  ghost predicate Unharmed(w: World, es: seq<Event>, id: string)
    requires ValidRun(w, es)
    decreases |es|
  {
    es != [] ==>
      (id in w.rows ==> StoredFor(w.objects, w.rows[id].storageKey) <= Next(w, es[0]).objects) &&
      Unharmed(Next(w, es[0]), es[1..], id)
  }

  /** Purge safety: however delete jobs, uploads and deduplicated uploads interleave, no object of a file
      is removed while its row lives, if no job threatens its key to begin with. */
  lemma {:induction false} PurgeSafety(w: World, es: seq<Event>, id: string)
    requires Inv(w) && ValidRun(w, es) && RowLives(w, es, id) && Unthreatened(w, w.rows[id].storageKey)
    ensures Unharmed(w, es, id)
    ensures id in Final(w, es).rows && Final(w, es).rows[id].storageKey == w.rows[id].storageKey
    ensures StoredFor(w.objects, w.rows[id].storageKey) <= Final(w, es).objects
    decreases |es|
  {
    if es != [] {
      var w' := Next(w, es[0]);
      forall o | o in StoredFor(w.objects, w.rows[id].storageKey) ensures o in w'.objects {
        if o !in w'.objects {
          StepSparesReferenced(w, es[0], o, id);
        }
      }
      StepKeepsInv(w, es[0]);
      StaysUnthreatened(w, es[0], id);
      SameKeyNext(w, es[0], id);
      PurgeSafety(w', es[1..], id);
    }
  }

  lemma SameKeyNext(w: World, e: Event, id: string)
    requires Inv(w) && Enabled(w, e) && id in w.rows && id in Next(w, e).rows
    ensures Next(w, e).rows[id].storageKey == w.rows[id].storageKey
  {
    assert e.EndUpload? ==> Apart(w, e.i, w.uploads[e.i].row.storageKey, w.uploads[e.i].id);
  }

  // ----- exactly when an insert of a deduplicated row is safe ----------------------------------

  /** On every run that the row lives through it keeps `seen`, and no object of it is removed. */
  ghost predicate SafeFor(w: World, id: string, seen: set<string>) {
    forall es :: ValidRun(w, es) && RowLives(w, es, id) ==>
      seen <= Final(w, es).objects && Unharmed(w, es, id)
  }

  /** A deduplicated row has and keeps, on every run, everything that was stored when its source was
      found, and keeps what is stored for it later, if and only if at the insert no job threatens the
      key and nothing that was found has gone. */
  lemma InsertSafeIff(w: World, i: nat, id: string)
    requires Inv(w) && Enabled(w, InsertDeduped(i, id))
    ensures SafeFor(Next(w, InsertDeduped(i, id)), id, w.uploads[i].seen) <==>
            Unthreatened(w, w.uploads[i].row.storageKey) && w.uploads[i].seen <= w.objects
  {
    var e, key, seen := InsertDeduped(i, id), w.uploads[i].row.storageKey, w.uploads[i].seen;
    var w1 := Next(w, e);
    StepKeepsInv(w, e);
    if j :| Threatens(w, j, key) {
      assert Threatens(w1, j, key);
      var es := PurgeHarms(w1, j, id);
      assert !Unharmed(w1, es, id);
    } else if seen <= w.objects {
      forall j ensures !Threatens(w1, j, key) {
        assert !Threatens(w, j, key);
      }
      forall es | ValidRun(w1, es) && RowLives(w1, es, id)
        ensures seen <= Final(w1, es).objects && Unharmed(w1, es, id)
      {
        PurgeSafety(w1, es, id);
        assert seen <= StoredFor(w1.objects, key);
      }
    } else {
      assert ValidRun(w1, []) && RowLives(w1, [], id) && Final(w1, []) == w1;
    }
  }

  /** A job that threatens the key of a row can remove what is written for that row. */
  lemma PurgeHarms(w: World, job: nat, id: string) returns (es: seq<Event>)
    requires Inv(w) && id in w.rows && Threatens(w, job, w.rows[id].storageKey)
    ensures ValidRun(w, es) && RowLives(w, es, id) && !Unharmed(w, es, id)
  {
    var key := w.rows[id].storageKey;
    var rest;
    var write := Sidecar(id, key);
    if key in w.jobs[job].resolved {
      var obj :| obj in w.jobs[job].resolved[key];
      write := Sidecar(id, obj);
      rest := ListedGoes(Next(w, write), job, id, obj);
    } else {
      rest := PurgeRemovesRoot(Next(w, write), job, id);
    }
    es := [write] + rest;
    assert es[1..] == rest;
  }

  lemma ListedGoes(w: World, job: nat, id: string, obj: string) returns (es: seq<Event>)
    requires id in w.rows && IsPurging(w, job, w.rows[id].storageKey) && w.rows[id].storageKey in w.jobs[job].resolved
    requires obj in w.jobs[job].resolved[w.rows[id].storageKey] && obj in w.objects
    requires Under(obj, w.rows[id].storageKey)
    ensures ValidRun(w, es) && RowLives(w, es, id) && !Unharmed(w, es, id)
  {
    var delete := DeleteObject(job, w.rows[id].storageKey, obj, true);
    es := [delete];
    assert es[1..] == [];
    assert obj in StoredFor(w.objects, w.rows[id].storageKey) && obj !in Next(w, delete).objects;
  }

  lemma PurgeRemovesRoot(w: World, job: nat, id: string) returns (es: seq<Event>)
    requires id in w.rows && IsPurging(w, job, w.rows[id].storageKey) && w.rows[id].storageKey in w.objects
    requires w.rows[id].storageKey !in w.jobs[job].resolved
    ensures ValidRun(w, es) && RowLives(w, es, id) && !Unharmed(w, es, id)
  {
    var key := w.rows[id].storageKey;
    var start := StartPurge(job, key, None, false, true, true);
    KnownKeysUnder(key, None);
    assert key in Resolved(w.objects, key, None, false, true, true);
    var rest := ListedGoes(Next(w, start), job, id, key);
    es := [start] + rest;
    assert es[1..] == rest;
  }

  /** The failing run: an upload finds a row, a job removes that row and finds its key unreferenced, the
      upload inserts its own row under that key, and the job purges it. */
  lemma StaleInsertLosesObjects(w: World, i: nat, job: nat, source: string, id: string) returns (es: seq<Event>)
    requires i !in w.uploads && job !in w.jobs && FreeId(w, id) && source in w.rows
    requires DedupSource(w.rows[source], false) && w.rows[source].storageKey in w.objects
    requires forall x :: x in w.rows && w.rows[x].storageKey == w.rows[source].storageKey ==> x == source
    ensures ValidRun(w, es) && id in Final(w, es).rows && Final(w, es).rows[id] == w.rows[source]
    ensures w.rows[source].storageKey !in Final(w, es).objects
  {
    es := StaleFind(w, i, job, source);
    var insert := InsertDeduped(i, id);
    OneMore(w, es, insert);
    es := es + [insert];
    es := PurgeRuns(w, es, job, w.rows[source].storageKey);
  }

  /** The first half: an upload holds a found row whose key a job has begun to purge. */
  lemma StaleFind(w: World, i: nat, job: nat, source: string) returns (es: seq<Event>)
    requires i !in w.uploads && job !in w.jobs && source in w.rows
    requires DedupSource(w.rows[source], false)
    requires forall x :: x in w.rows && w.rows[x].storageKey == w.rows[source].storageKey ==> x == source
    ensures ValidRun(w, es)
    ensures var w', key := Final(w, es), w.rows[source].storageKey;
            w'.uploads == w.uploads[i := Found(w.rows[source], StoredFor(w.objects, key))] &&
            w'.jobs == w.jobs[job := Purging({key}, map[])] && w'.rows == w.rows - {source} &&
            w'.objects == w.objects
  {
    OneMore(w, [], FindSource(i, source, false));
    es := RemoveRuns(w, [] + [FindSource(i, source, false)], job, source);
    var key := w.rows[source].storageKey;
    KeysOfAll(w.rows - {source}, key);
    assert {key} - KeysOf(w.rows - {source}, (w.rows - {source}).Keys) == {key};
    OneMore(w, es, Check(job));
    es := es + [Check(job)];
  }

  /** A run can go on with a job that loads and removes one row. */
  lemma RemoveRuns(w: World, es: seq<Event>, job: nat, source: string) returns (more: seq<Event>)
    requires ValidRun(w, es) && job !in Final(w, es).jobs && source in Final(w, es).rows
    ensures ValidRun(w, more)
    ensures var w1 := Final(w, es);
            Final(w, more) == w1.(rows := w1.rows - {source},
                                  jobs := w1.jobs[job := RowsGone({w1.rows[source].storageKey})])
  {
    var w1 := Final(w, es);
    assert KeysOf(w1.rows, {source}) == {w1.rows[source].storageKey};
    OneMore(w, es, Load(job, {source}));
    OneMore(w, es + [Load(job, {source})], DeleteRows(job));
    more := es + [Load(job, {source})] + [DeleteRows(job)];
  }

  /** A run that ends with a job purging a key can go on to remove the root blob of the key. */
  lemma PurgeRuns(w: World, es: seq<Event>, job: nat, key: string) returns (more: seq<Event>)
    requires ValidRun(w, es) && IsPurging(Final(w, es), job, key) && key !in Final(w, es).jobs[job].resolved
    ensures ValidRun(w, more) && Final(w, more).rows == Final(w, es).rows && key !in Final(w, more).objects
  {
    var start, delete := StartPurge(job, key, None, false, true, true), DeleteObject(job, key, key, true);
    KnownKeysUnder(key, None);
    OneMore(w, es, start);
    OneMore(w, es + [start], delete);
    more := es + [start] + [delete];
  }

  /** An insert under this key finds it still referenced: a guard the insert could carry itself. */
  ghost predicate GuardedInsert(w: World, e: Event, key: string)
    requires Enabled(w, e)
  {
    e.InsertDeduped? && w.uploads[e.i].row.storageKey == key ==> Referenced(w.rows, key)
  }

  ghost predicate GuardedRun(w: World, es: seq<Event>, key: string)
    requires ValidRun(w, es)
    decreases |es|
  {
    es != [] ==> GuardedInsert(w, es[0], key) && GuardedRun(Next(w, es[0]), es[1..], key)
  }

  /** If the key is still referenced, all that was found for it is still there. */
  ghost predicate SeenKept(w: World, key: string) {
    Referenced(w.rows, key) ==>
      forall i :: i in w.uploads && w.uploads[i].Found? && w.uploads[i].row.storageKey == key ==>
        w.uploads[i].seen <= w.objects
  }

  lemma StepKeepsSeen(w: World, e: Event, key: string)
    requires Inv(w) && KeyClear(w, key) && SeenKept(w, key) && Enabled(w, e) && GuardedInsert(w, e, key)
    ensures SeenKept(Next(w, e), key)
  {
    var w' := Next(w, e);
    if Referenced(w'.rows, key) {
      forall i | i in w'.uploads && w'.uploads[i].Found? && w'.uploads[i].row.storageKey == key
        ensures w'.uploads[i].seen <= w'.objects
      {
        if i in w.uploads {
          FoundStays(w, e, i);
        }
      }
    }
  }

  lemma FoundStays(w: World, e: Event, i: nat)
    requires Inv(w) && Enabled(w, e) && i in w.uploads && w.uploads[i].Found? && i in Next(w, e).uploads
    requires var key := w.uploads[i].row.storageKey;
             KeyClear(w, key) && SeenKept(w, key) && GuardedInsert(w, e, key) && Referenced(Next(w, e).rows, key)
    ensures w.uploads[i].seen <= Next(w, e).objects
  {
    var w', key := Next(w, e), w.uploads[i].row.storageKey;
    if !Referenced(w.rows, key) {
      UnreferencedStaysIff(w, e, key);
    }
    var id :| id in w.rows && w.rows[id].storageKey == key;
    forall j ensures !Threatens(w, j, key) {
      assert !IsPurging(w, j, key);
    }
    forall o | o in w.uploads[i].seen ensures o in w'.objects {
      if o !in w'.objects {
        StepSparesReferenced(w, e, o, id);
      }
    }
  }

  ghost predicate GuardedInsertsSafe(w: World, key: string) {
    forall i, id | Enabled(w, InsertDeduped(i, id)) && w.uploads[i].row.storageKey == key && Referenced(w.rows, key) ::
      SafeFor(Next(w, InsertDeduped(i, id)), id, w.uploads[i].seen)
  }

  /** If every insert under one key finds it still referenced, every such insert is safe, whatever
      happens under other keys and afterwards. */
  lemma {:induction false} GuardSuffices(w: World, es: seq<Event>, key: string)
    requires Inv(w) && KeyClear(w, key) && SeenKept(w, key) && ValidRun(w, es) && GuardedRun(w, es, key)
    ensures KeyClear(Final(w, es), key) && SeenKept(Final(w, es), key) && GuardedInsertsSafe(Final(w, es), key)
    decreases |es|
  {
    if es != [] {
      StepKeepsInv(w, es[0]);
      StepKeepsClearIff(w, es[0], key);
      StepKeepsSeen(w, es[0], key);
      GuardSuffices(Next(w, es[0]), es[1..], key);
    } else {
      forall i, id |
        Enabled(w, InsertDeduped(i, id)) && w.uploads[i].row.storageKey == key && Referenced(w.rows, key)
        ensures SafeFor(Next(w, InsertDeduped(i, id)), id, w.uploads[i].seen)
      {
        forall j ensures !Threatens(w, j, key) {
          assert !IsPurging(w, j, key);
        }
        InsertSafeIff(w, i, id);
      }
    }
  }

  // ----- no leak -------------------------------------------------------------------------------

  /** A job has yet to deal with this object: it has not begun with its key, or has it on its list. */
  ghost predicate Owed(w: World, obj: string, key: string) {
    exists j :: OwedBy(w, j, obj, key)
  }

  predicate OwedBy(w: World, j: nat, obj: string, key: string) {
    j in w.jobs && !w.jobs[j].Loaded? && key in w.jobs[j].keys &&
    (w.jobs[j].Purging? && key in w.jobs[j].resolved ==> obj in w.jobs[j].resolved[key])
  }

  ghost predicate Uploading(w: World, obj: string) {
    exists i :: IsFresh(w, i) && w.uploads[i].row.storageKey == obj
  }

  ghost predicate CoveredBy(w: World, obj: string, key: string) {
    Under(obj, key) && (Referenced(w.rows, key) || Owed(w, obj, key))
  }

  /** Every stored object belongs to a row, to a job that will delete it, or to an upload under way. */
  ghost predicate Covered(w: World) {
    forall o :: o in w.objects ==> Uploading(w, o) || exists k :: CoveredBy(w, o, k)
  }

  /** Reference queries answer, a purge can find all that is stored, and deletions succeed. */
  predicate NoFailure(w: World, e: Event) {
    match e
    case CheckFails(_) => false
    case StartPurge(_, key, segments, listlessMime, bulkWorks, listWorks) =>
      FindsAll(w.objects, key, segments, listlessMime, bulkWorks, listWorks)
    case DeleteObject(_, _, _, ok) => ok
    case _ => true
  }

  /** A loaded job still knows the keys of every row it is about to remove. */
  ghost predicate LoadsOk(w: World) {
    forall j, id :: j in w.jobs && w.jobs[j].Loaded? && id in w.jobs[j].ids && id in w.rows ==>
      w.rows[id].storageKey in w.jobs[j].keys
  }

  lemma StepKeepsLoads(w: World, e: Event)
    requires FreshApart(w) && LoadsOk(w) && Enabled(w, e)
    ensures LoadsOk(Next(w, e))
  {
  }

  lemma StillReferenced(w: World, e: Event, obj: string, key: string)
    requires Enabled(w, e) && LoadsOk(w) && FreshApart(w) && Referenced(w.rows, key)
    ensures Referenced(Next(w, e).rows, key) || Owed(Next(w, e), obj, key)
  {
    var w' := Next(w, e);
    var id :| id in w.rows && w.rows[id].storageKey == key;
    if id in w'.rows {
      assert w'.rows[id].storageKey == key;
    } else {
      assert e.DeleteRows? && OwedBy(w', e.job, obj, key);
    }
  }

  lemma StillOwed(w: World, e: Event, obj: string, key: string)
    requires Enabled(w, e) && NoFailure(w, e) && Owed(w, obj, key) && Under(obj, key)
    requires obj in w.objects && obj in Next(w, e).objects
    ensures Referenced(Next(w, e).rows, key) || Owed(Next(w, e), obj, key)
  {
    var w' := Next(w, e);
    var j :| OwedBy(w, j, obj, key);
    KeysOfAll(w.rows, key);
    if e.StartPurge? && e.job == j && e.key == key {
      ResolvesAllIff(w.objects, key, e.segments, e.listlessMime, e.bulkWorks, e.listWorks);
    }
    assert Referenced(w'.rows, key) || OwedBy(w', j, obj, key);
  }

  lemma ObjectStaysCovered(w: World, e: Event, obj: string)
    requires FreshApart(w) && LoadsOk(w) && Enabled(w, e) && NoFailure(w, e)
    requires obj in w.objects && obj in Next(w, e).objects
    requires Uploading(w, obj) || exists k :: CoveredBy(w, obj, k)
    ensures Uploading(Next(w, e), obj) || exists k :: CoveredBy(Next(w, e), obj, k)
  {
    var w' := Next(w, e);
    if Uploading(w, obj) {
      var i :| IsFresh(w, i) && w.uploads[i].row.storageKey == obj;
      if e.EndUpload? && e.i == i {
        assert w'.rows[w.uploads[i].id].storageKey == obj;
        assert CoveredBy(w', obj, obj);
      } else {
        assert IsFresh(w', i) && w'.uploads[i] == w.uploads[i];
      }
    } else {
      var k :| CoveredBy(w, obj, k);
      if Referenced(w.rows, k) {
        StillReferenced(w, e, obj, k);
      } else {
        StillOwed(w, e, obj, k);
      }
      assert CoveredBy(w', obj, k);
    }
  }

  /** At all times each stored object belongs to a row, to a job that will delete it, or to an upload. */
  lemma StepKeepsCovered(w: World, e: Event)
    requires FreshApart(w) && LoadsOk(w) && Covered(w) && Enabled(w, e) && NoFailure(w, e)
    ensures Covered(Next(w, e))
  {
    var w' := Next(w, e);
    forall o | o in w'.objects ensures Uploading(w', o) || exists k :: CoveredBy(w', o, k) {
      if o in w.objects {
        ObjectStaysCovered(w, e, o);
      } else if e.PutRoot? {
        assert IsFresh(w', e.i) && w'.uploads[e.i].row.storageKey == o;
      } else {
        assert CoveredBy(w', o, w.rows[e.id].storageKey);
      }
    }
  }

  ghost predicate CleanRun(w: World, es: seq<Event>)
    requires ValidRun(w, es)
    decreases |es|
  {
    es != [] ==> NoFailure(w, es[0]) && CleanRun(Next(w, es[0]), es[1..])
  }

  lemma {:induction false} RunKeepsCovered(w: World, es: seq<Event>)
    requires Keyed(w) && FreshApart(w) && LoadsOk(w) && Covered(w) && ValidRun(w, es) && CleanRun(w, es)
    ensures Covered(Final(w, es))
    decreases |es|
  {
    if es != [] {
      StepKeepsKeyed(w, es[0]);
      StepKeepsFresh(w, es[0]);
      StepKeepsLoads(w, es[0]);
      StepKeepsCovered(w, es[0]);
      RunKeepsCovered(Next(w, es[0]), es[1..]);
    }
  }

  ghost predicate Quiescent(w: World) {
    && (forall j :: j in w.jobs ==> w.jobs[j].Purging? && w.jobs[j].keys == {})
    && (forall i :: !IsFresh(w, i))
  }

  /** No leak: after any run in which storage and queries do not fail and every job and upload has
      finished, each stored object belongs to the key of a row that still exists; stale inserts of
      deduplicated rows included. */
  lemma NoLeakAtQuiescence(es: seq<Event>, obj: string)
    requires ValidRun(Start(), es) && CleanRun(Start(), es) && Quiescent(Final(Start(), es))
    requires obj in Final(Start(), es).objects
    ensures exists id :: id in Final(Start(), es).rows && Under(obj, Final(Start(), es).rows[id].storageKey)
  {
    RunKeepsCovered(Start(), es);
    var w := Final(Start(), es);
    var k :| CoveredBy(w, obj, k);
    assert Referenced(w.rows, k);
  }

  // ----- what a finished purge leaves ----------------------------------------------------------

  /** Under a key that neither a row nor an upload of its own has, nothing is written; so what a purge
      has emptied stays empty. */
  lemma UnreferencedOnlyShrinks(w: World, e: Event, key: string, obj: string)
    requires Keyed(w) && Enabled(w, e) && Issued(w.ids, key) && !Referenced(w.rows, key)
    requires forall i :: IsFresh(w, i) ==> w.uploads[i].row.storageKey != key
    requires obj in Next(w, e).objects && Under(obj, key)
    ensures obj in w.objects
  {
    if obj !in w.objects {
      assert e.Sidecar? || e.PutRoot?;
      var k := if e.Sidecar? then w.rows[e.id].storageKey else w.uploads[e.i].row.storageKey;
      OwnersAgree(w.ids, obj, key, k);
    }
  }

  /** The job's purge of the key still has everything of the key on its list. */
  ghost predicate Draining(w: World, job: nat, key: string) {
    IsPurging(w, job, key) && key in w.jobs[job].resolved ==>
      StoredFor(w.objects, key) <= w.jobs[job].resolved[key]
  }

  /** Storage does not fail the job on this key: it finds all that is stored, and deletions succeed. */
  predicate ServesPurge(w: World, e: Event, job: nat, key: string) {
    match e
    case StartPurge(j, k, segments, listlessMime, bulkWorks, listWorks) =>
      j == job && k == key ==> FindsAll(w.objects, key, segments, listlessMime, bulkWorks, listWorks)
    case DeleteObject(j, k, _, ok) => j == job && k == key ==> ok
    case _ => true
  }

  lemma StepKeepsDraining(w: World, e: Event, job: nat, key: string)
    requires Inv(w) && KeyClear(w, key) && Draining(w, job, key) && Enabled(w, e) && ServesPurge(w, e, job, key)
    ensures Draining(Next(w, e), job, key)
  {
    var w' := Next(w, e);
    if IsPurging(w', job, key) && key in w'.jobs[job].resolved {
      forall o | o in StoredFor(w'.objects, key) ensures o in w'.jobs[job].resolved[key] {
        assert IsPurging(w, job, key);
        UnreferencedOnlyShrinks(w, e, key, o);
        if e.StartPurge? && e.job == job && e.key == key {
          ResolvesAllIff(w.objects, key, e.segments, e.listlessMime, e.bulkWorks, e.listWorks);
        }
      }
    }
  }

  /** Every insert under the key finds it not being purged, and storage serves the job's purge of it. */
  ghost predicate PurgeServed(w: World, es: seq<Event>, job: nat, key: string)
    requires ValidRun(w, es)
    decreases |es|
  {
    es != [] ==>
      ClearInsert(w, es[0], key) && ServesPurge(w, es[0], job, key) && PurgeServed(Next(w, es[0]), es[1..], job, key)
  }

  lemma {:induction false} RunKeepsDraining(w: World, es: seq<Event>, job: nat, key: string)
    requires Inv(w) && KeyClear(w, key) && Draining(w, job, key)
    requires ValidRun(w, es) && PurgeServed(w, es, job, key)
    ensures Draining(Final(w, es), job, key)
    decreases |es|
  {
    if es != [] {
      StepKeepsInv(w, es[0]);
      StepKeepsClearIff(w, es[0], key);
      StepKeepsDraining(w, es[0], job, key);
      RunKeepsDraining(Next(w, es[0]), es[1..], job, key);
    }
  }

  /** When a job is done with a key nothing of that key is left, if storage served this purge and no
      insert shared this key while it was under purge. */
  lemma FinishedPurgeLeavesNothing(es: seq<Event>, job: nat, key: string, obj: string)
    requires ValidRun(Start(), es) && PurgeServed(Start(), es, job, key)
    requires Enabled(Final(Start(), es), FinishKey(job, key))
    ensures obj in Final(Start(), es).objects ==> !Under(obj, key)
  {
    RunKeepsDraining(Start(), es, job, key);
    var w := Final(Start(), es);
    assert obj in w.objects && Under(obj, key) ==> obj in StoredFor(w.objects, key);
  }

  // ----- one purge per key ---------------------------------------------------------------------

  datatype PurgeRow = PurgeRow(id: string, storageKey: string, segments: Option<int>, listlessMime: bool)

  /** The rows that `parallel_purge_file_rows` purges: the first one of each key nobody references. */
  method UniqueUnreferenced(rows: seq<PurgeRow>, referenced: set<string>) returns (todo: map<string, PurgeRow>)
    ensures forall key :: key in todo <==>
              key !in referenced && exists k :: 0 <= k < |rows| && rows[k].storageKey == key
    ensures forall key :: key in todo ==>
              exists k :: 0 <= k < |rows| && rows[k] == todo[key] && rows[k].storageKey == key &&
                forall m :: 0 <= m < k ==> rows[m].storageKey != key
  {
    var byKey: map<string, PurgeRow> := map[];
    for i := 0 to |rows|
      invariant forall key :: key in byKey <==> exists k :: 0 <= k < i && rows[k].storageKey == key
      invariant forall key :: key in byKey ==>
                  exists k :: 0 <= k < i && rows[k] == byKey[key] && rows[k].storageKey == key &&
                    forall m :: 0 <= m < k ==> rows[m].storageKey != key
    {
      if rows[i].storageKey !in byKey {
        byKey := byKey[rows[i].storageKey := rows[i]];
      }
    }
    todo := map key | key in byKey && key !in referenced :: byKey[key];
  }
}
