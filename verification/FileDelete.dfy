/** Storage keys of a file and the purge of everything stored under one key. */
module FileDelete {
  import opened Wrappers
  import opened Text

  /** The storage key of a file row: a name no other file shares. */
  function FileKey(userId: string, fileId: string): string {
    "users/" + userId + "/files/" + fileId
  }

  /** An object that belongs to a storage key: the root blob or anything in its directory. */
  predicate Under(obj: string, key: string) {
    obj == key || key + "/" <= obj
  }

  lemma FileKeySlashes(userId: string, fileId: string)
    requires SlashFree(userId) && SlashFree(fileId)
    ensures Slashes(FileKey(userId, fileId)) == 3
  {
    SlashFreeHasNone(userId);
    SlashFreeHasNone(fileId);
    SlashesConcat("users/" + userId + "/files/", fileId);
    SlashesConcat("users/" + userId, "/files/");
    SlashesConcat("users/", userId);
    assert Slashes("users/") == 1 by {
      SlashesConcat("users", "/");
      SlashFreeHasNone("users");
    }
    assert Slashes("/files/") == 2 by {
      SlashesConcat("/files", "/");
      SlashesConcat("/", "files");
      SlashFreeHasNone("files");
    }
  }

  /** Keys of the same depth own disjoint sets of objects. */
  lemma SameDepthDisjoint(obj: string, k1: string, k2: string)
    requires Under(obj, k1) && Under(obj, k2) && Slashes(k1) == Slashes(k2)
    ensures k1 == k2
  {
    if |k1| < |k2| {
      ShorterIsParent(obj, k1, k2);
    } else if |k2| < |k1| {
      ShorterIsParent(obj, k2, k1);
    } else {
      assert k1 == obj[..|k1|] == k2;
    }
  }

  lemma ShorterIsParent(obj: string, k1: string, k2: string)
    requires Under(obj, k1) && Under(obj, k2) && |k1| < |k2|
    ensures Slashes(k1) < Slashes(k2)
  {
    assert k1 + "/" <= obj && k2 <= obj;
    assert k2 == (k1 + "/") + k2[|k1| + 1..];
    SlashesConcat(k1 + "/", k2[|k1| + 1..]);
    SlashesConcat(k1, "/");
  }

  /** Different files never own a common object. */
  lemma FileKeysDisjoint(obj: string, u1: string, f1: string, u2: string, f2: string)
    requires SlashFree(u1) && SlashFree(f1) && SlashFree(u2) && SlashFree(f2)
    requires Under(obj, FileKey(u1, f1)) && Under(obj, FileKey(u2, f2))
    ensures u1 == u2 && f1 == f2
  {
    FileKeySlashes(u1, f1);
    FileKeySlashes(u2, f2);
    SameDepthDisjoint(obj, FileKey(u1, f1), FileKey(u2, f2));
    var p1, p2 := ["users", u1, "files", f1], ["users", u2, "files", f2];
    KeyIsJoin(u1, f1);
    KeyIsJoin(u2, f2);
    JoinInjective(p1, p2);
    assert p1[1] == p2[1] && p1[3] == p2[3];
  }

  lemma KeyIsJoin(u: string, f: string)
    ensures Join(["users", u, "files", f]) == FileKey(u, f)
  {
    assert ["files", f][1..] == [f];
    assert Join(["files", f]) == "files" + "/" + f;
    assert [u, "files", f][1..] == ["files", f];
    assert Join([u, "files", f]) == u + "/" + ("files" + "/" + f);
    assert ["users", u, "files", f][1..] == [u, "files", f];
    assert "users" + "/" + (u + "/" + ("files" + "/" + f)) == FileKey(u, f);
  }

  // ----- the known object names of a file ------------------------------------------------------

  const THUMBNAIL_OPTION_COUNT: nat := 5

  const SIDECARS: seq<string> := [
    "stream.m3u8", "key.bin", "init.mp4", "source.master", "export.mp4", "waveform.json",
    "thumbnails/manifest.json", "grid-thumbnail.jpg", ".ownly-gif-preview.mp4", ".ownly-gif-preview.meta"]

  function Zeros(n: nat): string {
    if n == 0 then "" else "0" + Zeros(n - 1)
  }

  /** `{:04}`. */
  function Padded(n: nat): string {
    var d := Decimal(n);
    if |d| < 4 then Zeros(4 - |d|) + d else d
  }

  function Sidecars(key: string, names: seq<string>): seq<string> {
    if names == [] then [] else [key + "/" + names[0]] + Sidecars(key, names[1..])
  }

  function Thumbnails(key: string, index: nat): seq<string>
    requires index <= THUMBNAIL_OPTION_COUNT
    decreases THUMBNAIL_OPTION_COUNT - index
  {
    if index == THUMBNAIL_OPTION_COUNT then []
    else [key + "/" + ("thumbnails/" + Decimal(index) + ".jpg")] + Thumbnails(key, index + 1)
  }

  function Segments(key: string, index: nat, count: int): seq<string>
    decreases count - index
  {
    if index >= count then []
    else
      [key + "/" + ("segments/" + Padded(index) + ".m4s"), key + "/" + ("segments/" + Padded(index) + ".ts")] +
      Segments(key, index + 1, count)
  }

  /** `storage_keys_for_file`. */
  function KnownKeys(key: string, segments: Option<int>): seq<string> {
    Sidecars(key, SIDECARS) + [key] + Thumbnails(key, 0) +
    (if segments.Some? then Segments(key, 0, segments.value) else [])
  }

  ghost predicate AllUnder(objs: seq<string>, key: string) {
    forall k :: 0 <= k < |objs| ==> Under(objs[k], key)
  }

  lemma {:induction false} SidecarsUnder(key: string, names: seq<string>)
    ensures AllUnder(Sidecars(key, names), key) && |Sidecars(key, names)| == |names|
  {
    if names != [] {
      assert key + "/" <= key + "/" + names[0];
      SidecarsUnder(key, names[1..]);
    }
  }

  lemma {:induction false} ThumbnailsUnder(key: string, index: nat)
    requires index <= THUMBNAIL_OPTION_COUNT
    ensures AllUnder(Thumbnails(key, index), key) && |Thumbnails(key, index)| == THUMBNAIL_OPTION_COUNT - index
    decreases THUMBNAIL_OPTION_COUNT - index
  {
    if index < THUMBNAIL_OPTION_COUNT {
      assert key + "/" <= key + "/" + ("thumbnails/" + Decimal(index) + ".jpg");
      ThumbnailsUnder(key, index + 1);
    }
  }

  lemma {:induction false} SegmentsUnder(key: string, index: nat, count: int)
    ensures AllUnder(Segments(key, index, count), key)
    ensures |Segments(key, index, count)| == if index < count then 2 * (count - index) else 0
    decreases count - index
  {
    if index < count {
      assert key + "/" <= key + "/" + ("segments/" + Padded(index) + ".m4s");
      assert key + "/" <= key + "/" + ("segments/" + Padded(index) + ".ts");
      SegmentsUnder(key, index + 1, count);
    }
  }

  /** Every generated name belongs to the key, the root blob is among them, and there are
      16 + 2 max(0, segments) of them. */
  lemma KnownKeysUnder(key: string, segments: Option<int>)
    ensures AllUnder(KnownKeys(key, segments), key) && key in KnownKeys(key, segments)
    ensures |KnownKeys(key, segments)| ==
            16 + (if segments.Some? && segments.value > 0 then 2 * segments.value else 0)
  {
    SidecarsUnder(key, SIDECARS);
    ThumbnailsUnder(key, 0);
    if segments.Some? {
      SegmentsUnder(key, 0, segments.value);
    }
    assert KnownKeys(key, segments)[|SIDECARS|] == key;
  }

  /** Four digits at least: leading zeros, then the number. */
  lemma PaddedForm(n: nat)
    ensures var d := Decimal(n);
            |d| <= |Padded(n)| && Padded(n)[|Padded(n)| - |d|..] == d &&
            |Padded(n)| == (if |d| < 4 then 4 else |d|) &&
            forall k :: 0 <= k < |Padded(n)| - |d| ==> Padded(n)[k] == '0'
  {
    if |Decimal(n)| < 4 {
      ZerosForm(4 - |Decimal(n)|);
    }
  }

  lemma {:induction false} ZerosForm(n: nat)
    ensures |Zeros(n)| == n && forall k :: 0 <= k < n ==> Zeros(n)[k] == '0'
  {
    if n > 0 {
      ZerosForm(n - 1);
    }
  }

  lemma {:induction false} SidecarsAre(key: string, names: seq<string>, o: string)
    ensures o in Sidecars(key, names) <==> exists k :: 0 <= k < |names| && o == key + "/" + names[k]
  {
    if names != [] {
      SidecarsAre(key, names[1..], o);
      assert Sidecars(key, names)[0] == key + "/" + names[0];
      assert forall k :: 0 < k < |names| ==> names[k] == names[1..][k - 1];
    }
  }

  lemma {:induction false} ThumbnailsAre(key: string, index: nat, o: string)
    requires index <= THUMBNAIL_OPTION_COUNT
    ensures o in Thumbnails(key, index) <==>
            exists k :: index <= k < THUMBNAIL_OPTION_COUNT && o == Thumbnail(key, k)
    decreases THUMBNAIL_OPTION_COUNT - index
  {
    if index < THUMBNAIL_OPTION_COUNT {
      ThumbnailsAre(key, index + 1, o);
      assert Thumbnails(key, index) == [Thumbnail(key, index)] + Thumbnails(key, index + 1);
    }
  }

  function Thumbnail(key: string, k: nat): string {
    key + "/" + ("thumbnails/" + Decimal(k) + ".jpg")
  }

  function Segment(key: string, k: nat, ext: string): string {
    key + "/" + ("segments/" + Padded(k) + ext)
  }

  lemma {:induction false} SegmentsAre(key: string, index: nat, count: int, o: string)
    ensures o in Segments(key, index, count) <==>
            exists k :: index <= k < count && (o == Segment(key, k, ".m4s") || o == Segment(key, k, ".ts"))
    decreases count - index
  {
    if index < count {
      SegmentsAre(key, index + 1, count, o);
      assert Segments(key, index, count) ==
             [Segment(key, index, ".m4s"), Segment(key, index, ".ts")] + Segments(key, index + 1, count);
    }
  }

  predicate IsSidecar(name: string) {
    name in {"stream.m3u8", "key.bin", "init.mp4", "source.master", "export.mp4", "waveform.json",
             "thumbnails/manifest.json", "grid-thumbnail.jpg", ".ownly-gif-preview.mp4", ".ownly-gif-preview.meta"}
  }

  lemma SidecarNames(name: string)
    ensures name in SIDECARS <==> IsSidecar(name)
  {
    assert SIDECARS[0] == "stream.m3u8" && SIDECARS[1] == "key.bin" && SIDECARS[2] == "init.mp4";
    assert SIDECARS[3] == "source.master" && SIDECARS[4] == "export.mp4" && SIDECARS[5] == "waveform.json";
    assert SIDECARS[6] == "thumbnails/manifest.json" && SIDECARS[7] == "grid-thumbnail.jpg";
    assert SIDECARS[8] == ".ownly-gif-preview.mp4" && SIDECARS[9] == ".ownly-gif-preview.meta";
  }

  /** The objects a file is known to have: its root, ten sidecars, five thumbnails, and per segment an
      `.m4s` and a `.ts`. */
  lemma KnownKeysAre(key: string, segments: Option<int>, o: string)
    ensures o in KnownKeys(key, segments) <==>
            || o == key
            || (exists name :: IsSidecar(name) && o == key + "/" + name)
            || (exists k :: 0 <= k < 5 && o == Thumbnail(key, k))
            || (segments.Some? &&
                exists k :: 0 <= k < segments.value && (o == Segment(key, k, ".m4s") || o == Segment(key, k, ".ts")))
  {
    SidecarsAre(key, SIDECARS, o);
    ThumbnailsAre(key, 0, o);
    if segments.Some? {
      SegmentsAre(key, 0, segments.value, o);
    }
    forall name ensures name in SIDECARS <==> IsSidecar(name) {
      SidecarNames(name);
    }
    assert o in KnownKeys(key, segments) <==>
           o in Sidecars(key, SIDECARS) || o == key || o in Thumbnails(key, 0) ||
           (segments.Some? && o in Segments(key, 0, segments.value));
  }

  // ----- purging -------------------------------------------------------------------------------

  /** `should_skip_prefix_listing`, given whether the mime type is one of the listless kinds. */
  predicate SkipListing(listlessMime: bool, segments: Option<int>) {
    !(segments.Some? && segments.value > 0) && listlessMime
  }

  function InDirectory(objects: set<string>, key: string): set<string> {
    set o | o in objects && key + "/" <= o
  }

  /** Bulk deletion or a listing will find whatever is stored for the file. */
  predicate CanList(segments: Option<int>, listlessMime: bool, bulkWorks: bool, listWorks: bool) {
    bulkWorks || (listWorks && !SkipListing(listlessMime, segments))
  }

  /** The objects a purge sets out to delete, when bulk prefix deletion and listing may each be
      unavailable. */
  function Resolved(objects: set<string>, key: string, segments: Option<int>, listlessMime: bool,
                    bulkWorks: bool, listWorks: bool): set<string> {
    var dir := InDirectory(objects, key);
    if dir != {} && CanList(segments, listlessMime, bulkWorks, listWorks) then dir + {key}
    else set o | o in KnownKeys(key, segments)
  }

  /** What is left after a purge; `stuck` objects resist deletion. */
  function AfterPurge(objects: set<string>, key: string, segments: Option<int>, listlessMime: bool,
                      bulkWorks: bool, listWorks: bool, stuck: set<string>): set<string> {
    objects - (Resolved(objects, key, segments, listlessMime, bulkWorks, listWorks) - stuck)
  }

  /** A purge touches only objects that belong to its key. */
  lemma PurgeStaysUnderKey(objects: set<string>, key: string, segments: Option<int>, listlessMime: bool,
                           bulkWorks: bool, listWorks: bool, obj: string)
    requires obj in Resolved(objects, key, segments, listlessMime, bulkWorks, listWorks)
    ensures Under(obj, key)
  {
    KnownKeysUnder(key, segments);
  }

  /** Some way to find all of the file's objects is available, or none has an unknown name. */
  predicate FindsAll(objects: set<string>, key: string, segments: Option<int>, listlessMime: bool,
                     bulkWorks: bool, listWorks: bool) {
    CanList(segments, listlessMime, bulkWorks, listWorks) ||
    forall o :: o in InDirectory(objects, key) ==> o in KnownKeys(key, segments)
  }

  /** A purge sets out to delete every object of its key if and only if it can find them all. */
  lemma ResolvesAllIff(objects: set<string>, key: string, segments: Option<int>, listlessMime: bool,
                       bulkWorks: bool, listWorks: bool)
    ensures (forall o :: o in objects && Under(o, key) ==>
               o in Resolved(objects, key, segments, listlessMime, bulkWorks, listWorks)) <==>
            FindsAll(objects, key, segments, listlessMime, bulkWorks, listWorks)
  {
    KnownKeysUnder(key, segments);
    if FindsAll(objects, key, segments, listlessMime, bulkWorks, listWorks) {
      forall o | o in objects && Under(o, key)
        ensures o in Resolved(objects, key, segments, listlessMime, bulkWorks, listWorks)
      {
        assert o == key || o in InDirectory(objects, key);
      }
    } else {
      var o :| o in InDirectory(objects, key) && o !in KnownKeys(key, segments);
      assert Under(o, key) && o !in Resolved(objects, key, segments, listlessMime, bulkWorks, listWorks);
    }
  }

  /** What finding everything takes, in terms of the storage and the row: bulk deletion, or a listing of a
      file that is listed because it has segments or is not of a listless kind, or no object but known ones. */
  lemma FindsAllIff(objects: set<string>, key: string, segments: Option<int>, listlessMime: bool,
                    bulkWorks: bool, listWorks: bool)
    ensures FindsAll(objects, key, segments, listlessMime, bulkWorks, listWorks) <==>
            || bulkWorks
            || (listWorks && (!listlessMime || (segments.Some? && segments.value > 0)))
            || (forall o :: o in objects && key + "/" <= o ==> o in KnownKeys(key, segments))
  {
  }

  /** A purge leaves nothing of the key behind if and only if it can find all of the objects and none of
      them resists deletion. */
  lemma PurgeCompleteIff(objects: set<string>, key: string, segments: Option<int>, listlessMime: bool,
                         bulkWorks: bool, listWorks: bool, stuck: set<string>)
    ensures var left := AfterPurge(objects, key, segments, listlessMime, bulkWorks, listWorks, stuck);
            (forall o :: o in left ==> !Under(o, key)) <==>
            FindsAll(objects, key, segments, listlessMime, bulkWorks, listWorks) &&
            (forall o :: o in objects && Under(o, key) ==> o !in stuck)
  {
    ResolvesAllIff(objects, key, segments, listlessMime, bulkWorks, listWorks);
    var left := AfterPurge(objects, key, segments, listlessMime, bulkWorks, listWorks, stuck);
    var found := Resolved(objects, key, segments, listlessMime, bulkWorks, listWorks);
    assert forall o :: o in left <==> o in objects && (o !in found || o in stuck);
  }

  /** An object store whose bulk deletion and listing may be unavailable, and some of whose objects may
      resist deletion. */
  class ObjectStore {
    var objects: set<string>
    const bulkWorks: bool
    const listWorks: bool
    const stuck: set<string>

    constructor (bulkWorks: bool, listWorks: bool, stuck: set<string>)
      ensures objects == {} && this.bulkWorks == bulkWorks && this.listWorks == listWorks && this.stuck == stuck
    {
      this.bulkWorks, this.listWorks, this.stuck := bulkWorks, listWorks, stuck;
      objects := {};
    }

    method Delete(key: string) returns (ok: bool)
      modifies this
      ensures ok <==> key !in stuck
      ensures objects == if ok then old(objects) - {key} else old(objects)
    {
      ok := key !in stuck;
      if ok {
        objects := objects - {key};
      }
    }

    /** Counts what it tried to delete. */
    method DeletePrefix(key: string) returns (r: Result<nat, ()>)
      modifies this
      ensures r.Ok? <==> bulkWorks
      ensures r.Ok? ==> objects == old(objects) - (InDirectory(old(objects), key) - stuck) &&
                        r.value == |InDirectory(old(objects), key)|
      ensures r.Err? ==> objects == old(objects)
    {
      if !bulkWorks {
        return Err(());
      }
      var doomed := set o | o in objects && key + "/" <= o;
      r := Ok(|doomed|);
      objects := objects - (doomed - stuck);
    }

    method ListKeysWithPrefix(key: string) returns (r: Result<seq<string>, ()>)
      ensures r.Ok? <==> listWorks
      ensures r.Ok? ==> (set o | o in r.value) == InDirectory(objects, key)
    {
      if !listWorks {
        return Err(());
      }
      var todo := set o | o in objects && key + "/" <= o;
      var listed := [];
      while todo != {}
        invariant (set o | o in listed) + todo == InDirectory(objects, key)
        decreases |todo|
      {
        var o :| o in todo;
        listed := listed + [o];
        todo := todo - {o};
      }
      r := Ok(listed);
    }

    /** Failures of single deletions are ignored. */
    method DeleteKeys(keys: seq<string>)
      modifies this
      ensures objects == old(objects) - ((set o | o in keys) - stuck)
    {
      for i := 0 to |keys|
        invariant objects == old(objects) - ((set o | o in keys[..i]) - stuck)
      {
        var _ := Delete(keys[i]);
        assert keys[..i + 1] == keys[..i] + [keys[i]];
      }
      assert keys[..|keys|] == keys;
    }

    method CollectStorageKeys(key: string, segments: Option<int>, listlessMime: bool) returns (keys: seq<string>)
      ensures (set o | o in keys) ==
              if !SkipListing(listlessMime, segments) && listWorks && InDirectory(objects, key) != {}
              then InDirectory(objects, key) + {key}
              else set o | o in KnownKeys(key, segments)
    {
      if SkipListing(listlessMime, segments) {
        return KnownKeys(key, segments);
      }
      var listed := ListKeysWithPrefix(key);
      if listed.Ok? && listed.value != [] {
        assert listed.value[0] in InDirectory(objects, key);
        keys := listed.value;
        if key !in keys {
          keys := keys + [key];
        }
        return;
      }
      assert listed.Ok? ==> InDirectory(objects, key) == {};
      keys := KnownKeys(key, segments);
    }

    method PurgeStorageKeys(key: string, segments: Option<int>, listlessMime: bool)
      modifies this
      ensures objects == AfterPurge(old(objects), key, segments, listlessMime, bulkWorks, listWorks, stuck)
    {
      var deleted := DeletePrefix(key);
      if deleted.Ok? && deleted.value > 0 {
        assert InDirectory(old(objects), key) != {};
        var _ := Delete(key);
        return;
      }
      assert objects == old(objects);
      var keys := CollectStorageKeys(key, segments, listlessMime);
      DeleteKeys(keys);
    }
  }
}
