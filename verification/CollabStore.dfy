/** The in-memory session store: two maps behind one lock, pruned on every access. */
module CollabStore {
  import opened Wrappers
  import opened CollabTypes

  /** The value of the two maps at one instant. */
  datatype State = State(sessions: map<string, Session>, byFile: map<(RoomKind, string), string>)

  function Stale(s: Session, now: nat): bool {
    now - s.lastActiveAt > SESSION_IDLE_TTL_SECS
  }

  function PrunedParticipants(s: Session, now: nat): Session {
    s.(participants := map u | u in s.participants && now - s.participants[u].lastSeen <= PARTICIPANT_TTL_SECS ::
                         s.participants[u])
  }

  function FileKey(s: Session): (RoomKind, string) {
    (s.kind, s.fileId)
  }

  function StaleFileKeys(st: State, now: nat): set<(RoomKind, string)> {
    set id | id in st.sessions && Stale(st.sessions[id], now) :: FileKey(st.sessions[id])
  }

  function Pruned(st: State, now: nat): State {
    State(
      map id | id in st.sessions && !Stale(st.sessions[id], now) :: PrunedParticipants(st.sessions[id], now),
      st.byFile - StaleFileKeys(st, now))
  }

  function Lookup(st: State, kind: RoomKind, fileId: string): Option<Session> {
    if (kind, fileId) in st.byFile && st.byFile[(kind, fileId)] in st.sessions
    then Some(st.sessions[st.byFile[(kind, fileId)]])
    else None
  }

  function Inserted(st: State, s: Session): State {
    State(st.sessions[s.id := s], st.byFile[FileKey(s) := s.id])
  }

  datatype CasError = VersionMismatch

  function Bumped(s: Session, now: nat): Session {
    s.(version := s.version + 1, lastActiveAt := now)
  }

  /** The comparison and the swap, on a store that has just been pruned. */
  function CasOn(pruned: State, s: Session, expected: nat, now: nat): (State, Result<Session, CasError>) {
    if s.id in pruned.sessions && pruned.sessions[s.id].version != expected
    then (pruned, Err(VersionMismatch))
    else (Inserted(pruned, Bumped(s, now)), Ok(Bumped(s, now)))
  }

  /** State and answer of a compare-and-swap whose caller read `s` at version `expected`. */
  function CasOutcome(st: State, s: Session, expected: nat, now: nat): (State, Result<Session, CasError>) {
    if s.version != expected then (st, Err(VersionMismatch)) else CasOn(Pruned(st, now), s, expected, now)
  }

  /** What a prune leaves: sessions active in the last hour, with the participants seen in the last
      ninety seconds, and the index entries of files none of whose sessions it dropped. */
  lemma PruneLeaves(st: State, now: nat, id: string, user: string, key: (RoomKind, string))
    ensures id in Pruned(st, now).sessions <==> id in st.sessions && now <= st.sessions[id].lastActiveAt + 3600
    ensures id in Pruned(st, now).sessions ==>
              var s, s' := st.sessions[id], Pruned(st, now).sessions[id];
              s' == s.(participants := s'.participants) &&
              (user in s'.participants <==> user in s.participants && now <= s.participants[user].lastSeen + 90) &&
              (user in s'.participants ==> s'.participants[user] == s.participants[user])
    ensures key in Pruned(st, now).byFile <==>
              key in st.byFile &&
              forall x :: x in st.sessions && (st.sessions[x].kind, st.sessions[x].fileId) == key ==>
                now <= st.sessions[x].lastActiveAt + 3600
    ensures key in Pruned(st, now).byFile ==> Pruned(st, now).byFile[key] == st.byFile[key]
  {
    assert key in StaleFileKeys(st, now) <==>
           exists x :: x in st.sessions && Stale(st.sessions[x], now) && FileKey(st.sessions[x]) == key;
  }

  /** A compare-and-swap save goes through if and only if the caller's copy has the version it names and
      the store has, after the prune, that version or none; it then stores the copy one version up under
      its id and file, and otherwise at most prunes. */
  lemma SwapGoesThroughIff(st: State, s: Session, expected: nat, now: nat)
    ensures var (st', r) := CasOutcome(st, s, expected, now);
            var live := Pruned(st, now);
            (r.Ok? <==> s.version == expected && (s.id in live.sessions ==> live.sessions[s.id].version == expected)) &&
            (if r.Ok? then
               r.value == s.(version := expected + 1, lastActiveAt := now) &&
               st'.sessions == live.sessions[s.id := r.value] && st'.byFile == live.byFile[(s.kind, s.fileId) := s.id]
             else st' == if s.version == expected then live else st)
  {
  }

  /** Every index entry names a live session of that room kind and file, and sessions sit under their own id. */
  ghost predicate IndexAgrees(st: State) {
    && (forall id :: id in st.sessions ==> st.sessions[id].id == id)
    && (forall key :: key in st.byFile ==>
          st.byFile[key] in st.sessions && FileKey(st.sessions[st.byFile[key]]) == key)
  }

  /** Pruning drops an index entry exactly when it drops a session of that file, so no entry dangles. */
  lemma PruneKeepsIndex(st: State, now: nat)
    requires IndexAgrees(st)
    ensures IndexAgrees(Pruned(st, now))
  {
    assert forall id :: id in st.sessions && Stale(st.sessions[id], now) ==>
        FileKey(st.sessions[id]) in StaleFileKeys(st, now);
  }

  /** A save keeps the index exactly when it does not move an already indexed session to another file. */
  lemma InsertKeepsIndexIff(st: State, s: Session)
    requires IndexAgrees(st)
    ensures IndexAgrees(Inserted(st, s)) <==>
            forall key :: key in st.byFile && st.byFile[key] == s.id ==> key == FileKey(s)
  {
    var t := Inserted(st, s);
    if IndexAgrees(t) {
      forall key | key in st.byFile && st.byFile[key] == s.id
        ensures key == FileKey(s)
      {
        assert key in t.byFile;
      }
    }
  }

  /** A read, a plain save, or a compare-and-swap save. */
  datatype Access =
    | Look(now: nat)
    | Put(session: Session, now: nat)
    | Swap(session: Session, expected: nat, now: nat)

  function Accessed(st: State, a: Access): State {
    match a
    case Look(now) => Pruned(st, now)
    case Put(s, now) => Inserted(Pruned(st, now), Bumped(s, now))
    case Swap(s, expected, now) => CasOutcome(st, s, expected, now).0
  }

  /** Saves of a stored session keep its room kind and file. */
  predicate KeepsFile(st: State, a: Access) {
    !a.Look? && a.session.id in st.sessions ==> FileKey(st.sessions[a.session.id]) == FileKey(a.session)
  }

  ghost predicate AllKeepFiles(st: State, run: seq<Access>)
    decreases |run|
  {
    run != [] ==> KeepsFile(st, run[0]) && AllKeepFiles(Accessed(st, run[0]), run[1..])
  }

  ghost function StateAfter(st: State, run: seq<Access>): State
    decreases |run|
  {
    if run == [] then st else StateAfter(Accessed(st, run[0]), run[1..])
  }

  lemma AccessKeepsIndex(st: State, a: Access)
    requires IndexAgrees(st) && KeepsFile(st, a)
    ensures IndexAgrees(Accessed(st, a))
  {
    PruneKeepsIndex(st, a.now);
    if !a.Look? {
      InsertKeepsIndexIff(Pruned(st, a.now), Bumped(a.session, a.now));
    }
  }

  /** Over every run of reads, saves and prunes at any times, the index names live sessions of its files. */
  lemma {:induction false} IndexAgreesInEveryRun(st: State, run: seq<Access>)
    requires IndexAgrees(st) && AllKeepFiles(st, run)
    ensures IndexAgrees(StateAfter(st, run))
    decreases |run|
  {
    if run != [] {
      AccessKeepsIndex(st, run[0]);
      IndexAgreesInEveryRun(Accessed(st, run[0]), run[1..]);
    }
  }

  /** The converse of the index invariant fails: when two first joins race, two live sessions share a
      file, and expiry of the first drops the index entry of the second. */
  lemma LiveSessionCanLoseItsEntry(elder: Session, young: Session, now: nat)
    requires elder.id != young.id && FileKey(elder) == FileKey(young)
    requires Stale(elder, now) && !Stale(young, now)
    ensures var st := State(map[elder.id := elder, young.id := young], map[FileKey(young) := young.id]);
            IndexAgrees(st) && young.id in Pruned(st, now).sessions &&
            Lookup(st, young.kind, young.fileId) == Some(young) &&
            Lookup(Pruned(st, now), young.kind, young.fileId) == None
  {
    var st := State(map[elder.id := elder, young.id := young], map[FileKey(young) := young.id]);
    assert st.sessions[elder.id] == elder;
    assert FileKey(st.sessions[elder.id]) in StaleFileKeys(st, now);
  }

  /** The index leads to this session. */
  predicate Indexed(st: State, id: string) {
    id in st.sessions && FileKey(st.sessions[id]) in st.byFile && st.byFile[FileKey(st.sessions[id])] == id
  }

  ghost predicate AllIndexed(st: State) {
    forall id :: id in st.sessions ==> Indexed(st, id)
  }

  /** An indexed session that outlives a prune keeps its entry if and only if no session of its file
      goes stale there. */
  lemma PruneKeepsEntryIff(st: State, id: string, now: nat)
    requires Indexed(st, id) && !Stale(st.sessions[id], now)
    ensures Indexed(Pruned(st, now), id) <==>
            forall x :: x in st.sessions && FileKey(st.sessions[x]) == FileKey(st.sessions[id]) ==>
              !Stale(st.sessions[x], now)
  {
    assert FileKey(st.sessions[id]) in StaleFileKeys(st, now) <==>
           exists x :: x in st.sessions && Stale(st.sessions[x], now) &&
             FileKey(st.sessions[x]) == FileKey(st.sessions[id]);
  }

  /** A save leaves every session indexed if and only if no other stored session has its file. */
  lemma InsertKeepsAllIndexedIff(st: State, s: Session)
    requires AllIndexed(st)
    ensures AllIndexed(Inserted(st, s)) <==> SoleOfItsFile(st, s)
  {
    var t := Inserted(st, s);
    if AllIndexed(t) {
      forall x | x in st.sessions && x != s.id ensures FileKey(st.sessions[x]) != FileKey(s) {
        assert Indexed(t, x);
      }
    }
  }

  predicate SoleOfItsFile(st: State, s: Session) {
    forall x :: x in st.sessions && x != s.id ==> FileKey(st.sessions[x]) != FileKey(s)
  }

  /** While every session is indexed no two share a file, so a prune takes no entry of a live one. */
  lemma PruneKeepsAllIndexed(st: State, now: nat)
    requires AllIndexed(st)
    ensures AllIndexed(Pruned(st, now))
  {
    forall id | id in Pruned(st, now).sessions ensures Indexed(Pruned(st, now), id) {
      assert Indexed(st, id);
      forall x | x in st.sessions && FileKey(st.sessions[x]) == FileKey(st.sessions[id]) ensures x == id {
        assert Indexed(st, x);
      }
      PruneKeepsEntryIff(st, id, now);
    }
  }

  /** The access is a save that goes through. */
  predicate Saves(st: State, a: Access) {
    a.Put? || (a.Swap? && CasOutcome(st, a.session, a.expected, a.now).1.Ok?)
  }

  /** One access leaves every live session indexed if and only if it saves nothing, or saves the only
      session of its file among those still live. */
  lemma AccessKeepsAllIndexedIff(st: State, a: Access)
    requires AllIndexed(st)
    ensures AllIndexed(Accessed(st, a)) <==> (Saves(st, a) ==> SoleOfItsFile(Pruned(st, a.now), a.session))
  {
    PruneKeepsAllIndexed(st, a.now);
    if Saves(st, a) {
      InsertKeepsAllIndexedIff(Pruned(st, a.now), Bumped(a.session, a.now));
    }
  }

  ghost predicate AllSavesSole(st: State, run: seq<Access>)
    decreases |run|
  {
    run != [] ==>
      (Saves(st, run[0]) ==> SoleOfItsFile(Pruned(st, run[0].now), run[0].session)) &&
      AllSavesSole(Accessed(st, run[0]), run[1..])
  }

  /** Over every run whose saves meet that condition every live session can be found by its file. */
  lemma {:induction false} AllIndexedInEveryRun(st: State, run: seq<Access>)
    requires AllIndexed(st) && AllSavesSole(st, run)
    ensures AllIndexed(StateAfter(st, run))
    ensures forall id :: id in StateAfter(st, run).sessions ==>
              var s := StateAfter(st, run).sessions[id]; Lookup(StateAfter(st, run), s.kind, s.fileId) == Some(s)
    decreases |run|
  {
    if run != [] {
      AccessKeepsAllIndexedIff(st, run[0]);
      AllIndexedInEveryRun(Accessed(st, run[0]), run[1..]);
    } else {
      forall id | id in st.sessions
        ensures Lookup(st, st.sessions[id].kind, st.sessions[id].fileId) == Some(st.sessions[id])
      {
        assert Indexed(st, id);
      }
    }
  }

  class CollabStore {
    var sessions: map<string, Session>
    var byFile: map<(RoomKind, string), string>

    ghost function Now(): State
      reads this
    {
      State(sessions, byFile)
    }

    constructor ()
      ensures Now() == State(map[], map[])
    {
      sessions, byFile := map[], map[];
    }

    method RemoveStale(now: nat)
      modifies this
      ensures byFile == Pruned(old(Now()), now).byFile
      ensures sessions == map id | id in old(sessions) && !Stale(old(sessions)[id], now) :: old(sessions)[id]
    {
      ghost var before := Now();
      ghost var dropped: set<(RoomKind, string)> := {};
      var stale := set id | id in sessions && Stale(sessions[id], now);
      var todo := stale;
      while todo != {}
        invariant todo <= stale
        invariant sessions == before.sessions - (stale - todo)
        invariant byFile == before.byFile - dropped
        invariant dropped <= StaleFileKeys(before, now)
        invariant forall id :: id in stale - todo ==> FileKey(before.sessions[id]) in dropped
        decreases |todo|
      {
        var id :| id in todo;
        byFile := byFile - {FileKey(sessions[id])};
        dropped := dropped + {FileKey(sessions[id])};
        sessions := sessions - {id};
        todo := todo - {id};
      }
      assert dropped == StaleFileKeys(before, now);
    }

    method PruneMemory(now: nat)
      modifies this
      ensures Now() == Pruned(old(Now()), now)
    {
      RemoveStale(now);
      ghost var kept := sessions;
      var live := sessions.Keys;
      while live != {}
        invariant live <= kept.Keys == sessions.Keys
        invariant byFile == Pruned(old(Now()), now).byFile
        invariant forall id :: id in live ==> sessions[id] == kept[id]
        invariant forall id :: id in kept.Keys - live ==> sessions[id] == PrunedParticipants(kept[id], now)
        decreases |live|
      {
        var id :| id in live;
        sessions := sessions[id := PrunedParticipants(sessions[id], now)];
        live := live - {id};
      }
      assert sessions == Pruned(old(Now()), now).sessions;
    }

    method Get(id: string, now: nat) returns (r: Option<Session>)
      modifies this
      ensures Now() == Pruned(old(Now()), now)
      ensures r == if id in Now().sessions then Some(Now().sessions[id]) else None
    {
      PruneMemory(now);
      r := if id in sessions then Some(sessions[id]) else None;
    }

    method GetByFile(kind: RoomKind, fileId: string, now: nat) returns (r: Option<Session>)
      modifies this
      ensures Now() == Pruned(old(Now()), now)
      ensures r == Lookup(Now(), kind, fileId)
    {
      PruneMemory(now);
      if (kind, fileId) !in byFile {
        return None;
      }
      var id := byFile[(kind, fileId)];
      r := if id in sessions then Some(sessions[id]) else None;
    }

    method Save(session: Session, now: nat) returns (saved: Session)
      modifies this
      ensures saved == Bumped(session, now)
      ensures Now() == Inserted(Pruned(old(Now()), now), saved)
    {
      saved := session.(version := session.version + 1, lastActiveAt := now);
      PruneMemory(now);
      byFile := byFile[(saved.kind, saved.fileId) := saved.id];
      sessions := sessions[saved.id := saved];
    }

    method SaveCas(session: Session, expected: nat, now: nat) returns (r: Result<Session, CasError>)
      modifies this
      ensures (Now(), r) == CasOutcome(old(Now()), session, expected, now)
    {
      if session.version != expected {
        return Err(VersionMismatch);
      }
      var saved := session.(version := expected + 1, lastActiveAt := now);
      PruneMemory(now);
      if saved.id in sessions {
        if sessions[saved.id].version != expected {
          return Err(VersionMismatch);
        }
      }
      byFile := byFile[(saved.kind, saved.fileId) := saved.id];
      sessions := sessions[saved.id := saved];
      r := Ok(saved);
    }
  }
}
