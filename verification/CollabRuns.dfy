/** Many concurrent joins, heartbeats and submits on one store, as a step system.

    Each task reads a session and edits its copy in one step, and commits it by compare-and-swap in a
    later one; any other tasks may step in between. `logs` is history kept for the proof alone: per
    session, every committed op, which task committed it, and the data the last (re-)seed started from. */
module CollabRuns {
  import opened Wrappers
  import opened CollabTypes
  import opened CollabStore
  import opened CollabEngine

  datatype Request =
    | Join(kind: RoomKind, fileId: string, userId: string, displayName: string, seed: Option<Json>)
    | Heartbeat(sid: string, userId: string, presence: Option<Json>)
    | Submit(sid: string, userId: string, draft: Draft)

  /** What a held session would do to its log when committed. */
  datatype Change = Create | Touch | Reseed | Append(op: Op)

  datatype Phase =
    | Reading
    | Holding(session: Session, change: Change)
    | Succeeded(saved: Session, change: Change)
    | Failed(error: CollabError)

  datatype Task = Task(req: Request, attempts: nat, phase: Phase)

  datatype Log = Log(
    kind: RoomKind, fileId: string, version: nat,
    history: seq<Op>, authors: seq<nat>, base: Json, baseSeq: nat)

  datatype World = World(store: State, tasks: map<nat, Task>, logs: map<string, Log>, issued: set<string>)

  datatype Event =
    | Spawn(i: nat, req: Request)
    | Read(i: nat, now: nat, newId: string, opId: string)
    | Commit(i: nat, now: nat)

  // ----- steps ---------------------------------------------------------------------------------

  predicate Enabled(w: World, e: Event) {
    match e
    case Spawn(i, _) => i !in w.tasks
    case Read(i, _, newId, _) =>
      i in w.tasks && w.tasks[i].phase.Reading? && w.tasks[i].attempts < CAS_RETRIES && newId !in w.issued
    case Commit(i, _) => i in w.tasks && w.tasks[i].phase.Holding?
  }

  /** The phase a task enters when it reads the (pruned) store. */
  function AfterRead(doms: RoomKind -> Domain, st: State, req: Request, now: nat, newId: string, opId: string): Phase {
    match req
    case Join(kind, fileId, userId, name, seed) =>
      var found := Lookup(st, kind, fileId);
      if found.None? then
        var blank := NewSession(newId, kind, fileId, doms(kind).seed(seed), now);
        Holding(Joined(doms(kind), blank, userId, name, seed, now), Create)
      else
        Holding(Joined(doms(kind), found.value, userId, name, seed, now),
                if Reseeds(found.value, seed) then Reseed else Touch)
    case Heartbeat(sid, userId, presence) =>
      if sid !in st.sessions then Failed(NotFound)
      else
        (match Beaten(st.sessions[sid], userId, presence, now)
         case Err(e) => Failed(e)
         case Ok(s) => Holding(s, Touch))
    case Submit(sid, userId, draft) =>
      if sid !in st.sessions then Failed(NotFound)
      else
        (match Submitted(doms(st.sessions[sid].kind), st.sessions[sid], userId, draft, opId, now)
         case Err(e) => Failed(e)
         case Ok((op, s)) => Holding(s, Append(op)))
  }

  /** The log once a held session has been committed by task `i`. */
  function Extended(logs: map<string, Log>, s: Session, c: Change, i: nat): Log {
    if c.Create? || s.id !in logs then Log(s.kind, s.fileId, 1, [], [], s.snapshot.data, 0)
    else
    match c
    case Touch => logs[s.id].(version := logs[s.id].version + 1)
    case Reseed =>
      logs[s.id].(version := logs[s.id].version + 1, base := s.snapshot.data, baseSeq := |logs[s.id].history|)
    case Append(op) =>
      logs[s.id].(version := logs[s.id].version + 1,
                  history := logs[s.id].history + [op], authors := logs[s.id].authors + [i])
  }

  function WithPhase(w: World, i: nat, phase: Phase): World
    requires i in w.tasks
  {
    w.(tasks := w.tasks[i := w.tasks[i].(phase := phase)])
  }

  /** Task `i` reads the store as `st`, just pruned, and edits its copy. */
  function ReadOn(doms: RoomKind -> Domain, w: World, i: nat, st: State, now: nat, newId: string, opId: string): World
    requires i in w.tasks
  {
    WithPhase(World(st, w.tasks, w.logs, w.issued + {newId}), i,
              AfterRead(doms, st, w.tasks[i].req, now, newId, opId))
  }

  /** Task `i` committed its held session as `saved`, whose log becomes `g`. */
  function Settled(w: World, i: nat, store: State, saved: Session, c: Change, g: Log): World
    requires i in w.tasks
  {
    World(store, w.tasks[i := w.tasks[i].(phase := Succeeded(saved, c))], w.logs[saved.id := g], w.issued)
  }

  /** Task `i` was refused: it tries again, up to eight attempts in all. */
  function Refused(w: World, i: nat, store: State): World
    requires i in w.tasks
  {
    var n := w.tasks[i].attempts + 1;
    var phase := if n == CAS_RETRIES then Failed(Conflict) else Reading;
    World(store, w.tasks[i := Task(w.tasks[i].req, n, phase)], w.logs, w.issued)
  }

  /** Task `i` offers its held session to the store as `st`, just pruned. */
  function CommitOn(w: World, i: nat, st: State, now: nat): World
    requires i in w.tasks && w.tasks[i].phase.Holding?
  {
    var s, c := w.tasks[i].phase.session, w.tasks[i].phase.change;
    match CasOn(st, s, s.version, now)
    case (st', Ok(saved)) => Settled(w, i, st', saved, c, Extended(w.logs, s, c, i))
    case (st', Err(_)) => Refused(w, i, st')
  }

  function Next(doms: RoomKind -> Domain, w: World, e: Event): World
    requires Enabled(w, e)
  {
    match e
    case Spawn(i, req) => w.(tasks := w.tasks[i := Task(req, 0, Reading)])
    case Read(i, now, newId, opId) => ReadOn(doms, w, i, Pruned(w.store, now), now, newId, opId)
    case Commit(i, now) => CommitOn(w, i, Pruned(w.store, now), now)
  }

  /** What a task does after it has read: only a join makes a session, empty but for its seed and
      itself, when the index names none; a heartbeat or submit of a session that is gone is not found. */
  lemma ReadAnswers(doms: RoomKind -> Domain, st: State, req: Request, now: nat, newId: string, opId: string)
    ensures var phase := AfterRead(doms, st, req, now, newId, opId);
            match req
            case Join(kind, fileId, userId, name, seed) =>
              phase.Holding? &&
              (phase.change.Create? <==>
                 !((kind, fileId) in st.byFile && st.byFile[(kind, fileId)] in st.sessions)) &&
              (phase.change.Create? ==>
                 phase.session == Session(newId, kind, fileId, now, now,
                   map[userId := Participant(userId, name, now, doms(kind).presenceDefaults)],
                   [], 1, Snapshot(0, doms(kind).seed(seed)), 0))
            case Heartbeat(sid, userId, presence) =>
              (phase == Failed(NotFound) <==> sid !in st.sessions) &&
              (phase.Holding? ==> Ok(phase.session) == Beaten(st.sessions[sid], userId, presence, now))
            case Submit(sid, userId, draft) =>
              (sid !in st.sessions ==> phase == Failed(NotFound)) &&
              (phase.Holding? ==>
                 phase.change.Append? &&
                 Submitted(doms(st.sessions[sid].kind), st.sessions[sid], userId, draft, opId, now) ==
                 Ok((phase.change.op, phase.session)))
  {
  }

  /** Every refusal sends a task back to read; the eighth one is its last. */
  lemma EighthRefusalConflicts(w: World, i: nat, store: State)
    requires i in w.tasks
    ensures var t := Refused(w, i, store).tasks[i];
            t.attempts == w.tasks[i].attempts + 1 && t.req == w.tasks[i].req &&
            t.phase == if w.tasks[i].attempts == 7 then Failed(Conflict) else Reading
  {
  }

  // ----- the invariant -------------------------------------------------------------------------

  function Retained(history: seq<Op>): nat {
    if |history| > DEFAULT_MAX_OPS then DEFAULT_MAX_OPS else |history|
  }

  /** The first sequence number that is no longer in the ring. */
  function Floor(history: seq<Op>): nat {
    |history| - Retained(history)
  }

  ghost predicate LogOk(g: Log) {
    NumberedFrom(g.history, 1) && |g.authors| == |g.history| && g.baseSeq <= |g.history|
  }

  /** A session is what its log says: numbering, ring, snapshot number and snapshot data. */
  ghost predicate Agrees(doms: RoomKind -> Domain, s: Session, g: Log) {
    && LogOk(g)
    && s.kind == g.kind && s.fileId == g.fileId && s.version == g.version
    && s.nextSeq == |g.history| + 1
    && s.ops == g.history[Floor(g.history)..]
    && s.snapshot.snapshotSeq == (if g.baseSeq < |g.history| then Floor(g.history) else 0)
    && doms(g.kind).Replay(g.base, g.history[g.baseSeq..]) == Ok(s.snapshot.data)
  }

  predicate SameFile(s: Session, g: Log) {
    s.kind == g.kind && s.fileId == g.fileId
  }

  // What follows keeps all sessions in shape, and one session, `focus`, in agreement with its history.

  /** A held session is new or one of the logs'; one of `focus` would extend its log faithfully or is
      out of date. */
  ghost predicate HeldOk(doms: RoomKind -> Domain, focus: string, logs: map<string, Log>, issued: set<string>,
                         i: nat, s: Session, c: Change)
  {
    && s.id in issued
    && (if c.Create? then s.id !in logs && s.version == 0 else s.id in logs && SameFile(s, logs[s.id]))
    && (s.id == focus ==>
          (!c.Create? ==> s.version <= logs[s.id].version) &&
          (c.Create? || s.version == logs[s.id].version ==>
             Agrees(doms, s.(version := s.version + 1), Extended(logs, s, c, i))))
  }

  ghost predicate StoreOk(doms: RoomKind -> Domain, focus: string, w: World) {
    && IndexAgrees(w.store)
    && w.logs.Keys <= w.issued
    && (forall id :: id in w.store.sessions ==> id in w.logs && SameFile(w.store.sessions[id], w.logs[id]))
    && (focus in w.logs ==> LogOk(w.logs[focus]))
    && (focus in w.store.sessions ==> Agrees(doms, w.store.sessions[focus], w.logs[focus]))
  }

  ghost predicate HoldersOk(doms: RoomKind -> Domain, focus: string, w: World) {
    && (forall i :: i in w.tasks && w.tasks[i].phase.Holding? ==>
          HeldOk(doms, focus, w.logs, w.issued, i, w.tasks[i].phase.session, w.tasks[i].phase.change))
    && (forall i, j :: i in w.tasks && j in w.tasks && i != j && Creating(w, i) && Creating(w, j) ==>
          w.tasks[i].phase.session.id != w.tasks[j].phase.session.id)
  }

  predicate Creating(w: World, i: nat)
    requires i in w.tasks
  {
    w.tasks[i].phase.Holding? && w.tasks[i].phase.change.Create?
  }

  /** Task `i` ended well having appended `op` to session `id`. */
  predicate Appended(w: World, i: nat, id: string, op: Op) {
    i in w.tasks && w.tasks[i].phase.Succeeded? &&
    w.tasks[i].phase.saved.id == id && w.tasks[i].phase.change == Append(op)
  }

  /** Every committed op of `focus` belongs to the one successful submit that made it, and the other way
      round. */
  ghost predicate CreditOk(focus: string, w: World) {
    && (forall k :: focus in w.logs && 0 <= k < |w.logs[focus].history| && k < |w.logs[focus].authors| ==>
          Appended(w, w.logs[focus].authors[k], focus, w.logs[focus].history[k]))
    && (forall i, op :: Appended(w, i, focus, op) ==>
          focus in w.logs && 1 <= op.seqNo <= |w.logs[focus].history| && op.seqNo <= |w.logs[focus].authors| &&
          w.logs[focus].history[op.seqNo - 1] == op && w.logs[focus].authors[op.seqNo - 1] == i)
  }

  ghost predicate Inv(doms: RoomKind -> Domain, focus: string, w: World) {
    StoreOk(doms, focus, w) && HoldersOk(doms, focus, w) && CreditOk(focus, w)
  }

  // ----- edits are faithful --------------------------------------------------------------------

  lemma PrunedAgrees(doms: RoomKind -> Domain, s: Session, g: Log, now: nat)
    requires Agrees(doms, s, g)
    ensures Agrees(doms, PrunedParticipants(s, now), g)
  {
  }

  lemma ReseedAgrees(doms: RoomKind -> Domain, s: Session, g: Log, data: Json)
    requires Agrees(doms, s, g)
    ensures Agrees(doms, s.(snapshot := Snapshot(0, data), version := s.version + 1),
                   g.(version := g.version + 1, base := data, baseSeq := |g.history|))
  {
    assert g.history[|g.history|..] == [];
  }

  lemma NumberedAppend(ops: seq<Op>, op: Op)
    requires NumberedFrom(ops, 1) && op.seqNo == |ops| + 1
    ensures NumberedFrom(ops + [op], 1)
  {
  }

  lemma NumberedSuffix(ops: seq<Op>, k: nat)
    requires NumberedFrom(ops, 1) && k <= |ops|
    ensures NumberedFrom(ops[k..], k + 1)
  {
  }

  /** Appending to the ring of a history gives the ring of the longer history. */
  lemma RingAppend(h: seq<Op>, op: Op, snapshotSeq: nat)
    requires NumberedFrom(h + [op], 1) && snapshotSeq <= Floor(h)
    ensures var (ops, floor) := Compacted(h[Floor(h)..] + [op], snapshotSeq);
            ops == (h + [op])[Floor(h + [op])..] && Trailing(ops, floor) == Floor(h + [op])
  {
    var h', first := h + [op], Floor(h);
    var ring := h[first..] + [op];
    assert ring == h'[first..];
    NumberedSuffix(h', first);
    CompactedRing(ring, first + 1, snapshotSeq);
    var drop := if |ring| > DEFAULT_MAX_OPS then |ring| - DEFAULT_MAX_OPS else 0;
    assert ring[drop..] == h'[first + drop..];
  }

  lemma ReplayAppend(dom: Domain, g: Log, data: Json, op: Op, next: Json)
    requires g.baseSeq <= |g.history|
    requires dom.Replay(g.base, g.history[g.baseSeq..]) == Ok(data)
    requires dom.ApplyUnnumbered(data, op) == Ok(next)
    ensures dom.Replay(g.base, (g.history + [op])[g.baseSeq..]) == Ok(next)
  {
    assert (g.history + [op])[g.baseSeq..] == g.history[g.baseSeq..] + [op];
    ReplayConcat(dom, g.base, g.history[g.baseSeq..], [op]);
    assert [op][1..] == [];
    assert dom.Replay(data, [op]) == dom.Replay(next, []);
  }

  /** One submit attempt on a session that agrees with its log prepares exactly one more op. */
  lemma SubmitAgrees(doms: RoomKind -> Domain, s: Session, g: Log, userId: string, draft: Draft,
                     opId: string, now: nat, i: nat)
    requires Agrees(doms, s, g)
    requires Submitted(doms(s.kind), s, userId, draft, opId, now).Ok?
    ensures var (op, s') := Submitted(doms(s.kind), s, userId, draft, opId, now).value;
            s'.id == s.id && s'.version == s.version && op.seqNo == |g.history| + 1 &&
            Agrees(doms, s'.(version := s.version + 1),
                   g.(version := g.version + 1, history := g.history + [op], authors := g.authors + [i]))
  {
    var (op, s') := Submitted(doms(s.kind), s, userId, draft, opId, now).value;
    var dom := doms(g.kind);
    assert op.seqNo == |g.history| + 1;
    NumberedAppend(g.history, op);
    RingAppend(g.history, op, s.snapshot.snapshotSeq);
    assert op.(seqNo := 0).(seqNo := 0) == op.(seqNo := 0);
    assert dom.ApplyUnnumbered(s.snapshot.data, op) == Ok(s'.snapshot.data);
    ReplayAppend(dom, g, s.snapshot.data, op, s'.snapshot.data);
  }

  // ----- every step keeps the invariant ----------------------------------------------------------

  lemma PruneKeepsStoreOk(doms: RoomKind -> Domain, focus: string, w: World, now: nat)
    requires StoreOk(doms, focus, w)
    ensures StoreOk(doms, focus, w.(store := Pruned(w.store, now)))
  {
    PruneKeepsIndex(w.store, now);
    if focus in Pruned(w.store, now).sessions {
      PrunedAgrees(doms, w.store.sessions[focus], w.logs[focus], now);
    }
  }

  /** What a task reads of a stored session. */
  ghost predicate ReadOk(doms: RoomKind -> Domain, focus: string, w: World, s: Session) {
    && s.id in w.issued && s.id in w.logs && SameFile(s, w.logs[s.id])
    && (s.id == focus ==> Agrees(doms, s, w.logs[s.id]))
  }

  lemma JoinPreparesHolder(doms: RoomKind -> Domain, focus: string, w: World, i: nat, req: Request,
                           now: nat, newId: string)
    requires StoreOk(doms, focus, w) && newId in w.issued && newId !in w.logs && req.Join?
    ensures var phase := AfterRead(doms, w.store, req, now, newId, "");
            HeldOk(doms, focus, w.logs, w.issued, i, phase.session, phase.change) &&
            (phase.change.Create? ==> phase.session.id == newId) &&
            (!phase.change.Create? && phase.session.id == focus ==>
               phase.session.version == w.logs[phase.session.id].version)
  {
    var Join(kind, fileId, userId, name, seed) := req;
    var found := Lookup(w.store, kind, fileId);
    if found.Some? {
      var s := found.value;
      assert ReadOk(doms, focus, w, s);
      if s.id == focus {
        ReseedAgrees(doms, s, w.logs[s.id], doms(kind).seed(seed));
      }
    }
  }

  lemma HeartbeatPreparesHolder(doms: RoomKind -> Domain, focus: string, w: World, i: nat, s: Session,
                                userId: string, presence: Option<Json>, now: nat)
    requires ReadOk(doms, focus, w, s)
    ensures var r := Beaten(s, userId, presence, now);
            r.Ok? ==> HeldOk(doms, focus, w.logs, w.issued, i, r.value, Touch) &&
                      (r.value.id == focus ==> r.value.version == w.logs[r.value.id].version)
  {
  }

  lemma SubmitPreparesHolder(doms: RoomKind -> Domain, focus: string, w: World, i: nat, s: Session,
                             userId: string, draft: Draft, opId: string, now: nat)
    requires ReadOk(doms, focus, w, s)
    ensures var r := Submitted(doms(s.kind), s, userId, draft, opId, now);
            r.Ok? ==> HeldOk(doms, focus, w.logs, w.issued, i, r.value.1, Append(r.value.0)) &&
                      (r.value.1.id == focus ==> r.value.1.version == w.logs[r.value.1.id].version)
  {
    if Submitted(doms(s.kind), s, userId, draft, opId, now).Ok? {
      var (op, s') := Submitted(doms(s.kind), s, userId, draft, opId, now).value;
      SubmittedKeepsFile(doms(s.kind), s, userId, draft, opId, now);
      if s.id == focus {
        SubmitAgrees(doms, s, w.logs[s.id], userId, draft, opId, now, i);
      }
      AppendIsHeld(doms, focus, w.logs, w.issued, i, s', op);
    }
  }

  lemma SubmittedKeepsFile(dom: Domain, s: Session, userId: string, draft: Draft, opId: string, now: nat)
    requires Submitted(dom, s, userId, draft, opId, now).Ok?
    ensures var s' := Submitted(dom, s, userId, draft, opId, now).value.1;
            s'.id == s.id && s'.kind == s.kind && s'.fileId == s.fileId && s'.version == s.version
  {
  }

  lemma AppendIsHeld(doms: RoomKind -> Domain, focus: string, logs: map<string, Log>, issued: set<string>,
                     i: nat, s: Session, op: Op)
    requires s.id in issued && s.id in logs && SameFile(s, logs[s.id])
    requires s.id == focus ==>
               var g := logs[s.id];
               s.version == g.version &&
               Agrees(doms, s.(version := s.version + 1),
                      g.(version := g.version + 1, history := g.history + [op], authors := g.authors + [i]))
    ensures HeldOk(doms, focus, logs, issued, i, s, Append(op))
  {
    var g := logs[s.id];
    assert Extended(logs, s, Append(op), i) ==
           g.(version := g.version + 1, history := g.history + [op], authors := g.authors + [i]);
  }

  lemma ReadPreparesHolder(doms: RoomKind -> Domain, focus: string, w: World, i: nat, req: Request,
                           now: nat, newId: string, opId: string)
    requires StoreOk(doms, focus, w) && newId in w.issued && newId !in w.logs
    ensures var phase := AfterRead(doms, w.store, req, now, newId, opId);
            phase.Holding? ==>
              HeldOk(doms, focus, w.logs, w.issued, i, phase.session, phase.change) &&
              (phase.change.Create? ==> phase.session.id == newId) &&
              (!phase.change.Create? && phase.session.id == focus ==>
                 phase.session.version == w.logs[phase.session.id].version)
  {
    match req
    case Join(_, _, _, _, _) => JoinPreparesHolder(doms, focus, w, i, req, now, newId);
    case Heartbeat(sid, userId, presence) =>
      if sid in w.store.sessions {
        assert ReadOk(doms, focus, w, w.store.sessions[sid]);
        HeartbeatPreparesHolder(doms, focus, w, i, w.store.sessions[sid], userId, presence, now);
      }
    case Submit(sid, userId, draft) =>
      if sid in w.store.sessions {
        assert ReadOk(doms, focus, w, w.store.sessions[sid]);
        SubmitPreparesHolder(doms, focus, w, i, w.store.sessions[sid], userId, draft, opId, now);
      }
  }

  /** A held session stays fit to commit while its own log is untouched, and becomes merely out of
      date once the log has moved on. */
  lemma HeldSurvives(doms: RoomKind -> Domain, focus: string, logs: map<string, Log>, issued: set<string>,
                     logs': map<string, Log>, issued': set<string>, i: nat, s: Session, c: Change)
    requires HeldOk(doms, focus, logs, issued, i, s, c) && issued <= issued'
    requires c.Create? ==> s.id !in logs'
    requires !c.Create? ==>
               s.id in logs' && (logs'[s.id] == logs[s.id] ||
                 (logs'[s.id].kind == logs[s.id].kind && logs'[s.id].fileId == logs[s.id].fileId &&
                  logs'[s.id].version > logs[s.id].version))
    ensures HeldOk(doms, focus, logs', issued', i, s, c)
  {
    assert !c.Create? && logs'[s.id] == logs[s.id] ==> Extended(logs', s, c, i) == Extended(logs, s, c, i);
  }

  /** Giving task `i` an unsuccessful phase keeps the bookkeeping of everyone else. */
  lemma PhaseKeepsHolders(doms: RoomKind -> Domain, focus: string, w: World, st: State, issued: set<string>,
                          i: nat, t: Task)
    requires HoldersOk(doms, focus, w) && w.issued <= issued
    requires t.phase.Holding? ==>
               HeldOk(doms, focus, w.logs, issued, i, t.phase.session, t.phase.change) &&
               (t.phase.change.Create? ==> t.phase.session.id !in w.issued)
    ensures HoldersOk(doms, focus, World(st, w.tasks[i := t], w.logs, issued))
  {
    var w' := World(st, w.tasks[i := t], w.logs, issued);
    forall j | j in w'.tasks && w'.tasks[j].phase.Holding?
      ensures HeldOk(doms, focus, w'.logs, w'.issued, j, w'.tasks[j].phase.session, w'.tasks[j].phase.change)
    {
      if j != i {
        var p := w.tasks[j].phase;
        HeldSurvives(doms, focus, w.logs, w.issued, w.logs, w'.issued, j, p.session, p.change);
      }
    }
    forall j | j in w'.tasks && j != i && Creating(w', j)
      ensures Creating(w, j) && w.tasks[j].phase.session.id in w.issued
    {
      assert HeldOk(doms, focus, w.logs, w.issued, j, w.tasks[j].phase.session, w.tasks[j].phase.change);
    }
  }

  lemma PhaseKeepsCredit(focus: string, w: World, st: State, issued: set<string>, i: nat, t: Task)
    requires CreditOk(focus, w) && !t.phase.Succeeded? && (i in w.tasks ==> !w.tasks[i].phase.Succeeded?)
    ensures CreditOk(focus, World(st, w.tasks[i := t], w.logs, issued))
  {
    var w' := World(st, w.tasks[i := t], w.logs, issued);
    assert forall j, id, op :: Appended(w', j, id, op) <==> Appended(w, j, id, op);
  }

  lemma ReadKeepsInv(doms: RoomKind -> Domain, focus: string, w: World, i: nat, st: State, now: nat,
                     newId: string, opId: string)
    requires Inv(doms, focus, w) && StoreOk(doms, focus, w.(store := st))
    requires i in w.tasks && w.tasks[i].phase.Reading? && newId !in w.issued
    ensures Inv(doms, focus, ReadOn(doms, w, i, st, now, newId, opId))
  {
    var w1 := World(st, w.tasks, w.logs, w.issued + {newId});
    IssueKeepsStoreOk(doms, focus, w.(store := st), newId);
    ReadPreparesHolder(doms, focus, w1, i, w.tasks[i].req, now, newId, opId);
    ReadPhaseOk(doms, focus, w, w1, i, AfterRead(doms, st, w.tasks[i].req, now, newId, opId));
  }

  lemma IssueKeepsStoreOk(doms: RoomKind -> Domain, focus: string, w: World, newId: string)
    requires StoreOk(doms, focus, w)
    ensures StoreOk(doms, focus, World(w.store, w.tasks, w.logs, w.issued + {newId}))
    ensures newId !in w.issued ==> newId !in w.logs
  {
  }

  lemma ReadPhaseOk(doms: RoomKind -> Domain, focus: string, w: World, w1: World, i: nat, phase: Phase)
    requires Inv(doms, focus, w) && i in w.tasks && w.tasks[i].phase.Reading?
    requires StoreOk(doms, focus, w1) && w1.tasks == w.tasks && w1.logs == w.logs && w.issued <= w1.issued
    requires !phase.Succeeded?
    requires phase.Holding? ==>
               HeldOk(doms, focus, w.logs, w1.issued, i, phase.session, phase.change) &&
               (phase.change.Create? ==> phase.session.id !in w.issued)
    ensures Inv(doms, focus, WithPhase(w1, i, phase))
  {
    var w' := WithPhase(w1, i, phase);
    SameStoreOk(doms, focus, w1, w');
    PhaseKeepsHolders(doms, focus, w, w1.store, w1.issued, i, w'.tasks[i]);
    PhaseKeepsCredit(focus, w, w1.store, w1.issued, i, w'.tasks[i]);
  }

  lemma SameStoreOk(doms: RoomKind -> Domain, focus: string, w: World, w': World)
    requires StoreOk(doms, focus, w) && w'.store == w.store && w'.logs == w.logs && w'.issued == w.issued
    ensures StoreOk(doms, focus, w')
  {
  }

  /** The held session has not expired unseen: it is new, or still stored after the prune of this very
      commit, or nothing was committed to it since it was read. */
  predicate SafeOn(w: World, i: nat, st: State)
    requires i in w.tasks && w.tasks[i].phase.Holding?
  {
    var s := w.tasks[i].phase.session;
    w.tasks[i].phase.change.Create? || s.id in st.sessions || (s.id in w.logs && s.version == w.logs[s.id].version)
  }

  /** The condition is asked of commits of `focus` only. */
  predicate Safe(focus: string, w: World, e: Event)
    requires Enabled(w, e)
  {
    e.Commit? && w.tasks[e.i].phase.session.id == focus ==> SafeOn(w, e.i, Pruned(w.store, e.now))
  }

  /** A commit that answers with a mismatch leaves every log alone and puts the task back or fails it. */
  lemma RefusedKeepsInv(doms: RoomKind -> Domain, focus: string, w: World, i: nat, st: State)
    requires Inv(doms, focus, w) && StoreOk(doms, focus, w.(store := st)) && i in w.tasks && w.tasks[i].phase.Holding?
    ensures Inv(doms, focus, Refused(w, i, st))
  {
    SameStoreOk(doms, focus, w.(store := st), Refused(w, i, st));
    RefusedKeepsHolders(doms, focus, w, i, st);
    RefusedKeepsCredit(focus, w, i, st);
  }

  lemma RefusedKeepsHolders(doms: RoomKind -> Domain, focus: string, w: World, i: nat, st: State)
    requires HoldersOk(doms, focus, w) && i in w.tasks && w.tasks[i].phase.Holding?
    ensures HoldersOk(doms, focus, Refused(w, i, st))
  {
    PhaseKeepsHolders(doms, focus, w, st, w.issued, i, Refused(w, i, st).tasks[i]);
  }

  lemma RefusedKeepsCredit(focus: string, w: World, i: nat, st: State)
    requires CreditOk(focus, w) && i in w.tasks && w.tasks[i].phase.Holding?
    ensures CreditOk(focus, Refused(w, i, st))
  {
    PhaseKeepsCredit(focus, w, st, w.issued, i, Refused(w, i, st).tasks[i]);
  }

  lemma SettledHolders(doms: RoomKind -> Domain, focus: string, w: World, i: nat, store: State, saved: Session,
                       c: Change, g: Log)
    requires HoldersOk(doms, focus, w) && i in w.tasks && w.tasks[i].phase.Holding?
    requires c == w.tasks[i].phase.change && saved.id == w.tasks[i].phase.session.id
    requires c.Create? <==> saved.id !in w.logs
    requires !c.Create? ==> g.kind == w.logs[saved.id].kind && g.fileId == w.logs[saved.id].fileId &&
                            g.version > w.logs[saved.id].version
    ensures HoldersOk(doms, focus, Settled(w, i, store, saved, c, g))
  {
    var w' := Settled(w, i, store, saved, c, g);
    forall j | j in w'.tasks && w'.tasks[j].phase.Holding?
      ensures HeldOk(doms, focus, w'.logs, w'.issued, j, w'.tasks[j].phase.session, w'.tasks[j].phase.change)
    {
      var p := w.tasks[j].phase;
      assert Creating(w, j) && Creating(w, i) ==> p.session.id != saved.id;
      HeldSurvives(doms, focus, w.logs, w.issued, w'.logs, w'.issued, j, p.session, p.change);
    }
    assert forall j :: j in w'.tasks && Creating(w', j) ==>
        Creating(w, j) && w'.tasks[j].phase.session == w.tasks[j].phase.session;
  }

  /** A successful commit replaces the stored session and its log together. */
  lemma SettledStore(doms: RoomKind -> Domain, focus: string, w: World, i: nat, st: State, saved: Session,
                     c: Change, g: Log)
    requires StoreOk(doms, focus, w.(store := st)) && i in w.tasks
    requires saved.id in w.issued && SameFile(saved, g) && (saved.id == focus ==> Agrees(doms, saved, g))
    requires saved.id in w.logs ==> g.kind == w.logs[saved.id].kind && g.fileId == w.logs[saved.id].fileId
    ensures StoreOk(doms, focus, Settled(w, i, Inserted(st, saved), saved, c, g))
  {
    forall key | key in st.byFile && st.byFile[key] == saved.id ensures key == FileKey(saved) {
      assert SameFile(st.sessions[saved.id], w.logs[saved.id]);
    }
    InsertKeepsIndexIff(st, saved);
  }

  lemma SettledCredit(focus: string, w: World, i: nat, store: State, saved: Session, c: Change, g: Log)
    requires CreditOk(focus, w) && i in w.tasks && w.tasks[i].phase.Holding?
    requires saved.id == focus && c.Create? ==> focus !in w.logs && g.history == [] && g.authors == []
    requires saved.id == focus && !c.Create? ==>
               focus in w.logs && |w.logs[focus].authors| == |w.logs[focus].history| &&
               if c.Append? then
                 c.op.seqNo == |w.logs[focus].history| + 1 &&
                 g.history == w.logs[focus].history + [c.op] && g.authors == w.logs[focus].authors + [i]
               else g.history == w.logs[focus].history && g.authors == w.logs[focus].authors
    ensures CreditOk(focus, Settled(w, i, store, saved, c, g))
  {
    var w' := Settled(w, i, store, saved, c, g);
    forall j, op | Appended(w', j, focus, op)
      ensures focus in w'.logs && 1 <= op.seqNo <= |w'.logs[focus].history| && op.seqNo <= |w'.logs[focus].authors| &&
              w'.logs[focus].history[op.seqNo - 1] == op && w'.logs[focus].authors[op.seqNo - 1] == j
    {
      if j != i {
        assert Appended(w, j, focus, op);
      }
    }
    forall k | focus in w'.logs && 0 <= k < |w'.logs[focus].history| && k < |w'.logs[focus].authors|
      ensures Appended(w', w'.logs[focus].authors[k], focus, w'.logs[focus].history[k])
    {
      if focus in w.logs && k < |w.logs[focus].history| {
        assert Appended(w, w.logs[focus].authors[k], focus, w.logs[focus].history[k]);
      }
    }
  }

  /** The comparison succeeds. */
  predicate Accepts(w: World, i: nat, st: State)
    requires i in w.tasks && w.tasks[i].phase.Holding?
  {
    var s := w.tasks[i].phase.session;
    s.id in st.sessions ==> st.sessions[s.id].version == s.version
  }

  /** The log that task `i` would leave behind. */
  function NewLog(w: World, i: nat): Log
    requires i in w.tasks && w.tasks[i].phase.Holding?
  {
    Extended(w.logs, w.tasks[i].phase.session, w.tasks[i].phase.change, i)
  }

  function SettledBy(w: World, i: nat, st: State, now: nat): World
    requires i in w.tasks && w.tasks[i].phase.Holding?
  {
    var saved := Bumped(w.tasks[i].phase.session, now);
    Settled(w, i, Inserted(st, saved), saved, w.tasks[i].phase.change, NewLog(w, i))
  }

  /** A commit either settles the held session or is refused. */
  lemma CommitCases(w: World, i: nat, st: State, now: nat)
    requires i in w.tasks && w.tasks[i].phase.Holding?
    ensures CommitOn(w, i, st, now) == if Accepts(w, i, st) then SettledBy(w, i, st, now) else Refused(w, i, st)
    ensures CommitOn(w, i, st, now).tasks[i].phase.Succeeded? <==> Accepts(w, i, st)
  {
  }

  /** What an accepted session is: new to the logs, or up to date with its own. */
  lemma AcceptedIsCurrent(doms: RoomKind -> Domain, focus: string, w: World, i: nat, st: State)
    requires StoreOk(doms, focus, w.(store := st)) && i in w.tasks && w.tasks[i].phase.Holding?
    requires w.tasks[i].phase.session.id == focus ==> SafeOn(w, i, st)
    requires Accepts(w, i, st)
    requires HeldOk(doms, focus, w.logs, w.issued, i, w.tasks[i].phase.session, w.tasks[i].phase.change)
    ensures var s, c := w.tasks[i].phase.session, w.tasks[i].phase.change;
            s.id in w.issued && (c.Create? <==> s.id !in w.logs) &&
            (!c.Create? && s.id == focus ==> s.version == w.logs[s.id].version)
  {
  }

  lemma CurrentAgrees(doms: RoomKind -> Domain, focus: string, w: World, i: nat, now: nat)
    requires i in w.tasks && w.tasks[i].phase.Holding? && w.tasks[i].phase.session.id == focus
    requires var s, c := w.tasks[i].phase.session, w.tasks[i].phase.change;
             HeldOk(doms, focus, w.logs, w.issued, i, s, c) &&
             (!c.Create? ==> s.id in w.logs && s.version == w.logs[s.id].version)
    ensures Agrees(doms, Bumped(w.tasks[i].phase.session, now), NewLog(w, i))
  {
    var s := w.tasks[i].phase.session;
    assert Agrees(doms, s.(version := s.version + 1), NewLog(w, i));
  }

  lemma NewLogSameFile(doms: RoomKind -> Domain, focus: string, w: World, i: nat, now: nat)
    requires i in w.tasks && w.tasks[i].phase.Holding?
    requires HeldOk(doms, focus, w.logs, w.issued, i, w.tasks[i].phase.session, w.tasks[i].phase.change)
    ensures SameFile(Bumped(w.tasks[i].phase.session, now), NewLog(w, i))
    ensures NewLog(w, i) == Extended(w.logs, Bumped(w.tasks[i].phase.session, now), w.tasks[i].phase.change, i)
  {
  }

  lemma SettledInv(doms: RoomKind -> Domain, focus: string, w: World, i: nat, st: State, saved: Session, c: Change)
    requires Inv(doms, focus, w) && StoreOk(doms, focus, w.(store := st))
    requires i in w.tasks && w.tasks[i].phase.Holding?
    requires c == w.tasks[i].phase.change && saved.id == w.tasks[i].phase.session.id && saved.id in w.issued
    requires c.Create? <==> saved.id !in w.logs
    requires SameFile(saved, Extended(w.logs, saved, c, i))
    requires saved.id == focus ==> Agrees(doms, saved, Extended(w.logs, saved, c, i))
    ensures Inv(doms, focus, Settled(w, i, Inserted(st, saved), saved, c, Extended(w.logs, saved, c, i)))
  {
    var g := Extended(w.logs, saved, c, i);
    SettledStore(doms, focus, w, i, st, saved, c, g);
    if saved.id == focus && c.Append? {
      assert g.history[|g.history| - 1] == c.op;
    }
    SettledHolders(doms, focus, w, i, Inserted(st, saved), saved, c, g);
    SettledCredit(focus, w, i, Inserted(st, saved), saved, c, g);
  }

  lemma HolderIsOk(doms: RoomKind -> Domain, focus: string, w: World, i: nat)
    requires HoldersOk(doms, focus, w) && i in w.tasks && w.tasks[i].phase.Holding?
    ensures HeldOk(doms, focus, w.logs, w.issued, i, w.tasks[i].phase.session, w.tasks[i].phase.change)
  {
  }

  lemma CommitKeepsInv(doms: RoomKind -> Domain, focus: string, w: World, i: nat, st: State, now: nat)
    requires Inv(doms, focus, w) && StoreOk(doms, focus, w.(store := st))
    requires i in w.tasks && w.tasks[i].phase.Holding?
    requires w.tasks[i].phase.session.id == focus ==> SafeOn(w, i, st)
    ensures Inv(doms, focus, CommitOn(w, i, st, now))
  {
    CommitCases(w, i, st, now);
    if Accepts(w, i, st) {
      HolderIsOk(doms, focus, w, i);
      AcceptedIsCurrent(doms, focus, w, i, st);
      NewLogSameFile(doms, focus, w, i, now);
      if w.tasks[i].phase.session.id == focus {
        CurrentAgrees(doms, focus, w, i, now);
      }
      SettledInv(doms, focus, w, i, st, Bumped(w.tasks[i].phase.session, now), w.tasks[i].phase.change);
    } else {
      RefusedKeepsInv(doms, focus, w, i, st);
    }
  }

  /** Every step of every task keeps the invariant, a commit under the no-expiry condition. */
  lemma StepKeepsInv(doms: RoomKind -> Domain, focus: string, w: World, e: Event)
    requires Inv(doms, focus, w) && Enabled(w, e) && Safe(focus, w, e)
    ensures Inv(doms, focus, Next(doms, w, e))
  {
    match e
    case Spawn(i, req) => SpawnKeepsInv(doms, focus, w, i, req);
    case Read(i, now, newId, opId) =>
      PruneKeepsStoreOk(doms, focus, w, now);
      ReadKeepsInv(doms, focus, w, i, Pruned(w.store, now), now, newId, opId);
    case Commit(i, now) =>
      PruneKeepsStoreOk(doms, focus, w, now);
      CommitKeepsInv(doms, focus, w, i, Pruned(w.store, now), now);
  }

  lemma SpawnKeepsInv(doms: RoomKind -> Domain, focus: string, w: World, i: nat, req: Request)
    requires Inv(doms, focus, w) && i !in w.tasks
    ensures Inv(doms, focus, w.(tasks := w.tasks[i := Task(req, 0, Reading)]))
  {
    SameStoreOk(doms, focus, w, w.(tasks := w.tasks[i := Task(req, 0, Reading)]));
    PhaseKeepsHolders(doms, focus, w, w.store, w.issued, i, Task(req, 0, Reading));
    PhaseKeepsCredit(focus, w, w.store, w.issued, i, Task(req, 0, Reading));
  }
}
