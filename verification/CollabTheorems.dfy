/** What holds of every run of the collaboration engine. */
module CollabTheorems {
  import opened Wrappers
  import opened CollabTypes
  import opened CollabStore
  import opened CollabEngine
  import opened CollabRuns

  function Start(): World {
    World(State(map[], map[]), map[], map[], {})
  }

  ghost predicate ValidRun(doms: RoomKind -> Domain, w: World, es: seq<Event>)
    decreases |es|
  {
    es != [] ==> Enabled(w, es[0]) && ValidRun(doms, Next(doms, w, es[0]), es[1..])
  }

  ghost function Final(doms: RoomKind -> Domain, w: World, es: seq<Event>): World
    requires ValidRun(doms, w, es)
    decreases |es|
  {
    if es == [] then w else Final(doms, Next(doms, w, es[0]), es[1..])
  }

  /** No commit of this session is of a copy that expired unseen; commits of others may be. */
  ghost predicate Unexpired(doms: RoomKind -> Domain, id: string, w: World, es: seq<Event>)
    requires ValidRun(doms, w, es)
    decreases |es|
  {
    es != [] ==> Safe(id, w, es[0]) && Unexpired(doms, id, Next(doms, w, es[0]), es[1..])
  }

  lemma {:induction false} RunKeepsInv(doms: RoomKind -> Domain, id: string, w: World, es: seq<Event>)
    requires Inv(doms, id, w) && ValidRun(doms, w, es) && Unexpired(doms, id, w, es)
    ensures Inv(doms, id, Final(doms, w, es))
    decreases |es|
  {
    if es != [] {
      StepKeepsInv(doms, id, w, es[0]);
      RunKeepsInv(doms, id, Next(doms, w, es[0]), es[1..]);
    }
  }

  // ----- no lost update ------------------------------------------------------------------------

  /** The history of a session only grows at the end; what was committed stays where it was. */
  ghost predicate LogGrows(w: World, w': World, id: string) {
    id in w.logs ==>
      id in w'.logs && w'.logs[id].kind == w.logs[id].kind &&
      w.logs[id].history <= w'.logs[id].history && w.logs[id].authors <= w'.logs[id].authors
  }

  lemma CommitGrows(doms: RoomKind -> Domain, id: string, w: World, i: nat, st: State, now: nat)
    requires HoldersOk(doms, id, w) && i in w.tasks && w.tasks[i].phase.Holding?
    ensures LogGrows(w, CommitOn(w, i, st, now), id)
  {
    CommitCases(w, i, st, now);
    HolderIsOk(doms, id, w, i);
  }

  lemma StepGrows(doms: RoomKind -> Domain, id: string, w: World, e: Event)
    requires HoldersOk(doms, id, w) && Enabled(w, e)
    ensures LogGrows(w, Next(doms, w, e), id)
  {
    if e.Commit? {
      CommitGrows(doms, id, w, e.i, Pruned(w.store, e.now), e.now);
    }
  }

  lemma {:induction false} CommittedOpsStay(doms: RoomKind -> Domain, id: string, w: World, es: seq<Event>)
    requires Inv(doms, id, w) && ValidRun(doms, w, es) && Unexpired(doms, id, w, es)
    ensures LogGrows(w, Final(doms, w, es), id)
    decreases |es|
  {
    if es != [] {
      StepGrows(doms, id, w, es[0]);
      StepKeepsInv(doms, id, w, es[0]);
      CommittedOpsStay(doms, id, Next(doms, w, es[0]), es[1..]);
    }
  }

  /** In every interleaving from an empty store in which no copy of a session expires unseen, whatever
      happens to other sessions: its successful submits and committed ops match one to one, its ops are
      numbered 1, 2, 3, ..., and while it is stored it still carries them. */
  lemma NoLostUpdate(doms: RoomKind -> Domain, id: string, es: seq<Event>)
    requires ValidRun(doms, Start(), es) && Unexpired(doms, id, Start(), es)
    ensures var w := Final(doms, Start(), es);
            && (forall k :: id in w.logs && 0 <= k < |w.logs[id].history| ==>
                  k < |w.logs[id].authors| && w.logs[id].history[k].seqNo == k + 1 &&
                  Appended(w, w.logs[id].authors[k], id, w.logs[id].history[k]))
            && (forall i, op :: Appended(w, i, id, op) ==>
                  id in w.logs && 1 <= op.seqNo <= |w.logs[id].history| && op.seqNo <= |w.logs[id].authors| &&
                  w.logs[id].history[op.seqNo - 1] == op && w.logs[id].authors[op.seqNo - 1] == i)
            && (id in w.store.sessions ==>
                  id in w.logs && w.store.sessions[id].nextSeq == |w.logs[id].history| + 1 &&
                  w.store.sessions[id].ops == w.logs[id].history[Floor(w.logs[id].history)..])
  {
    RunKeepsInv(doms, id, Start(), es);
  }

  /** A task that failed, for whatever reason, put no op into the session. */
  lemma FailedTaskWroteNothing(doms: RoomKind -> Domain, w: World, i: nat, id: string, k: nat)
    requires Inv(doms, id, w) && i in w.tasks && !w.tasks[i].phase.Succeeded?
    requires id in w.logs && k < |w.logs[id].history|
    ensures k < |w.logs[id].authors| && w.logs[id].authors[k] != i
  {
    assert LogOk(w.logs[id]);
    assert Appended(w, w.logs[id].authors[k], id, w.logs[id].history[k]);
  }

  predicate SameContent(s: Session, t: Session) {
    t.ops == s.ops && t.nextSeq == s.nextSeq && t.snapshot == s.snapshot
  }

  /** Task `i` holds an op or a re-seed of session `id`. */
  predicate HoldsWrite(w: World, i: nat, id: string) {
    i in w.tasks && w.tasks[i].phase.Holding? && w.tasks[i].phase.session.id == id &&
    (w.tasks[i].phase.change.Append? || w.tasks[i].phase.change.Reseed?)
  }

  /** A step changes the ops, numbering or snapshot of a stored session only when it is a successful
      commit of that session by a submit or by a re-seeding join. */
  lemma OnlySubmitsAndReseedsWrite(doms: RoomKind -> Domain, w: World, e: Event, id: string)
    requires StoreOk(doms, id, w) && HoldersOk(doms, id, w) && Enabled(w, e) && Safe(id, w, e)
    requires id in Next(doms, w, e).store.sessions
    requires if e.Spawn? then id in w.store.sessions else id in Pruned(w.store, e.now).sessions
    ensures SameContent(w.store.sessions[id], Next(doms, w, e).store.sessions[id]) ||
            (e.Commit? && HoldsWrite(w, e.i, id) && Next(doms, w, e).tasks[e.i].phase.Succeeded?)
  {
    if e.Commit? {
      var st := Pruned(w.store, e.now);
      PruneKeepsStoreOk(doms, id, w, e.now);
      CommitWrites(doms, w, e.i, st, e.now, id);
      assert id in st.sessions ==> SameContent(w.store.sessions[id], st.sessions[id]);
    }
  }

  lemma CommitWrites(doms: RoomKind -> Domain, w: World, i: nat, st: State, now: nat, id: string)
    requires StoreOk(doms, id, w.(store := st)) && HoldersOk(doms, id, w)
    requires i in w.tasks && w.tasks[i].phase.Holding? && (w.tasks[i].phase.session.id == id ==> SafeOn(w, i, st))
    requires id in CommitOn(w, i, st, now).store.sessions
    ensures (id in st.sessions && SameContent(st.sessions[id], CommitOn(w, i, st, now).store.sessions[id])) ||
            (w.tasks[i].phase.session.id == id && CommitOn(w, i, st, now).tasks[i].phase.Succeeded? &&
             (id in st.sessions ==> HoldsWrite(w, i, id)))
  {
    CommitCases(w, i, st, now);
    if Accepts(w, i, st) && w.tasks[i].phase.session.id == id {
      HolderIsOk(doms, id, w, i);
      AcceptedIsCurrent(doms, id, w, i, st);
      CurrentAgrees(doms, id, w, i, now);
      if w.tasks[i].phase.change.Touch? && id in st.sessions {
        SameLogSameContent(doms, st.sessions[id], w.logs[id], Bumped(w.tasks[i].phase.session, now));
      }
    }
  }

  lemma SameLogSameContent(doms: RoomKind -> Domain, s: Session, g: Log, t: Session)
    requires Agrees(doms, s, g) && Agrees(doms, t, g.(version := g.version + 1))
    ensures SameContent(s, t)
  {
  }

  // ----- what a held session remembers ---------------------------------------------------------

  /** How long the history was when the session was read. */
  function SeenLength(s: Session, c: Change): int {
    s.nextSeq - 1 - (if c.Append? then 1 else 0)
  }

  /** The history as it was read, with the held op if there is one. */
  function Prepared(c: Change, seen: seq<Op>): seq<Op> {
    if c.Append? then seen + [c.op] else seen
  }

  /** A held session is the end of what it read of a history, its own op behind it. */
  ghost predicate Remembers(s: Session, c: Change, history: seq<Op>) {
    var n := SeenLength(s, c);
    && 0 <= n <= |history|
    && (c.Append? ==> c.op.seqNo == n + 1)
    && var h := Prepared(c, history[..n]);
       s.ops == h[Floor(h)..] && (c.Append? ==> s.snapshot.snapshotSeq == Floor(h)) &&
       (c.Reseed? ==> s.snapshot.snapshotSeq == 0)
  }

  /** Every held copy of the session does. */
  ghost predicate AllRemember(w: World, id: string) {
    forall i :: i in w.tasks && w.tasks[i].phase.Holding? && !w.tasks[i].phase.change.Create? &&
                w.tasks[i].phase.session.id == id ==>
      id in w.logs && Remembers(w.tasks[i].phase.session, w.tasks[i].phase.change, w.logs[id].history)
  }

  lemma CurrentRemembers(doms: RoomKind -> Domain, logs: map<string, Log>, issued: set<string>,
                         i: nat, s: Session, c: Change)
    requires HeldOk(doms, s.id, logs, issued, i, s, c) && !c.Create? && s.version == logs[s.id].version
    requires LogOk(logs[s.id])
    ensures Remembers(s, c, logs[s.id].history) && SeenLength(s, c) == |logs[s.id].history|
  {
    var h, g := logs[s.id].history, Extended(logs, s, c, i);
    assert Agrees(doms, s.(version := s.version + 1), g);
    assert h[..|h|] == h;
    if c.Append? {
      assert g.history[|h|] == c.op;
    }
  }

  lemma PastStays(w: World, w': World, id: string, i: nat, t: Task)
    requires AllRemember(w, id) && LogGrows(w, w', id) && w'.tasks == w.tasks[i := t]
    requires t.phase.Holding? && !t.phase.change.Create? && t.phase.session.id == id ==>
               id in w'.logs && Remembers(t.phase.session, t.phase.change, w'.logs[id].history)
    ensures AllRemember(w', id)
  {
    forall j |
      j in w'.tasks && j != i && w'.tasks[j].phase.Holding? && !w'.tasks[j].phase.change.Create? &&
      w'.tasks[j].phase.session.id == id
      ensures id in w'.logs && Remembers(w'.tasks[j].phase.session, w'.tasks[j].phase.change, w'.logs[id].history)
    {
      var s, c := w.tasks[j].phase.session, w.tasks[j].phase.change;
      var h, h' := w.logs[id].history, w'.logs[id].history;
      assert Remembers(s, c, h);
      assert h'[..SeenLength(s, c)] == h[..SeenLength(s, c)];
    }
  }

  lemma ReadRemembers(doms: RoomKind -> Domain, id: string, w: World, i: nat, st: State, now: nat,
                      newId: string, opId: string)
    requires Inv(doms, id, w) && AllRemember(w, id) && StoreOk(doms, id, w.(store := st))
    requires i in w.tasks && newId !in w.issued
    ensures AllRemember(ReadOn(doms, w, i, st, now, newId, opId), id)
  {
    var w1 := World(st, w.tasks, w.logs, w.issued + {newId});
    IssueKeepsStoreOk(doms, id, w.(store := st), newId);
    ReadPreparesHolder(doms, id, w1, i, w.tasks[i].req, now, newId, opId);
    var phase := AfterRead(doms, st, w.tasks[i].req, now, newId, opId);
    if phase.Holding? && !phase.change.Create? && phase.session.id == id {
      CurrentRemembers(doms, w.logs, w1.issued, i, phase.session, phase.change);
    }
    PastStays(w, WithPhase(w1, i, phase), id, i, w.tasks[i].(phase := phase));
  }

  lemma CommitRemembers(doms: RoomKind -> Domain, id: string, w: World, i: nat, st: State, now: nat)
    requires HoldersOk(doms, id, w) && AllRemember(w, id) && i in w.tasks && w.tasks[i].phase.Holding?
    ensures AllRemember(CommitOn(w, i, st, now), id)
  {
    CommitGrows(doms, id, w, i, st, now);
    CommitCases(w, i, st, now);
    PastStays(w, CommitOn(w, i, st, now), id, i, CommitOn(w, i, st, now).tasks[i]);
  }

  lemma StepRemembers(doms: RoomKind -> Domain, id: string, w: World, e: Event)
    requires Inv(doms, id, w) && AllRemember(w, id) && Enabled(w, e)
    ensures AllRemember(Next(doms, w, e), id)
  {
    match e
    case Spawn(i, req) => PastStays(w, Next(doms, w, e), id, i, Task(req, 0, Reading));
    case Read(i, now, newId, opId) =>
      PruneKeepsStoreOk(doms, id, w, now);
      ReadRemembers(doms, id, w, i, Pruned(w.store, now), now, newId, opId);
    case Commit(i, now) => CommitRemembers(doms, id, w, i, Pruned(w.store, now), now);
  }

  lemma {:induction false} RunRemembers(doms: RoomKind -> Domain, id: string, w: World, es: seq<Event>)
    requires Inv(doms, id, w) && AllRemember(w, id) && ValidRun(doms, w, es) && Unexpired(doms, id, w, es)
    ensures Inv(doms, id, Final(doms, w, es)) && AllRemember(Final(doms, w, es), id)
    decreases |es|
  {
    if es != [] {
      StepKeepsInv(doms, id, w, es[0]);
      StepRemembers(doms, id, w, es[0]);
      RunRemembers(doms, id, Next(doms, w, es[0]), es[1..]);
    }
  }

  // ----- what a submit is rebased over ---------------------------------------------------------

  /** The ops of a history that an op with this base had not seen, as far as they are retained. */
  function Unseen(history: seq<Op>, baseSeq: nat): seq<Op> {
    history[if baseSeq > |history| then |history| else Max(baseSeq, Floor(history))..]
  }

  lemma OpsAfterUnseen(doms: RoomKind -> Domain, s: Session, g: Log, b: nat)
    requires Agrees(doms, s, g) && b <= |g.history|
    ensures s.OpsAfter(b) == Unseen(g.history, b)
  {
    UnseenOfRing(g.history, Floor(g.history), b);
  }

  lemma UnseenOfRing(h: seq<Op>, f: nat, b: nat)
    requires NumberedFrom(h, 1) && f <= |h| && b <= |h|
    ensures After(h[f..], b) == h[Max(b, f)..]
  {
    NumberedSuffix(h, f);
    AfterSuffix(h[f..], f + 1, b);
    var k := Clamp(b + 1 - (f + 1), |h[f..]|);
    assert k == Max(b, f) - f;
    DropDrop(h, f, k);
  }

  /** A submit that succeeds was given by the plugin exactly what is committed, from what the client
      sent and the committed history after the client's base (as far as it is retained: all of it when
      the base is not below the floor); it is numbered next. */
  lemma SubmitRebasesOverUnseen(doms: RoomKind -> Domain, s: Session, g: Log, userId: string, draft: Draft,
                                opId: string, now: nat)
    requires Agrees(doms, s, g) && Submitted(doms(s.kind), s, userId, draft, opId, now).Ok?
    ensures var op, h := Submitted(doms(s.kind), s, userId, draft, opId, now).value.0, g.history;
            var raw := Op(opId, 0, userId, now, draft.baseSeq, draft.opType, draft.payload, draft.clientOpId);
            && draft.baseSeq <= |h|
            && op == raw.(seqNo := |h| + 1, opType := op.opType, payload := op.payload)
            && doms(g.kind).transform(s.snapshot, Unseen(h, draft.baseSeq), raw, userId, s.participants) ==
                 Ok((op.opType, op.payload))
            && (draft.baseSeq >= Floor(h) ==> Unseen(h, draft.baseSeq) == h[draft.baseSeq..])
  {
    SubmitAnswers(doms(s.kind), s, userId, draft, opId, now);
    OpsAfterUnseen(doms, s, g, draft.baseSeq);
  }

  /** A participant's submit is refused as ahead, whatever the plugin says, if and only if its base lies
      beyond the committed history. */
  lemma RefusedAsAheadIff(doms: RoomKind -> Domain, s: Session, g: Log, userId: string, draft: Draft,
                          opId: string, now: nat)
    requires Agrees(doms, s, g) && userId in s.participants
    ensures (forall dom :: Submitted(dom, s, userId, draft, opId, now) == Err(InvalidOp)) <==>
            draft.baseSeq > |g.history|
  {
    AheadIff(s, userId, draft, opId, now);
  }

  ghost predicate Answered(dom: Domain, snap: Snapshot, unseen: seq<Op>, raw: Op, userId: string,
                           ps: map<string, Participant>, opType: string, payload: Json) {
    dom.transform(snap, unseen, raw, userId, ps) == Ok((opType, payload))
  }

  /** `op` is what the plugin made of this submit after the ops `seen`. */
  ghost predicate Rebased(dom: Domain, req: Request, op: Op, seen: seq<Op>) {
    && req.Submit? && op.baseSeq <= |seen|
    && op.userId == req.userId && op.baseSeq == req.draft.baseSeq && op.clientOpId == req.draft.clientOpId
    && exists snap, ps ::
         Answered(dom, snap, Unseen(seen, op.baseSeq),
                  op.(seqNo := 0, opType := req.draft.opType, payload := req.draft.payload),
                  op.userId, ps, op.opType, op.payload)
  }

  /** Op `k` of the session was rebased over the ops before it that its client had not seen. */
  ghost predicate OpRebased(doms: RoomKind -> Domain, w: World, id: string, k: nat)
    requires id in w.logs && k < |w.logs[id].history| && k < |w.logs[id].authors|
  {
    w.logs[id].authors[k] in w.tasks &&
    Rebased(doms(w.logs[id].kind), w.tasks[w.logs[id].authors[k]].req, w.logs[id].history[k], w.logs[id].history[..k])
  }

  /** A held op was rebased over the history as it was read. */
  ghost predicate HeldRebased(doms: RoomKind -> Domain, w: World, id: string, i: nat) {
    i in w.tasks && w.tasks[i].phase.Holding? && w.tasks[i].phase.change.Append? &&
    w.tasks[i].phase.session.id == id ==>
      var s, c := w.tasks[i].phase.session, w.tasks[i].phase.change;
      id in w.logs && 0 <= SeenLength(s, c) <= |w.logs[id].history| &&
      Rebased(doms(w.logs[id].kind), w.tasks[i].req, c.op, w.logs[id].history[..SeenLength(s, c)])
  }

  ghost predicate AllRebased(doms: RoomKind -> Domain, w: World, id: string) {
    && (id in w.logs ==>
          forall k :: 0 <= k < |w.logs[id].history| && k < |w.logs[id].authors| ==> OpRebased(doms, w, id, k))
    && forall i :: HeldRebased(doms, w, id, i)
  }

  /** Requests never change. */
  ghost predicate SameRequests(w: World, w': World) {
    forall i :: i in w.tasks ==> i in w'.tasks && w'.tasks[i].req == w.tasks[i].req
  }

  lemma OldOpStaysRebased(doms: RoomKind -> Domain, w: World, w': World, id: string, k: nat)
    requires LogGrows(w, w', id) && SameRequests(w, w') && id in w.logs
    requires k < |w.logs[id].history| && k < |w.logs[id].authors| && OpRebased(doms, w, id, k)
    ensures OpRebased(doms, w', id, k)
  {
    assert w'.logs[id].history[..k] == w.logs[id].history[..k];
  }

  lemma HeldStaysRebased(doms: RoomKind -> Domain, w: World, w': World, id: string, i: nat)
    requires LogGrows(w, w', id) && i in w.tasks && i in w'.tasks && w'.tasks[i] == w.tasks[i]
    requires HeldRebased(doms, w, id, i)
    ensures HeldRebased(doms, w', id, i)
  {
    if w.tasks[i].phase.Holding? && w.tasks[i].phase.change.Append? && w.tasks[i].phase.session.id == id {
      var n := SeenLength(w.tasks[i].phase.session, w.tasks[i].phase.change);
      assert w'.logs[id].history[..n] == w.logs[id].history[..n];
    }
  }

  /** The history is as long as it was, or one rebased op longer. */
  ghost predicate NothingNewBut(doms: RoomKind -> Domain, w: World, w': World, id: string) {
    id in w'.logs ==>
      var known := if id in w.logs then |w.logs[id].history| else 0;
      |w'.logs[id].history| <= known ||
      (|w'.logs[id].history| == known + 1 == |w'.logs[id].authors| && OpRebased(doms, w', id, known))
  }

  /** One task changes, the log grows by at most its op. */
  lemma RebasedStays(doms: RoomKind -> Domain, w: World, w': World, id: string, i: nat, t: Task)
    requires AllRebased(doms, w, id) && LogGrows(w, w', id) && w'.tasks == w.tasks[i := t]
    requires i in w.tasks ==> t.req == w.tasks[i].req
    requires HeldRebased(doms, w', id, i)
    requires NothingNewBut(doms, w, w', id)
    requires id in w.logs ==> |w.logs[id].authors| == |w.logs[id].history|
    ensures AllRebased(doms, w', id)
  {
    if id in w'.logs {
      forall k | 0 <= k < |w'.logs[id].history| && k < |w'.logs[id].authors| ensures OpRebased(doms, w', id, k) {
        if id in w.logs && k < |w.logs[id].history| {
          OldOpStaysRebased(doms, w, w', id, k);
        }
      }
    }
    forall j ensures HeldRebased(doms, w', id, j) {
      if j in w.tasks && j != i {
        HeldStaysRebased(doms, w, w', id, j);
      }
    }
  }

  lemma SubmitIsRebased(doms: RoomKind -> Domain, s: Session, g: Log, req: Request, opId: string, now: nat)
    requires Agrees(doms, s, g) && req.Submit?
    requires Submitted(doms(s.kind), s, req.userId, req.draft, opId, now).Ok?
    ensures var (op, s') := Submitted(doms(s.kind), s, req.userId, req.draft, opId, now).value;
            s'.nextSeq == |g.history| + 2 && Rebased(doms(g.kind), req, op, g.history)
  {
    var (op, s') := Submitted(doms(s.kind), s, req.userId, req.draft, opId, now).value;
    SubmitRebasesOverUnseen(doms, s, g, req.userId, req.draft, opId, now);
    var raw := Raw(req.userId, req.draft, opId, now);
    assert raw == op.(seqNo := 0, opType := req.draft.opType, payload := req.draft.payload);
    assert Answered(doms(g.kind), s.snapshot, Unseen(g.history, op.baseSeq), raw, op.userId, s.participants,
                    op.opType, op.payload);
  }

  lemma ReadIsRebased(doms: RoomKind -> Domain, id: string, w: World, i: nat, st: State, now: nat,
                      newId: string, opId: string)
    requires StoreOk(doms, id, w.(store := st)) && i in w.tasks
    ensures HeldRebased(doms, ReadOn(doms, w, i, st, now, newId, opId), id, i)
  {
    var phase, req := AfterRead(doms, st, w.tasks[i].req, now, newId, opId), w.tasks[i].req;
    if phase.Holding? && phase.change.Append? && phase.session.id == id {
      var s := st.sessions[req.sid];
      SubmittedKeepsFile(doms(s.kind), s, req.userId, req.draft, opId, now);
      SubmitIsRebased(doms, s, w.logs[id], req, opId, now);
      assert w.logs[id].history[..|w.logs[id].history|] == w.logs[id].history;
    }
  }

  lemma CommitIsRebased(doms: RoomKind -> Domain, id: string, w: World, i: nat, st: State, now: nat)
    requires Inv(doms, id, w) && AllRemember(w, id) && AllRebased(doms, w, id) && StoreOk(doms, id, w.(store := st))
    requires i in w.tasks && w.tasks[i].phase.Holding? && (w.tasks[i].phase.session.id == id ==> SafeOn(w, i, st))
    ensures AllRebased(doms, CommitOn(w, i, st, now), id)
  {
    var w' := CommitOn(w, i, st, now);
    CommitGrows(doms, id, w, i, st, now);
    CommitAddsRebased(doms, id, w, i, st, now);
    CommitCases(w, i, st, now);
    RebasedStays(doms, w, w', id, i, w'.tasks[i]);
  }

  lemma CommitAddsRebased(doms: RoomKind -> Domain, id: string, w: World, i: nat, st: State, now: nat)
    requires Inv(doms, id, w) && AllRemember(w, id) && AllRebased(doms, w, id) && StoreOk(doms, id, w.(store := st))
    requires i in w.tasks && w.tasks[i].phase.Holding? && (w.tasks[i].phase.session.id == id ==> SafeOn(w, i, st))
    ensures NothingNewBut(doms, w, CommitOn(w, i, st, now), id)
  {
    CommitCases(w, i, st, now);
    if Accepts(w, i, st) && w.tasks[i].phase.session.id == id {
      HolderIsOk(doms, id, w, i);
      if w.tasks[i].phase.change.Append? {
        NewOpIsRebased(doms, id, w, i, st, now);
      }
    }
  }

  lemma NewOpIsRebased(doms: RoomKind -> Domain, id: string, w: World, i: nat, st: State, now: nat)
    requires Inv(doms, id, w) && AllRemember(w, id) && AllRebased(doms, w, id) && StoreOk(doms, id, w.(store := st))
    requires i in w.tasks && w.tasks[i].phase.Holding? && w.tasks[i].phase.change.Append?
    requires w.tasks[i].phase.session.id == id && SafeOn(w, i, st) && Accepts(w, i, st)
    ensures var g, g' := w.logs[id], SettledBy(w, i, st, now).logs[id];
            id in w.logs && |g'.history| == |g.history| + 1 == |g'.authors| &&
            OpRebased(doms, SettledBy(w, i, st, now), id, |g.history|)
  {
    var s, c := w.tasks[i].phase.session, w.tasks[i].phase.change;
    HolderIsOk(doms, id, w, i);
    AcceptedIsCurrent(doms, id, w, i, st);
    CurrentRemembers(doms, w.logs, w.issued, i, s, c);
    assert HeldRebased(doms, w, id, i);
    var h := w.logs[id].history;
    assert (h + [c.op])[..|h|] == h[..|h|] == h;
  }

  lemma StepIsRebased(doms: RoomKind -> Domain, id: string, w: World, e: Event)
    requires Inv(doms, id, w) && AllRemember(w, id) && AllRebased(doms, w, id) && Enabled(w, e) && Safe(id, w, e)
    ensures AllRebased(doms, Next(doms, w, e), id)
  {
    match e
    case Spawn(i, req) => RebasedStays(doms, w, Next(doms, w, e), id, i, Task(req, 0, Reading));
    case Read(i, now, newId, opId) =>
      PruneKeepsStoreOk(doms, id, w, now);
      ReadIsRebased(doms, id, w, i, Pruned(w.store, now), now, newId, opId);
      RebasedStays(doms, w, Next(doms, w, e), id, i, Next(doms, w, e).tasks[i]);
    case Commit(i, now) =>
      PruneKeepsStoreOk(doms, id, w, now);
      CommitIsRebased(doms, id, w, i, Pruned(w.store, now), now);
  }

  lemma {:induction false} RunIsRebased(doms: RoomKind -> Domain, id: string, w: World, es: seq<Event>)
    requires Inv(doms, id, w) && AllRemember(w, id) && AllRebased(doms, w, id)
    requires ValidRun(doms, w, es) && Unexpired(doms, id, w, es)
    ensures AllRebased(doms, Final(doms, w, es), id)
    decreases |es|
  {
    if es != [] {
      StepIsRebased(doms, id, w, es[0]);
      StepKeepsInv(doms, id, w, es[0]);
      StepRemembers(doms, id, w, es[0]);
      RunIsRebased(doms, id, Next(doms, w, es[0]), es[1..]);
    }
  }

  /** In every run from an empty store that commits no copy of a session after it expired unseen, each
      committed op is what the plugin made of its author's submit when given the retained ops that were
      committed between the author's base and the op. */
  lemma CommittedOpsAreRebased(doms: RoomKind -> Domain, id: string, es: seq<Event>, k: nat)
    requires ValidRun(doms, Start(), es) && Unexpired(doms, id, Start(), es)
    requires id in Final(doms, Start(), es).logs && k < |Final(doms, Start(), es).logs[id].history|
    ensures var w := Final(doms, Start(), es);
            var g := w.logs[id];
            k < |g.authors| && g.authors[k] in w.tasks &&
            Rebased(doms(g.kind), w.tasks[g.authors[k]].req, g.history[k], g.history[..k])
  {
    RunKeepsInv(doms, id, Start(), es);
    RunIsRebased(doms, id, Start(), es);
    assert OpRebased(doms, Final(doms, Start(), es), id, k);
  }

  // ----- what a re-seed replaces ---------------------------------------------------------------

  /** The text is there and is the empty string. */
  predicate EmptyText(data: Json) {
    data.JObj? && "text" in data.fields && data.fields["text"] == JStr("")
  }

  /** The data of the session as its log says. */
  ghost function LogData(doms: RoomKind -> Domain, g: Log): Result<Json, CollabError>
    requires g.baseSeq <= |g.history|
  {
    doms(g.kind).Replay(g.base, g.history[g.baseSeq..])
  }

  /** Whoever holds an up-to-date re-seed of the session found an empty text in a document. */
  ghost predicate ReseedsEmpty(doms: RoomKind -> Domain, w: World, id: string) {
    forall i :: i in w.tasks && w.tasks[i].phase.Holding? && w.tasks[i].phase.change.Reseed? &&
                w.tasks[i].phase.session.id == id && id in w.logs && w.logs[id].baseSeq <= |w.logs[id].history| &&
                w.tasks[i].phase.session.version == w.logs[id].version ==>
      w.logs[id].kind == Document && w.tasks[i].req.Join? && w.tasks[i].req.seed.Some? &&
      w.tasks[i].phase.session.snapshot == Snapshot(0, doms(Document).seed(w.tasks[i].req.seed)) &&
      LogData(doms, w.logs[id]).Ok? && EmptyText(LogData(doms, w.logs[id]).value)
  }

  /** The log of the session is the same or a version on. */
  ghost predicate LogMovesOn(w: World, w': World, id: string) {
    id in w'.logs && id in w.logs ==> w'.logs[id] == w.logs[id] || w'.logs[id].version > w.logs[id].version
  }

  lemma ReseedsStayEmpty(doms: RoomKind -> Domain, w: World, w': World, id: string, i: nat, t: Task)
    requires HoldersOk(doms, id, w) && ReseedsEmpty(doms, w, id) && LogMovesOn(w, w', id)
    requires w'.tasks == w.tasks[i := t]
    requires t.phase.Holding? && t.phase.change.Reseed? && t.phase.session.id == id && id in w'.logs &&
             w'.logs[id].baseSeq <= |w'.logs[id].history| ==>
               w'.logs[id].kind == Document && t.req.Join? && t.req.seed.Some? &&
               t.phase.session.snapshot == Snapshot(0, doms(Document).seed(t.req.seed)) &&
               LogData(doms, w'.logs[id]).Ok? && EmptyText(LogData(doms, w'.logs[id]).value)
    ensures ReseedsEmpty(doms, w', id)
  {
    forall j |
      j in w'.tasks && j != i && w'.tasks[j].phase.Holding? && w'.tasks[j].phase.change.Reseed? &&
      w'.tasks[j].phase.session.id == id
      ensures id in w.logs && w'.tasks[j].phase.session.version <= w.logs[id].version
    {
      HolderIsOk(doms, id, w, j);
    }
  }

  lemma CommitMovesOn(doms: RoomKind -> Domain, id: string, w: World, i: nat, st: State, now: nat)
    requires HoldersOk(doms, id, w) && i in w.tasks && w.tasks[i].phase.Holding?
    ensures LogMovesOn(w, CommitOn(w, i, st, now), id)
  {
    CommitCases(w, i, st, now);
    HolderIsOk(doms, id, w, i);
  }

  lemma ReadReseedsEmpty(doms: RoomKind -> Domain, id: string, w: World, i: nat, st: State, now: nat,
                         newId: string, opId: string)
    requires StoreOk(doms, id, w.(store := st)) && HoldersOk(doms, id, w) && ReseedsEmpty(doms, w, id)
    requires i in w.tasks
    ensures ReseedsEmpty(doms, ReadOn(doms, w, i, st, now, newId, opId), id)
  {
    var w', req := ReadOn(doms, w, i, st, now, newId, opId), w.tasks[i].req;
    var phase := AfterRead(doms, st, req, now, newId, opId);
    if phase.Holding? && phase.change.Reseed? && phase.session.id == id {
      var s := Lookup(st, req.kind, req.fileId).value;
      JoinKeepsWrittenText(doms(req.kind), s, req.userId, req.displayName, req.seed, now);
      assert s.id == id && Agrees(doms, s, w.logs[id]);
    }
    ReseedsStayEmpty(doms, w, w', id, i, w'.tasks[i]);
  }

  lemma StepReseedsEmpty(doms: RoomKind -> Domain, id: string, w: World, e: Event)
    requires Inv(doms, id, w) && ReseedsEmpty(doms, w, id) && Enabled(w, e)
    ensures ReseedsEmpty(doms, Next(doms, w, e), id)
  {
    match e
    case Spawn(i, req) => ReseedsStayEmpty(doms, w, Next(doms, w, e), id, i, Task(req, 0, Reading));
    case Read(i, now, newId, opId) =>
      PruneKeepsStoreOk(doms, id, w, now);
      ReadReseedsEmpty(doms, id, w, i, Pruned(w.store, now), now, newId, opId);
    case Commit(i, now) =>
      CommitMovesOn(doms, id, w, i, Pruned(w.store, now), now);
      ReseedsStayEmpty(doms, w, Next(doms, w, e), id, i, Next(doms, w, e).tasks[i]);
  }

  lemma {:induction false} RunReseedsEmpty(doms: RoomKind -> Domain, id: string, w: World, es: seq<Event>)
    requires Inv(doms, id, w) && ReseedsEmpty(doms, w, id) && ValidRun(doms, w, es) && Unexpired(doms, id, w, es)
    ensures Inv(doms, id, Final(doms, w, es)) && ReseedsEmpty(doms, Final(doms, w, es), id)
    decreases |es|
  {
    if es != [] {
      StepReseedsEmpty(doms, id, w, es[0]);
      StepKeepsInv(doms, id, w, es[0]);
      RunReseedsEmpty(doms, id, Next(doms, w, es[0]), es[1..]);
    }
  }

  /** At every point of every run that commits no copy of a session after it expired unseen: a step that
      gives the session a new base found, in a document, the text of its committed data equal to the
      empty string, and puts a seed that some join brought in its place. */
  lemma ReseedsReplaceEmptyTextOnly(doms: RoomKind -> Domain, id: string, es: seq<Event>, e: Event)
    requires ValidRun(doms, Start(), es) && Unexpired(doms, id, Start(), es)
    requires var w := Final(doms, Start(), es);
             Enabled(w, e) && Safe(id, w, e) && id in w.logs && id in Next(doms, w, e).logs &&
             (Next(doms, w, e).logs[id].base != w.logs[id].base ||
              Next(doms, w, e).logs[id].baseSeq != w.logs[id].baseSeq)
    ensures var w := Final(doms, Start(), es);
            var g := w.logs[id];
            && g.kind == Document && g.baseSeq <= |g.history|
            && (exists data :: doms(g.kind).Replay(g.base, g.history[g.baseSeq..]) == Ok(data) && EmptyText(data))
            && (id in w.store.sessions ==> EmptyText(w.store.sessions[id].snapshot.data))
            && e.Commit? && e.i in w.tasks && w.tasks[e.i].req.Join? && w.tasks[e.i].req.seed.Some?
            && Next(doms, w, e).logs[id].base == doms(Document).seed(w.tasks[e.i].req.seed)
  {
    RunReseedsEmpty(doms, id, Start(), es);
    ReseedingStep(doms, id, Final(doms, Start(), es), e);
  }

  lemma ReseedingStep(doms: RoomKind -> Domain, id: string, w: World, e: Event)
    requires Inv(doms, id, w) && ReseedsEmpty(doms, w, id) && Enabled(w, e) && Safe(id, w, e)
    requires id in w.logs && id in Next(doms, w, e).logs
    requires Next(doms, w, e).logs[id].base != w.logs[id].base ||
             Next(doms, w, e).logs[id].baseSeq != w.logs[id].baseSeq
    ensures var g := w.logs[id];
            && g.kind == Document && g.baseSeq <= |g.history|
            && (exists data :: doms(g.kind).Replay(g.base, g.history[g.baseSeq..]) == Ok(data) && EmptyText(data))
            && (id in w.store.sessions ==> EmptyText(w.store.sessions[id].snapshot.data))
            && e.Commit? && e.i in w.tasks && w.tasks[e.i].req.Join? && w.tasks[e.i].req.seed.Some?
            && Next(doms, w, e).logs[id].base == doms(Document).seed(w.tasks[e.i].req.seed)
  {
    PruneKeepsStoreOk(doms, id, w, e.now);
    ReseedingCommit(doms, id, w, e.i, Pruned(w.store, e.now), e.now);
    assert LogData(doms, w.logs[id]) == Ok(LogData(doms, w.logs[id]).value);
  }

  lemma ReseedingCommit(doms: RoomKind -> Domain, id: string, w: World, i: nat, st: State, now: nat)
    requires Inv(doms, id, w) && ReseedsEmpty(doms, w, id) && StoreOk(doms, id, w.(store := st))
    requires i in w.tasks && w.tasks[i].phase.Holding? && (w.tasks[i].phase.session.id == id ==> SafeOn(w, i, st))
    requires id in w.logs && id in CommitOn(w, i, st, now).logs
    requires CommitOn(w, i, st, now).logs[id].base != w.logs[id].base ||
             CommitOn(w, i, st, now).logs[id].baseSeq != w.logs[id].baseSeq
    ensures var g := w.logs[id];
            && g.kind == Document && g.baseSeq <= |g.history|
            && LogData(doms, g).Ok? && EmptyText(LogData(doms, g).value)
            && w.tasks[i].req.Join? && w.tasks[i].req.seed.Some?
            && CommitOn(w, i, st, now).logs[id].base == doms(Document).seed(w.tasks[i].req.seed)
  {
    CommitCases(w, i, st, now);
    HolderIsOk(doms, id, w, i);
    AcceptedIsCurrent(doms, id, w, i, st);
  }

  // ----- exactly when a commit is safe ---------------------------------------------------------

  /** The invariant survives a commit if and only if the held session has not expired unseen: the
      compare-and-swap accepts any version for a session that is gone from memory. */
  lemma CommitSafeIff(doms: RoomKind -> Domain, w: World, i: nat, now: nat)
    requires Enabled(w, Commit(i, now)) && Inv(doms, w.tasks[i].phase.session.id, w)
    ensures Inv(doms, w.tasks[i].phase.session.id, Next(doms, w, Commit(i, now))) <==>
            SafeOn(w, i, Pruned(w.store, now))
  {
    var s := w.tasks[i].phase.session;
    if SafeOn(w, i, Pruned(w.store, now)) {
      StepKeepsInv(doms, s.id, w, Commit(i, now));
    } else {
      var w' := Next(doms, w, Commit(i, now));
      assert HeldOk(doms, s.id, w.logs, w.issued, i, s, w.tasks[i].phase.change);
      assert w'.store.sessions[s.id].version == s.version + 1 < w'.logs[s.id].version;
      assert !Agrees(doms, w'.store.sessions[s.id], w'.logs[s.id]);
    }
  }

  /** Numbering and ring are those of the history. */
  ghost predicate NumbersAgree(s: Session, g: Log) {
    NumberedFrom(g.history, 1) && s.nextSeq == |g.history| + 1 && s.ops == g.history[Floor(g.history)..]
  }

  /** Everything but the version counter is what the log says. */
  ghost predicate ContentAgrees(doms: RoomKind -> Domain, s: Session, g: Log) {
    Agrees(doms, s.(version := g.version), g)
  }

  /** Made now, the held change would give the snapshot that is held. */
  ghost predicate StillFits(doms: RoomKind -> Domain, g: Log, s: Session, c: Change)
    requires g.baseSeq <= |g.history|
  {
    var data := doms(g.kind).Replay(g.base, g.history[g.baseSeq..]);
    match c
    case Create => true
    case Reseed => true
    case Touch =>
      data == Ok(s.snapshot.data) &&
      s.snapshot.snapshotSeq == if g.baseSeq < |g.history| then Floor(g.history) else 0
    case Append(op) => data.Ok? && doms(g.kind).ApplyUnnumbered(data.value, op) == Ok(s.snapshot.data)
  }

  lemma ExtendedNumbers(logs: map<string, Log>, s: Session, c: Change, i: nat)
    requires s.id in logs && LogOk(logs[s.id]) && !c.Create? && Remembers(s, c, logs[s.id].history)
    ensures NumbersAgree(s, Extended(logs, s, c, i)) <==> SeenLength(s, c) == |logs[s.id].history|
  {
    var h := logs[s.id].history;
    assert h[..|h|] == h;
  }

  lemma ExtendedContent(doms: RoomKind -> Domain, logs: map<string, Log>, s: Session, c: Change, i: nat)
    requires s.id in logs && LogOk(logs[s.id]) && !c.Create? && Remembers(s, c, logs[s.id].history)
    requires s.kind == logs[s.id].kind && s.fileId == logs[s.id].fileId
    ensures ContentAgrees(doms, s, Extended(logs, s, c, i)) <==>
            SeenLength(s, c) == |logs[s.id].history| && StillFits(doms, logs[s.id], s, c)
  {
    ExtendedNumbers(logs, s, c, i);
    var g, g' := logs[s.id], Extended(logs, s, c, i);
    var dom, h := doms(g.kind), g.history;
    if SeenLength(s, c) == |h| {
      assert h[..|h|] == h;
      match c
      case Append(op) =>
        assert g'.history[g.baseSeq..] == h[g.baseSeq..] + [op];
        ReplayConcat(dom, g.base, h[g.baseSeq..], [op]);
        if dom.Replay(g.base, h[g.baseSeq..]).Ok? {
          ReplayOne(dom, dom.Replay(g.base, h[g.baseSeq..]).value, op);
        }
      case Reseed => assert h[|h|..] == [];
      case Touch =>
    }
  }

  /** What an accepted commit stores matches the committed history, safe or not: ops and numbering
      match if and only if no op was committed since the session was read, and the whole content
      matches if and only if, besides, the change still leads to the snapshot that was prepared. */
  lemma CommitContentIff(doms: RoomKind -> Domain, w: World, i: nat, now: nat)
    requires Enabled(w, Commit(i, now)) && Accepts(w, i, Pruned(w.store, now))
    requires Inv(doms, w.tasks[i].phase.session.id, w) && AllRemember(w, w.tasks[i].phase.session.id)
    ensures var s, c := w.tasks[i].phase.session, w.tasks[i].phase.change;
            var w' := Next(doms, w, Commit(i, now));
            && s.id in w'.store.sessions && s.id in w'.logs && (!c.Create? ==> s.id in w.logs)
            && (NumbersAgree(w'.store.sessions[s.id], w'.logs[s.id]) <==>
                  c.Create? || SeenLength(s, c) == |w.logs[s.id].history|)
            && (ContentAgrees(doms, w'.store.sessions[s.id], w'.logs[s.id]) <==>
                  c.Create? || (SeenLength(s, c) == |w.logs[s.id].history| && StillFits(doms, w.logs[s.id], s, c)))
  {
    CommitCases(w, i, Pruned(w.store, now), now);
    NewLogContent(doms, w, i, now);
  }

  lemma NewLogContent(doms: RoomKind -> Domain, w: World, i: nat, now: nat)
    requires i in w.tasks && w.tasks[i].phase.Holding?
    requires Inv(doms, w.tasks[i].phase.session.id, w) && AllRemember(w, w.tasks[i].phase.session.id)
    ensures var s, c := w.tasks[i].phase.session, w.tasks[i].phase.change;
            var saved := Bumped(s, now);
            && (!c.Create? ==> s.id in w.logs)
            && (NumbersAgree(saved, NewLog(w, i)) <==> c.Create? || SeenLength(s, c) == |w.logs[s.id].history|)
            && (ContentAgrees(doms, saved, NewLog(w, i)) <==>
                  c.Create? || (SeenLength(s, c) == |w.logs[s.id].history| && StillFits(doms, w.logs[s.id], s, c)))
  {
    var s, c := w.tasks[i].phase.session, w.tasks[i].phase.change;
    HolderIsOk(doms, s.id, w, i);
    if c.Create? {
      CurrentAgrees(doms, s.id, w, i, now);
    } else {
      KeptContent(doms, w.logs, s, c, i, now);
    }
  }

  lemma KeptContent(doms: RoomKind -> Domain, logs: map<string, Log>, s: Session, c: Change, i: nat, now: nat)
    requires s.id in logs && LogOk(logs[s.id]) && !c.Create? && Remembers(s, c, logs[s.id].history)
    requires SameFile(s, logs[s.id])
    ensures var saved, g := Bumped(s, now), Extended(logs, s, c, i);
            && (NumbersAgree(saved, g) <==> SeenLength(s, c) == |logs[s.id].history|)
            && (ContentAgrees(doms, saved, g) <==>
                  SeenLength(s, c) == |logs[s.id].history| && StillFits(doms, logs[s.id], s, c))
  {
    var saved := Bumped(s, now);
    assert Remembers(saved, c, logs[s.id].history);
    assert Extended(logs, saved, c, i) == Extended(logs, s, c, i);
    ExtendedNumbers(logs, saved, c, i);
    ExtendedContent(doms, logs, saved, c, i);
  }

  lemma CurrentFits(doms: RoomKind -> Domain, w: World, i: nat)
    requires i in w.tasks && w.tasks[i].phase.Holding?
    requires Inv(doms, w.tasks[i].phase.session.id, w) && AllRemember(w, w.tasks[i].phase.session.id)
    requires var s, c := w.tasks[i].phase.session, w.tasks[i].phase.change;
             !c.Create? && s.id in w.logs && s.version == w.logs[s.id].version
    ensures StillFits(doms, w.logs[w.tasks[i].phase.session.id], w.tasks[i].phase.session, w.tasks[i].phase.change)
  {
    var s, c := w.tasks[i].phase.session, w.tasks[i].phase.change;
    HolderIsOk(doms, w.tasks[i].phase.session.id, w, i);
    assert Agrees(doms, s.(version := s.version + 1), Extended(w.logs, s, c, i));
    ExtendedContent(doms, w.logs, s, c, i);
  }

  /** In particular a commit of a session that expired unseen does no harm when neither an op nor a
      re-seed was committed since it was read. */
  lemma ExpiryWithoutWritesIsHarmless(doms: RoomKind -> Domain, w: World, es: seq<Event>, i: nat, now: nat)
    requires i in w.tasks && w.tasks[i].phase.Holding?
    requires Inv(doms, w.tasks[i].phase.session.id, w) && AllRemember(w, w.tasks[i].phase.session.id)
    requires ValidRun(doms, w, es) && Unexpired(doms, w.tasks[i].phase.session.id, w, es)
    requires var s, c := w.tasks[i].phase.session, w.tasks[i].phase.change;
             !c.Create? && s.id in w.logs && s.version == w.logs[s.id].version
    requires var w1, id := Final(doms, w, es), w.tasks[i].phase.session.id;
             i in w1.tasks && w1.tasks[i] == w.tasks[i] && Accepts(w1, i, Pruned(w1.store, now)) &&
             id in w1.logs && w1.logs[id].history == w.logs[id].history &&
             w1.logs[id].base == w.logs[id].base && w1.logs[id].baseSeq == w.logs[id].baseSeq
    ensures var w1, id := Final(doms, w, es), w.tasks[i].phase.session.id;
            var w2 := Next(doms, w1, Commit(i, now));
            id in w2.store.sessions && id in w2.logs && ContentAgrees(doms, w2.store.sessions[id], w2.logs[id])
  {
    var w1, s, c := Final(doms, w, es), w.tasks[i].phase.session, w.tasks[i].phase.change;
    RunRemembers(doms, s.id, w, es);
    HolderIsOk(doms, w.tasks[i].phase.session.id, w, i);
    CurrentRemembers(doms, w.logs, w.issued, i, s, c);
    CurrentFits(doms, w, i);
    CommitContentIff(doms, w1, i, now);
  }

  /** Without that condition an update is lost: two submits that read the same session both succeed,
      with the same sequence number, when the session idles past its time to live in between. */
  lemma ExpiryLosesUpdate(doms: RoomKind -> Domain, w: World, i: nat, j: nat, t1: nat, t2: nat)
    requires Enabled(w, Commit(i, t1)) && Enabled(w, Commit(j, t2)) && i != j
    requires Inv(doms, w.tasks[i].phase.session.id, w)
    requires var p, q := w.tasks[i].phase, w.tasks[j].phase;
             p.session.id == q.session.id && p.session.version == q.session.version &&
             p.change.Append? && q.change.Append?
    requires w.tasks[i].phase.session.id in Pruned(w.store, t1).sessions
    requires w.tasks[i].phase.session.version == w.logs[w.tasks[i].phase.session.id].version
    requires t2 - t1 > SESSION_IDLE_TTL_SECS
    ensures var w1 := CommitOn(w, i, Pruned(w.store, t1), t1);
            w1.tasks[j] == w.tasks[j] &&
            var w2 := CommitOn(w1, j, Pruned(w1.store, t2), t2);
            var id := w.tasks[i].phase.session.id;
            w2.tasks[i].phase.Succeeded? && w2.tasks[j].phase.Succeeded? &&
            w.tasks[i].phase.change.op.seqNo == w.tasks[j].phase.change.op.seqNo &&
            w2.store.sessions[id].nextSeq == w1.store.sessions[id].nextSeq
  {
    var s, id := w.tasks[i].phase.session, w.tasks[i].phase.session.id;
    assert id in w.logs;
    HeldAppendNumber(doms, w, i);
    HeldAppendNumber(doms, w, j);
    var w1 := CommitOn(w, i, Pruned(w.store, t1), t1);
    StoredVersion(doms, w, id, t1);
    assert w1.store.sessions[id] == Bumped(s, t1);
    assert id !in Pruned(w1.store, t2).sessions;
    assert w1.tasks[j] == w.tasks[j];
  }

  lemma StoredVersion(doms: RoomKind -> Domain, w: World, id: string, now: nat)
    requires Inv(doms, id, w) && id in Pruned(w.store, now).sessions
    ensures id in w.logs && Pruned(w.store, now).sessions[id].version == w.logs[id].version
  {
    assert Agrees(doms, w.store.sessions[id], w.logs[id]);
  }

  /** An up-to-date held submit carries the next number of its session's history. */
  lemma HeldAppendNumber(doms: RoomKind -> Domain, w: World, i: nat)
    requires i in w.tasks && w.tasks[i].phase.Holding? && w.tasks[i].phase.change.Append?
    requires Inv(doms, w.tasks[i].phase.session.id, w)
    requires w.tasks[i].phase.session.id in w.logs ==>
               w.tasks[i].phase.session.version == w.logs[w.tasks[i].phase.session.id].version
    ensures var s := w.tasks[i].phase.session;
            s.id in w.logs && w.tasks[i].phase.change.op.seqNo == |w.logs[s.id].history| + 1 &&
            s.nextSeq == |w.logs[s.id].history| + 2
  {
    var s, c := w.tasks[i].phase.session, w.tasks[i].phase.change;
    assert HeldOk(doms, s.id, w.logs, w.issued, i, s, c);
    var g := Extended(w.logs, s, c, i);
    assert Agrees(doms, s.(version := s.version + 1), g);
    assert g.history[|g.history| - 1] == c.op;
  }

  // ----- the ring ------------------------------------------------------------------------------

  /** The retained ops of any stored session are contiguous, end at `nextSeq - 1` and number at most
      1024; once an op has been committed since the last re-seed, the snapshot's sequence number is
      exactly the number before the first retained op. */
  lemma RingInvariant(doms: RoomKind -> Domain, w: World, id: string)
    requires Inv(doms, id, w) && id in w.store.sessions
    ensures var s := w.store.sessions[id];
            && |s.ops| == (if s.nextSeq > 1024 then 1024 else s.nextSeq - 1)
            && NumberedFrom(s.ops, s.nextSeq - |s.ops|)
            && id in w.logs
            && (w.logs[id].baseSeq < s.LatestSeq() ==>
                  s.ops != [] && s.snapshot.snapshotSeq == s.ops[0].seqNo - 1)
  {
    var s, g := w.store.sessions[id], w.logs[id];
    assert Agrees(doms, s, g);
    NumberedSuffix(g.history, Floor(g.history));
  }

  /** `ops_after(b)` is the whole committed history after `b` if and only if `b` is not below the
      retained floor; after a submit that floor is the snapshot's own sequence number. */
  lemma OpsAfterExactIff(doms: RoomKind -> Domain, w: World, id: string, b: nat)
    requires Inv(doms, id, w) && id in w.store.sessions
    ensures var s := w.store.sessions[id];
            id in w.logs &&
            var h := w.logs[id].history;
            (s.OpsAfter(b) == h[Clamp(b, |h|)..] <==> b >= Floor(h)) &&
            (w.logs[id].baseSeq < |h| ==> Floor(h) == s.snapshot.snapshotSeq)
  {
    var s, g := w.store.sessions[id], w.logs[id];
    assert Agrees(doms, s, g);
    var h, f := g.history, Floor(g.history);
    RingSuffix(h, b);
    assert s.OpsAfter(b) == After(h[f..], b);
  }

  lemma RingSuffix(h: seq<Op>, b: nat)
    requires NumberedFrom(h, 1)
    ensures After(h[Floor(h)..], b) == h[Clamp(b, |h|)..] <==> b >= Floor(h)
  {
    var f := Floor(h);
    NumberedSuffix(h, f);
    AfterSuffix(h[f..], f + 1, b);
    var k := Clamp(b - f, |h| - f);
    DropDrop(h, f, k);
    if b >= f {
      assert f + k == Clamp(b, |h|);
    } else {
      assert |h[f..]| < |h[Clamp(b, |h|)..]|;
    }
  }

  lemma DropDrop<T>(s: seq<T>, m: nat, n: nat)
    requires m + n <= |s|
    ensures s[m..][n..] == s[m + n..] && |s[m..]| == |s| - m
  {
  }

  // ----- replicas ------------------------------------------------------------------------------

  /** A client that holds the server's data as of some point of a run, and whose last sequence number
      is still retained at a later point with no re-seed in between, reaches the server's data then by
      applying `ops_after` in order; with a plugin that ignores sequence numbers it may apply the ops
      as they arrive. */
  lemma ReplicaConverges(doms: RoomKind -> Domain, w: World, es: seq<Event>, id: string)
    requires Inv(doms, id, w) && ValidRun(doms, w, es) && Unexpired(doms, id, w, es)
    requires var w' := Final(doms, w, es);
             id in w.store.sessions && id in w'.store.sessions && id in w.logs && id in w'.logs &&
             w'.logs[id].base == w.logs[id].base && w'.logs[id].baseSeq == w.logs[id].baseSeq &&
             w.store.sessions[id].LatestSeq() >= Floor(w'.logs[id].history)
    ensures var s, s' := w.store.sessions[id], Final(doms, w, es).store.sessions[id];
            var dom := doms(s.kind);
            dom.Replay(s.snapshot.data, s'.OpsAfter(s.LatestSeq())) == Ok(s'.snapshot.data) &&
            (dom.SeqBlind() ==>
               dom.ReplayNumbered(s.snapshot.data, s'.OpsAfter(s.LatestSeq())) == Ok(s'.snapshot.data))
  {
    var w' := Final(doms, w, es);
    RunKeepsInv(doms, id, w, es);
    CommittedOpsStay(doms, id, w, es);
    CatchUp(doms, w.store.sessions[id], w.logs[id], w'.store.sessions[id], w'.logs[id]);
  }

  /** Two states of one session, the later one's log extending the earlier one's. */
  lemma CatchUp(doms: RoomKind -> Domain, s: Session, g: Log, s': Session, g': Log)
    requires Agrees(doms, s, g) && Agrees(doms, s', g')
    requires g.history <= g'.history && g'.kind == g.kind && g'.base == g.base && g'.baseSeq == g.baseSeq
    requires s.LatestSeq() >= Floor(g'.history)
    ensures var dom, missed := doms(s.kind), s'.OpsAfter(s.LatestSeq());
            dom.Replay(s.snapshot.data, missed) == Ok(s'.snapshot.data) &&
            (dom.SeqBlind() ==> dom.ReplayNumbered(s.snapshot.data, missed) == Ok(s'.snapshot.data))
  {
    var dom, b := doms(s.kind), s.LatestSeq();
    RingSuffix(g'.history, b);
    var tail := g'.history[b..];
    assert s'.OpsAfter(b) == tail;
    assert g'.history[g.baseSeq..] == g.history[g.baseSeq..] + tail;
    ReplayConcat(dom, g.base, g.history[g.baseSeq..], tail);
    if dom.SeqBlind() {
      SeqBlindReplay(dom, s.snapshot.data, tail);
    }
  }

  /** Replaying ops as they arrive agrees with the server on all data and histories exactly for plugins
      that ignore the sequence number, because the server applies an op before numbering it. */
  lemma ReplaysAgreeIffSeqBlind(dom: Domain)
    ensures (forall data, ops :: dom.ReplayNumbered(data, ops) == dom.Replay(data, ops)) <==> dom.SeqBlind()
  {
    if dom.SeqBlind() {
      forall data, ops ensures dom.ReplayNumbered(data, ops) == dom.Replay(data, ops) {
        SeqBlindReplay(dom, data, ops);
      }
    } else {
      var data, op: Op :| dom.apply(data, op) != dom.apply(data, op.(seqNo := 0));
      ReplayOne(dom, data, op);
      assert dom.ReplayNumbered(data, [op]) != dom.Replay(data, [op]);
    }
  }
}
