/** What one attempt of `join`, `heartbeat` and `submit_op` computes from the session it read. */
module CollabEngine {
  import opened Wrappers
  import opened CollabTypes
  import opened CollabStore

  function NewSession(id: string, kind: RoomKind, fileId: string, data: Json, now: nat): Session {
    Session(id, kind, fileId, now, now, map[], [], 1, Snapshot(0, data), 0)
  }

  /** The snapshot's text is still the empty string. */
  predicate TextEmpty(data: Json) {
    data.JObj? && "text" in data.fields && data.fields["text"] == JStr("")
  }

  predicate Reseeds(s: Session, seed: Option<Json>) {
    TextEmpty(s.snapshot.data) && seed.Some? && s.kind == Document
  }

  function Joined(dom: Domain, s: Session, userId: string, displayName: string, seed: Option<Json>, now: nat): Session
  {
    var s1 := if Reseeds(s, seed) then s.(snapshot := Snapshot(0, dom.seed(seed))) else s;
    s1.(participants := s1.participants[userId := Participant(userId, displayName, now, dom.presenceDefaults)],
        lastActiveAt := now)
  }

  function Beaten(s: Session, userId: string, presence: Option<Json>, now: nat): Result<Session, CollabError> {
    if userId !in s.participants then Err(NotParticipant)
    else
      var p := s.participants[userId].(lastSeen := now);
      if presence.Some? && presence.value.JObj? && !p.presence.JObj? then Err(PresenceNotObject)
      else
        var merged := if presence.Some? && presence.value.JObj?
                      then p.(presence := JObj(p.presence.fields + presence.value.fields)) else p;
        Ok(s.(participants := s.participants[userId := merged], lastActiveAt := now))
  }

  /** Dropping from the front until at most `DEFAULT_MAX_OPS` ops are left, raising the snapshot's
      sequence number over every dropped op. */
  function Compacted(ops: seq<Op>, snapshotSeq: nat): (seq<Op>, nat) {
    if |ops| <= DEFAULT_MAX_OPS then (ops, snapshotSeq)
    else Compacted(ops[1..], Max(snapshotSeq, ops[0].seqNo))
  }

  function Max(a: nat, b: nat): nat {
    if a < b then b else a
  }

  /** Keeps the snapshot's sequence number trailing the retained log start. */
  function Trailing(ops: seq<Op>, snapshotSeq: nat): nat {
    if ops != [] && snapshotSeq + 1 < ops[0].seqNo then ops[0].seqNo - 1 else snapshotSeq
  }

  method CompactRing(log: seq<Op>, snapshotSeq: nat) returns (ops: seq<Op>, floor: nat)
    ensures ops == Compacted(log, snapshotSeq).0
    ensures floor == Trailing(ops, Compacted(log, snapshotSeq).1)
  {
    ops, floor := log, snapshotSeq;
    while |ops| > DEFAULT_MAX_OPS
      invariant Compacted(ops, floor) == Compacted(log, snapshotSeq)
    {
      var dropped := ops[0];
      ops := ops[1..];
      floor := if floor < dropped.seqNo then dropped.seqNo else floor;
    }
    if |ops| > 0 {
      if floor + 1 < ops[0].seqNo {
        floor := ops[0].seqNo - 1;
      }
    }
  }

  /** A compacted ring that ends where the log ended, holds at most the cap, and has a snapshot
      sequence number just below it, whatever smaller number a re-seed had left there. */
  lemma {:induction false} CompactedRing(ops: seq<Op>, first: nat, snapshotSeq: nat)
    requires ops != [] && NumberedFrom(ops, first) && snapshotSeq < first
    ensures var drop := if |ops| > DEFAULT_MAX_OPS then |ops| - DEFAULT_MAX_OPS else 0;
            var (kept, floor) := Compacted(ops, snapshotSeq);
            kept == ops[drop..] && NumberedFrom(kept, first + drop) && Trailing(kept, floor) == first + drop - 1
    decreases |ops|
  {
    if |ops| > DEFAULT_MAX_OPS {
      NumberedTail(ops, first);
      assert ops[0].seqNo == first;
      CompactedRing(ops[1..], first + 1, Max(snapshotSeq, first));
      assert ops[1..][|ops| - 1 - DEFAULT_MAX_OPS..] == ops[|ops| - DEFAULT_MAX_OPS..];
    } else {
      assert ops[0..] == ops;
      assert ops[0].seqNo == first;
    }
  }

  datatype Draft = Draft(baseSeq: nat, opType: string, payload: Json, clientOpId: Option<string>)

  function PresenceAfter(dom: Domain, s: Session, userId: string, op: Op): map<string, Participant> {
    var locked := if s.kind == Document && userId in s.participants
                  then s.participants[userId := s.participants[userId].(
                    presence := dom.lockPresence(s.participants[userId].presence, op))]
                  else s.participants;
    map u | u in locked :: locked[u].(presence := dom.transformPresence(locked[u].presence, op))
  }

  /** The op before the plugin has seen it. */
  function Raw(userId: string, draft: Draft, opId: string, now: nat): Op {
    Op(opId, 0, userId, now, draft.baseSeq, draft.opType, draft.payload, draft.clientOpId)
  }

  /** One attempt of `submit_op`: the numbered op and the session to be saved. */
  function Submitted(dom: Domain, s: Session, userId: string, draft: Draft, opId: string, now: nat)
    : Result<(Op, Session), CollabError>
  {
    if userId !in s.participants then Err(NotParticipant)
    else if draft.baseSeq > s.LatestSeq() then Err(InvalidOp)
    else
      var raw := Raw(userId, draft, opId, now);
      match dom.transform(s.snapshot, s.OpsAfter(draft.baseSeq), raw, userId, s.participants)
      case Err(e) => Err(e)
      case Ok((opType, payload)) =>
        var op := raw.(opType := opType, payload := payload);
        match dom.ApplyUnnumbered(s.snapshot.data, op)
        case Err(e) => Err(e)
        case Ok(data) =>
          var present := PresenceAfter(dom, s, userId, op);
          var numbered := op.(seqNo := s.nextSeq);
          var (ops, floor) := Compacted(s.ops + [numbered], s.snapshot.snapshotSeq);
          Ok((numbered, s.(
            participants := present[userId := present[userId].(lastSeen := now)],
            ops := ops, nextSeq := s.nextSeq + 1,
            snapshot := Snapshot(Trailing(ops, floor), data),
            lastActiveAt := now)))
  }

  // ----- who takes part ------------------------------------------------------------------------

  /** A user who joined at `t` and was not heard of since may beat and submit for 90 seconds; after
      that the pruned session refuses both. */
  lemma JoinedForNinetySeconds(dom: Domain, s: Session, userId: string, name: string, seed: Option<Json>,
                               t: nat, now: nat, presence: Option<Json>, draft: Draft, opId: string)
    requires t <= now
    ensures var live := PrunedParticipants(Joined(dom, s, userId, name, seed, t), now);
            && (now - t <= PARTICIPANT_TTL_SECS <==> userId in live.participants)
            && (now - t <= PARTICIPANT_TTL_SECS <==> Beaten(live, userId, presence, now) != Err(NotParticipant))
            && (now - t > PARTICIPANT_TTL_SECS ==>
                  Submitted(dom, live, userId, draft, opId, now) == Err(NotParticipant))
  {
  }

  // ----- what a join does ----------------------------------------------------------------------

  /** A join replaces the snapshot if and only if the text is there and is the empty string, a seed is
      given and the room is a document; it adds or replaces its own participant and nothing else. */
  lemma JoinKeepsWrittenText(dom: Domain, s: Session, userId: string, name: string, seed: Option<Json>, now: nat)
    ensures var s', data := Joined(dom, s, userId, name, seed, now), s.snapshot.data;
            && s'.snapshot ==
                 (if data.JObj? && "text" in data.fields && data.fields["text"] == JStr("") &&
                     seed.Some? && s.kind == Document
                  then Snapshot(0, dom.seed(seed)) else s.snapshot)
            && s'.participants == s.participants[userId := Participant(userId, name, now, dom.presenceDefaults)]
            && s' == s.(snapshot := s'.snapshot, participants := s'.participants, lastActiveAt := now)
  {
  }

  // ----- what a submit answers -----------------------------------------------------------------

  /** A submit that is not refused outright answers what the plugin answers, which gets the retained ops
      with numbers above the client's base to rebase over. */
  lemma SubmitAnswers(dom: Domain, s: Session, userId: string, draft: Draft, opId: string, now: nat)
    requires s.nextSeq > 0
    ensures var raw := Op(opId, 0, userId, now, draft.baseSeq, draft.opType, draft.payload, draft.clientOpId);
            var rebased := dom.transform(s.snapshot, s.OpsAfter(draft.baseSeq), raw, userId, s.participants);
            var r := Submitted(dom, s, userId, draft, opId, now);
            if userId !in s.participants then r == Err(NotParticipant)
            else if draft.baseSeq >= s.nextSeq then r == Err(InvalidOp)
            else if rebased.Err? then r == Err(rebased.error)
            else
              var applied := dom.apply(s.snapshot.data, raw.(opType := rebased.value.0, payload := rebased.value.1));
              if applied.Err? then r == Err(applied.error)
              else
                r.Ok? && r.value.1.snapshot.data == applied.value &&
                r.value.0 == raw.(seqNo := s.nextSeq, opType := rebased.value.0, payload := rebased.value.1)
  {
  }

  /** A participant's submit is refused whatever the plugin says if and only if it is ahead. */
  lemma AheadIff(s: Session, userId: string, draft: Draft, opId: string, now: nat)
    requires s.nextSeq > 0 && userId in s.participants
    ensures (forall dom :: Submitted(dom, s, userId, draft, opId, now) == Err(InvalidOp)) <==>
            draft.baseSeq >= s.nextSeq
  {
    if draft.baseSeq < s.nextSeq {
      var willing := Domain(
        _ => JNull, (_, _, _, _, _) => Ok(("", JNull)), (data, _) => Ok(data), (p, _) => p, (p, _) => p, JNull);
      SubmitAnswers(willing, s, userId, draft, opId, now);
      assert Submitted(willing, s, userId, draft, opId, now).Ok?;
    }
  }

  /** A beat is refused exactly of those who do not take part, and fails exactly on a presence that
      cannot be merged. */
  lemma BeatAnswers(s: Session, userId: string, presence: Option<Json>, now: nat)
    ensures Beaten(s, userId, presence, now) == Err(NotParticipant) <==> userId !in s.participants
    ensures Beaten(s, userId, presence, now).Ok? <==>
            userId in s.participants &&
            (presence.Some? && presence.value.JObj? ==> s.participants[userId].presence.JObj?)
  {
  }

  /** A beat renews its own participant, merges the given presence over the old one key by key, and
      leaves the other participants, the ops and the snapshot alone. */
  lemma BeatTouchesOwnPresence(s: Session, userId: string, presence: Option<Json>, now: nat, other: string)
    requires Beaten(s, userId, presence, now).Ok?
    ensures var s' := Beaten(s, userId, presence, now).value;
            && s'.participants.Keys == s.participants.Keys && s'.ops == s.ops && s'.nextSeq == s.nextSeq
            && s'.snapshot == s.snapshot && s'.version == s.version
            && s'.participants[userId].lastSeen == now
            && (other in s.participants && other != userId ==> s'.participants[other] == s.participants[other])
            && (presence.Some? && presence.value.JObj? ==>
                  forall k :: k in presence.value.fields ==>
                    s'.participants[userId].presence.JObj? && k in s'.participants[userId].presence.fields &&
                    s'.participants[userId].presence.fields[k] == presence.value.fields[k])
            && (s.participants[userId].presence.JObj? ==>
                  s'.participants[userId].presence.JObj? &&
                  forall k :: k in s.participants[userId].presence.fields &&
                              !(presence.Some? && presence.value.JObj? && k in presence.value.fields) ==>
                    k in s'.participants[userId].presence.fields &&
                    s'.participants[userId].presence.fields[k] == s.participants[userId].presence.fields[k])
  {
  }

  /** A submit neither adds nor drops participants and counts as a sign of life of its author only. */
  lemma SubmitRenewsAuthor(dom: Domain, s: Session, userId: string, draft: Draft, opId: string, now: nat, other: string)
    requires Submitted(dom, s, userId, draft, opId, now).Ok? && other in s.participants
    ensures var (op, s') := Submitted(dom, s, userId, draft, opId, now).value;
            && s'.participants.Keys == s.participants.Keys && op.userId == userId
            && s'.participants[userId].lastSeen == now
            && s'.participants[userId].presence ==
                 dom.transformPresence(
                   if s.kind == Document then dom.lockPresence(s.participants[userId].presence, op.(seqNo := 0))
                   else s.participants[userId].presence, op.(seqNo := 0))
            && (other != userId ==>
                  s'.participants[other].lastSeen == s.participants[other].lastSeen &&
                  s'.participants[other].presence ==
                    dom.transformPresence(s.participants[other].presence, op.(seqNo := 0)))
  {
    var (op, s') := Submitted(dom, s, userId, draft, opId, now).value;
    assert op.(seqNo := 0).(seqNo := 0) == op.(seqNo := 0);
  }
}
