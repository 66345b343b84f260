/** Sessions, ops and snapshots of the collaboration engine, and the plugin interface of a room's domain. */
module CollabTypes {
  import opened Wrappers

  datatype RoomKind = Document | Spreadsheet

  datatype Json =
    | JNull
    | JBool(b: bool)
    | JNum(n: real)
    | JStr(s: string)
    | JArr(items: seq<Json>)
    | JObj(fields: map<string, Json>)

  datatype Participant = Participant(userId: string, displayName: string, lastSeen: nat, presence: Json)

  datatype Op = Op(
    id: string, seqNo: nat, userId: string, ts: nat, baseSeq: nat,
    opType: string, payload: Json, clientOpId: Option<string>)

  datatype Snapshot = Snapshot(snapshotSeq: nat, data: Json)

  datatype CollabError =
    | NotFound | NotParticipant | Locked | TextMismatch | InvalidOp | SyncRequired | Conflict | Storage
    | PresenceNotObject  // the engine panics here instead of returning an error

  const DEFAULT_MAX_OPS: nat := 1024
  const SESSION_IDLE_TTL_SECS: nat := 3600
  const PARTICIPANT_TTL_SECS: nat := 90
  const CAS_RETRIES: nat := 8

  datatype Session = Session(
    id: string, kind: RoomKind, fileId: string, createdAt: nat, lastActiveAt: nat,
    participants: map<string, Participant>, ops: seq<Op>, nextSeq: nat, snapshot: Snapshot, version: nat)
  {
    function LatestSeq(): nat {
      if nextSeq == 0 then 0 else nextSeq - 1
    }

    function OpsAfter(afterSeq: nat): seq<Op> {
      After(ops, afterSeq)
    }
  }

  function After(ops: seq<Op>, afterSeq: nat): seq<Op> {
    if ops == [] then []
    else (if ops[0].seqNo > afterSeq then [ops[0]] else []) + After(ops[1..], afterSeq)
  }

  /** A room's plugin. Everything in it is arbitrary: deterministic functions that may fail.
      `transform` gives a new op type and payload; `apply` and `seed` give new snapshot data only
      (neither plugin of the repository sets a `snapshot_seq` other than 0 or reads it). */
  datatype Domain = Domain(
    seed: Option<Json> -> Json,
    transform: (Snapshot, seq<Op>, Op, string, map<string, Participant>) -> Result<(string, Json), CollabError>,
    apply: (Json, Op) -> Result<Json, CollabError>,
    lockPresence: (Json, Op) -> Json,
    transformPresence: (Json, Op) -> Json,
    presenceDefaults: Json)
  {
    /** The engine applies an op before it numbers it, so the plugin sees sequence number 0. */
    function ApplyUnnumbered(data: Json, op: Op): Result<Json, CollabError> {
      apply(data, op.(seqNo := 0))
    }

    /** The server's own fold of a piece of history over some data. */
    ghost function Replay(data: Json, ops: seq<Op>): Result<Json, CollabError>
      decreases |ops|
    {
      if ops == [] then Ok(data)
      else
        match ApplyUnnumbered(data, ops[0])
        case Ok(next) => Replay(next, ops[1..])
        case Err(e) => Err(e)
    }

    /** A replica's fold: it receives ops with their sequence numbers already set. */
    ghost function ReplayNumbered(data: Json, ops: seq<Op>): Result<Json, CollabError>
      decreases |ops|
    {
      if ops == [] then Ok(data)
      else
        match apply(data, ops[0])
        case Ok(next) => ReplayNumbered(next, ops[1..])
        case Err(e) => Err(e)
    }

    /** The plugin ignores an op's sequence number. */
    ghost predicate SeqBlind() {
      forall data, op: Op :: apply(data, op) == apply(data, op.(seqNo := 0))
    }
  }

  /** Numbered `first`, `first + 1`, ... without gap or repeat. */
  ghost predicate NumberedFrom(ops: seq<Op>, first: nat) {
    forall k :: 0 <= k < |ops| ==> ops[k].seqNo == first + k
  }

  lemma {:induction false} AfterSuffix(ops: seq<Op>, first: nat, b: nat)
    requires NumberedFrom(ops, first)
    ensures After(ops, b) == ops[Clamp(b + 1 - first, |ops|)..]
  {
    if ops != [] {
      NumberedTail(ops, first);
      AfterSuffix(ops[1..], first + 1, b);
      var k := Clamp(b + 1 - first, |ops|);
      assert ops[0].seqNo == first;
      if k == 0 {
        assert ops[1..][0..] == ops[1..];
        assert ops == [ops[0]] + ops[1..];
      } else {
        assert ops[1..][k - 1..] == ops[k..];
      }
    }
  }

  lemma NumberedTail(ops: seq<Op>, first: nat)
    requires ops != [] && NumberedFrom(ops, first)
    ensures NumberedFrom(ops[1..], first + 1)
  {
    forall k | 0 <= k < |ops[1..]| ensures ops[1..][k].seqNo == first + 1 + k {
      assert ops[1..][k] == ops[k + 1];
    }
  }

  function Clamp(x: int, top: nat): (r: nat) {
    if x < 0 then 0 else if x > top then top else x
  }

  lemma {:induction false} ReplayConcat(dom: Domain, data: Json, xs: seq<Op>, ys: seq<Op>)
    ensures dom.Replay(data, xs + ys) ==
            match dom.Replay(data, xs)
            case Ok(mid) => dom.Replay(mid, ys)
            case Err(e) => Err(e)
    decreases |xs|
  {
    if xs == [] {
      assert xs + ys == ys;
    } else {
      assert (xs + ys)[1..] == xs[1..] + ys;
      match dom.ApplyUnnumbered(data, xs[0])
      case Ok(next) => ReplayConcat(dom, next, xs[1..], ys);
      case Err(e) =>
    }
  }

  lemma ReplayOne(dom: Domain, data: Json, op: Op)
    ensures dom.Replay(data, [op]) == dom.ApplyUnnumbered(data, op)
    ensures dom.ReplayNumbered(data, [op]) == dom.apply(data, op)
  {
    assert [op][1..] == [];
    match dom.ApplyUnnumbered(data, op) {
      case Ok(next) => assert dom.Replay(next, []) == Ok(next);
      case Err(_) =>
    }
    match dom.apply(data, op) {
      case Ok(next) => assert dom.ReplayNumbered(next, []) == Ok(next);
      case Err(_) =>
    }
  }

  lemma {:induction false} SeqBlindReplay(dom: Domain, data: Json, ops: seq<Op>)
    requires dom.SeqBlind()
    ensures dom.ReplayNumbered(data, ops) == dom.Replay(data, ops)
    decreases |ops|
  {
    if ops != [] {
      assert dom.apply(data, ops[0]) == dom.ApplyUnnumbered(data, ops[0]);
      match dom.apply(data, ops[0])
      case Ok(next) => SeqBlindReplay(dom, next, ops[1..]);
      case Err(e) =>
    }
  }
}
