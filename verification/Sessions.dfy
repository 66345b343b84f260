/** Revocation of sign-in sessions: the per-user epoch, the revoked list, and the tokens they gate. */
module Sessions {
  import opened Wrappers

  datatype Login = Login(id: string, at: int)

  /** The persisted state of one user; `logins` in order of creation. */
  datatype State = State(epoch: nat, revoked: seq<string>, minIat: Option<int>, logins: seq<Login>)

  datatype Token = Token(sid: Option<string>, ver: nat, iat: int)

  /** `is_token_session_valid`. */
  predicate Valid(st: State, t: Token) {
    EpochGate(st, t) && ListGate(st, t)
  }

  predicate EpochGate(st: State, t: Token) {
    t.ver >= st.epoch
  }

  /** The revoked list, or the floor for tokens without a session id. */
  predicate ListGate(st: State, t: Token) {
    if t.sid.Some? then t.sid.value !in st.revoked else st.minIat.Some? ==> t.iat >= st.minIat.value
  }

  const RECENT: nat := 25

  /** The newest logins first, at most 25 of them. */
  function Recent(logins: seq<Login>, limit: nat): seq<Login> {
    if logins == [] || limit == 0 then []
    else [logins[|logins| - 1]] + Recent(logins[..|logins| - 1], limit - 1)
  }

  ghost predicate DistinctIds(rows: seq<Login>) {
    forall i, j :: 0 <= i < j < |rows| ==> rows[i].id != rows[j].id
  }

  predicate HasId(rows: seq<Login>, id: string) {
    exists k :: 0 <= k < |rows| && rows[k].id == id
  }

  /** The first row whose id is not revoked, or the number of rows. */
  function FirstUnrevoked(rows: seq<Login>, revoked: seq<string>): (k: nat)
    ensures k <= |rows| && (k < |rows| ==> rows[k].id !in revoked)
    ensures forall m :: 0 <= m < k ==> rows[m].id in revoked
  {
    if rows == [] then 0
    else if rows[0].id !in revoked then 0
    else
      var rest := FirstUnrevoked(rows[1..], revoked);
      assert forall m :: 0 < m < |rows| ==> rows[m] == rows[1..][m - 1];
      1 + rest
  }

  /** The first row with this id, or the number of rows. */
  function IndexOf(rows: seq<Login>, id: string): (k: nat)
    ensures k <= |rows| && (k < |rows| ==> rows[k].id == id)
    ensures forall m :: 0 <= m < k ==> rows[m].id != id
  {
    if rows == [] then 0
    else if rows[0].id == id then 0
    else
      var rest := IndexOf(rows[1..], id);
      assert forall m :: 0 < m < |rows| ==> rows[m] == rows[1..][m - 1];
      1 + rest
  }

  /** The recent login that a revoke-others call keeps: the asked-for one if it is recent and not
      revoked, otherwise the newest one not revoked. */
  function KeptIndex(rows: seq<Login>, revoked: seq<string>, keep: Option<string>): nat {
    if keep.Some? && IndexOf(rows, keep.value) < |rows| && keep.value !in revoked then IndexOf(rows, keep.value)
    else FirstUnrevoked(rows, revoked)
  }

  class UserSessions {
    var epoch: nat
    var revoked: seq<string>
    var minIat: Option<int>
    var logins: seq<Login>

    ghost function Now(): State
      reads this
    {
      State(epoch, revoked, minIat, logins)
    }

    constructor ()
      ensures Now() == State(0, [], None, [])
    {
      epoch, revoked, minIat, logins := 0, [], None, [];
    }

    method BumpSessionEpoch()
      modifies this
      ensures Now() == old(Now()).(epoch := old(epoch) + 1)
    {
      epoch := epoch + 1;
    }

    method RevokeSessionId(sid: string)
      modifies this
      ensures Now() == Revoked(old(Now()), sid)
      ensures logins == old(logins) && minIat == old(minIat)
      ensures revoked == if sid in old(revoked) then old(revoked) else old(revoked) + [sid]
      ensures epoch == old(epoch) + if logins != [] && logins[|logins| - 1].id == sid then 1 else 0
    {
      if sid !in revoked {
        revoked := revoked + [sid];
      }
      if logins != [] && logins[|logins| - 1].id == sid {
        BumpSessionEpoch();
      }
    }

    method IsTokenSessionValid(t: Token) returns (ok: bool)
      ensures ok <==> Valid(Now(), t)
      ensures ok <==>
              t.ver >= epoch &&
              match t.sid
              case Some(sid) => sid !in revoked
              case None => (match minIat case Some(floor) => t.iat >= floor case None => true)
    {
      if t.ver < epoch {
        return false;
      }
      if t.sid.Some? {
        return t.sid.value !in revoked;
      }
      if minIat.Some? && t.iat < minIat.value {
        return false;
      }
      ok := true;
    }

    /** Of the last 25 logins exactly one stays unrevoked: the asked-for one if it is among them and was
        not revoked, otherwise the newest that was not; if there is none, nothing changes. Nothing is
        ever un-revoked, and the floor moves to the time of the login that stays. */
    method RevokeAllExceptSession(keep: Option<string>)
      requires DistinctIds(Newest(logins, 25))
      modifies this
      ensures epoch == old(epoch) && logins == old(logins)
      ensures KeepsOne(Newest(logins, 25), keep, old(revoked), revoked, old(minIat), minIat)
    {
      var rows := Recent(logins, RECENT);
      RecentIsReversed(logins, RECENT);
      DistinctMirrored(Newest(logins, RECENT), rows);
      var list, kept := RevokeOthers(rows, revoked, keep);
      KeptIsMeant(Newest(logins, RECENT), rows, revoked, list, keep, minIat);
      revoked := list;
      if kept.Some? {
        minIat := Some(kept.value.at);
      }
    }
  }

  /** The last logins, newest last. */
  function Newest(logins: seq<Login>, limit: nat): seq<Login> {
    if |logins| <= limit then logins else logins[|logins| - limit..]
  }

  /** What revoking the others of these logins, newest last, does to the revoked list and the floor. */
  ghost predicate KeepsOne(rows: seq<Login>, keep: Option<string>, before: seq<string>, after: seq<string>,
                           floor: Option<int>, floor': Option<int>) {
    && before <= after
    && (forall m :: |before| <= m < |after| ==> HasId(rows, after[m]))
    && if Asked(rows, before, keep) then
         exists k :: 0 <= k < |rows| && rows[k].id == keep.value &&
           OnlyStays(rows, after, k) && floor' == Some(rows[k].at)
       else if AnyLeft(rows, before) then
         exists k :: 0 <= k < |rows| && rows[k].id !in before &&
           (forall m :: k < m < |rows| ==> rows[m].id in before) &&
           OnlyStays(rows, after, k) && floor' == Some(rows[k].at)
       else after == before && floor' == floor
  }

  /** A session to keep is named, is among these logins, and has not been revoked. */
  predicate Asked(rows: seq<Login>, revoked: seq<string>, keep: Option<string>) {
    keep.Some? && keep.value !in revoked && HasId(rows, keep.value)
  }

  predicate AnyLeft(rows: seq<Login>, revoked: seq<string>) {
    exists k :: 0 <= k < |rows| && rows[k].id !in revoked
  }

  /** Of these logins exactly this one is not revoked. */
  ghost predicate OnlyStays(rows: seq<Login>, revoked: seq<string>, k: nat) {
    forall m :: 0 <= m < |rows| ==> (rows[m].id !in revoked <==> m == k)
  }

  ghost predicate Mirrored(rows: seq<Login>, back: seq<Login>) {
    |back| == |rows| && forall m :: 0 <= m < |rows| ==> back[m] == rows[|rows| - 1 - m]
  }

  lemma {:induction false} RecentIsReversed(logins: seq<Login>, limit: nat)
    ensures Mirrored(Newest(logins, limit), Recent(logins, limit))
    decreases |logins|
  {
    if logins != [] && limit > 0 {
      var init, last := logins[..|logins| - 1], logins[|logins| - 1];
      RecentIsReversed(init, limit - 1);
      assert Newest(logins, limit) == Newest(init, limit - 1) + [last];
      MirroredMore(Newest(init, limit - 1), Recent(init, limit - 1), last);
    }
  }

  lemma MirroredMore(rows: seq<Login>, back: seq<Login>, last: Login)
    requires Mirrored(rows, back)
    ensures Mirrored(rows + [last], [last] + back)
  {
  }

  lemma DistinctMirrored(rows: seq<Login>, back: seq<Login>)
    requires DistinctIds(rows) && Mirrored(rows, back)
    ensures DistinctIds(back)
  {
  }

  /** The row that the specification keeps is the one that is meant. */
  lemma KeptIsMeant(rows: seq<Login>, back: seq<Login>, before: seq<string>, after: seq<string>,
                    keep: Option<string>, floor: Option<int>)
    requires DistinctIds(rows) && Mirrored(rows, back)
    requires OnlyOneLeft(back, before, after, KeptIndex(back, before, keep))
    ensures var j := KeptIndex(back, before, keep);
            KeepsOne(rows, keep, before, after, floor, if j < |back| then Some(back[j].at) else floor)
  {
    var j := KeptIndex(back, before, keep);
    var k := |rows| - 1 - j;
    ExtrasMirrored(rows, back, before, after);
    if Asked(rows, before, keep) {
      AskedIsKept(rows, back, before, keep);
    } else if j < |rows| {
      NewestIsKept(rows, back, before, keep);
    } else {
      NoneLeft(rows, back, before);
      ExtrasMeanLeft(rows, before, after);
    }
    if j < |rows| {
      StaysMirrored(rows, back, after, j);
    }
  }

  lemma ExtrasMirrored(rows: seq<Login>, back: seq<Login>, before: seq<string>, after: seq<string>)
    requires Mirrored(rows, back)
    requires forall m :: |before| <= m < |after| ==> HasId(back, after[m])
    ensures forall m :: |before| <= m < |after| ==> HasId(rows, after[m])
  {
    forall m | |before| <= m < |after| ensures HasId(rows, after[m]) {
      var x :| 0 <= x < |back| && back[x].id == after[m];
      assert rows[|rows| - 1 - x].id == after[m];
    }
  }

  lemma NoneLeft(rows: seq<Login>, back: seq<Login>, before: seq<string>)
    requires Mirrored(rows, back) && forall m :: 0 <= m < |back| ==> back[m].id in before
    ensures !AnyLeft(rows, before)
  {
    forall m | 0 <= m < |rows| ensures rows[m].id in before {
      assert rows[m] == back[|rows| - 1 - m];
    }
  }

  lemma ExtrasMeanLeft(rows: seq<Login>, before: seq<string>, after: seq<string>)
    requires before <= after
    requires forall m :: |before| <= m < |after| ==> HasId(rows, after[m]) && after[m] !in before
    ensures after == before || AnyLeft(rows, before)
  {
    if |after| > |before| {
      assert HasId(rows, after[|before|]);
    }
  }

  lemma AskedIsKept(rows: seq<Login>, back: seq<Login>, before: seq<string>, keep: Option<string>)
    requires Mirrored(rows, back) && Asked(rows, before, keep)
    ensures KeptIndex(back, before, keep) < |back| && back[KeptIndex(back, before, keep)].id == keep.value
  {
    var m :| 0 <= m < |rows| && rows[m].id == keep.value;
    assert back[|rows| - 1 - m].id == keep.value;
  }

  lemma NewestIsKept(rows: seq<Login>, back: seq<Login>, before: seq<string>, keep: Option<string>)
    requires Mirrored(rows, back) && !Asked(rows, before, keep) && KeptIndex(back, before, keep) < |back|
    ensures var k := |rows| - 1 - KeptIndex(back, before, keep);
            rows[k].id !in before && forall m :: k < m < |rows| ==> rows[m].id in before
  {
    var j := KeptIndex(back, before, keep);
    forall m | |rows| - 1 - j < m < |rows| ensures rows[m].id in before {
      assert rows[m] == back[|rows| - 1 - m];
    }
  }

  lemma StaysMirrored(rows: seq<Login>, back: seq<Login>, after: seq<string>, j: nat)
    requires Mirrored(rows, back) && j < |back|
    requires forall m :: 0 <= m < |back| ==> (back[m].id !in after <==> m == j)
    ensures OnlyStays(rows, after, |rows| - 1 - j)
  {
    forall m | 0 <= m < |rows| ensures rows[m].id !in after <==> m == |rows| - 1 - j {
      assert rows[m] == back[|rows| - 1 - m];
    }
  }

  /** `after` extends `before` by exactly the rows other than the kept one that it lacked. */
  ghost predicate OnlyOneLeft(rows: seq<Login>, before: seq<string>, after: seq<string>, kept: nat) {
    && before <= after
    && (forall k :: 0 <= k < |rows| ==> (rows[k].id !in after <==> k == kept))
    && (forall m :: |before| <= m < |after| ==> HasId(rows, after[m]) && after[m] !in before)
  }

  method RevokeOthers(rows: seq<Login>, revoked: seq<string>, keep: Option<string>)
    returns (list: seq<string>, kept: Option<Login>)
    requires DistinctIds(rows)
    ensures OnlyOneLeft(rows, revoked, list, KeptIndex(rows, revoked, keep))
    ensures kept == if KeptIndex(rows, revoked, keep) < |rows| then Some(rows[KeptIndex(rows, revoked, keep)]) else None
  {
    var preferred := if keep.Some? && IndexOf(rows, keep.value) < |rows| && keep.value !in revoked then keep else None;
    ghost var goal := KeptIndex(rows, revoked, keep);
    list, kept := revoked, None;
    for i := 0 to |rows|
      invariant revoked <= list
      invariant kept == if goal < i then Some(rows[goal]) else None
      invariant forall k :: 0 <= k < i ==> (rows[k].id !in list <==> k == goal)
      invariant forall k :: i <= k < |rows| ==> (rows[k].id in list <==> rows[k].id in revoked)
      invariant forall m :: |revoked| <= m < |list| ==> HasId(rows, list[m]) && list[m] !in revoked
    {
      var id := rows[i].id;
      if id !in list {
        var shouldKeep := if preferred.Some? then id == preferred.value else kept.None?;
        if shouldKeep && kept.None? {
          kept := Some(rows[i]);
        } else if !shouldKeep {
          list := list + [id];
          assert forall k :: 0 <= k < |rows| && k != i ==> rows[k].id != id;
        }
      }
    }
  }

  /** `revoke_session_id`: revoking the newest login also ends every outstanding token. */
  function Revoked(st: State, sid: string): State {
    var listed := st.(revoked := if sid in st.revoked then st.revoked else st.revoked + [sid]);
    if IsNewest(st, sid) then listed.(epoch := st.epoch + 1) else listed
  }

  predicate IsNewest(st: State, sid: string) {
    st.logins != [] && st.logins[|st.logins| - 1].id == sid
  }

  // ----- revocation, statement by statement ----------------------------------------------------

  /** What a revocation has yet to do, with what it has already loaded. */
  datatype Writer =
    | StoreOne(list: seq<string>, sid: string)
    | StoreRest(list: seq<string>, floor: Option<int>)
    | StoreFloor(minIat: int)
    | LookNewest(sid: string)
    | LoadEpoch
    | StoreEpoch(epoch: nat)

  /** `revoke_session_id` up to its first store. */
  function RevokeLoaded(st: State, sid: string): Writer {
    if sid in st.revoked then LookNewest(sid) else StoreOne(st.revoked + [sid], sid)
  }

  /** `bump_session_epoch` up to its store. */
  function BumpLoaded(st: State): Writer {
    StoreEpoch(st.epoch + 1)
  }

  /** The next statement of a revocation, and what is left of it. */
  function Resumed(st: State, wr: Writer): (State, Option<Writer>) {
    match wr
    case StoreOne(list, sid) => (st.(revoked := list), Some(LookNewest(sid)))
    case StoreRest(list, floor) =>
      (st.(revoked := list), if floor.Some? then Some(StoreFloor(floor.value)) else None)
    case StoreFloor(minIat) => (st.(minIat := Some(minIat)), None)
    case LookNewest(sid) => (st, if IsNewest(st, sid) then Some(LoadEpoch) else None)
    case LoadEpoch => (st, Some(BumpLoaded(st)))
    case StoreEpoch(epoch) => (st.(epoch := epoch), None)
  }

  function Rank(wr: Writer): nat {
    match wr
    case StoreOne(_, _) => 3
    case LookNewest(_) => 2
    case LoadEpoch => 1
    case StoreRest(_, _) => 1
    case _ => 0
  }

  function RunToEnd(st: State, wr: Writer): State
    decreases Rank(wr)
  {
    var (st', rest) := Resumed(st, wr);
    if rest.None? then st' else RunToEnd(st', rest.value)
  }

  /** Left alone, the statements of a revocation amount to `RevokeSessionId`. */
  lemma UninterruptedRevoke(st: State, sid: string)
    ensures RunToEnd(st, RevokeLoaded(st, sid)) == Revoked(st, sid)
  {
    var listed := if sid in st.revoked then st else st.(revoked := st.revoked + [sid]);
    assert RunToEnd(st, RevokeLoaded(st, sid)) == RunToEnd(listed, LookNewest(sid));
    if IsNewest(listed, sid) {
      assert RunToEnd(listed, LookNewest(sid)) == RunToEnd(listed, LoadEpoch);
      assert RunToEnd(listed, LoadEpoch) == RunToEnd(listed, BumpLoaded(listed));
    }
  }

  /** The statement stores no list that lacks a revoked session and no epoch below the current one. */
  predicate Keeps(st: State, wr: Writer) {
    match wr
    case StoreOne(list, _) => forall s :: s in st.revoked ==> s in list
    case StoreRest(list, _) => forall s :: s in st.revoked ==> s in list
    case StoreEpoch(epoch) => epoch >= st.epoch
    case _ => true
  }

  lemma {:induction false} LengthBound(list: seq<string>) returns (n: nat)
    ensures forall s :: s in list ==> |s| <= n
  {
    n := 0;
    if list != [] {
      n := LengthBound(list[1..]);
      if n < |list[0]| {
        n := |list[0]|;
      }
    }
  }

  /** A statement keeps every refusal of a token with a session id if and only if it stores neither a
      list that lacks a revoked session nor a lower epoch. */
  lemma StoreKeepsRefusalsIff(st: State, wr: Writer)
    ensures (forall t: Token :: t.sid.Some? && !Valid(st, t) ==> !Valid(Resumed(st, wr).0, t)) <==> Keeps(st, wr)
  {
    var st' := Resumed(st, wr).0;
    if !Keeps(st, wr) {
      if wr.StoreEpoch? {
        var n := LengthBound(st.revoked);
        var unlisted := seq(n + 1, _ => 'x');
        assert !Valid(st, Token(Some(unlisted), wr.epoch, 0)) && Valid(st', Token(Some(unlisted), wr.epoch, 0));
      } else {
        var s :| s in st.revoked && s !in wr.list;
        assert !Valid(st, Token(Some(s), st.epoch, 0)) && Valid(st', Token(Some(s), st.epoch, 0));
      }
    }
  }

  // ----- runs ----------------------------------------------------------------------------------

  /** A refresh has passed the epoch gate, or both gates. */
  datatype Refresh = Checking(token: Token) | Checked(token: Token)

  /** Logins, refreshes and revocations take several steps; in between, anything else may happen. */
  datatype World = World(
    st: State, minted: set<Token>, loggingIn: map<nat, Option<string>>, refreshing: map<nat, Refresh>,
    writers: map<nat, Writer>)

  datatype Event =
    | LoginAudit(i: nat, login: Option<Login>)
    | LoginMint(i: nat, now: int)
    | RefreshBegin(i: nat, t: Token)
    | RefreshCheck(i: nat)
    | RefreshMint(i: nat, now: int)
    | RevokeBegin(i: nat, sid: string)
    | RevokeRestBegin(i: nat, list: seq<string>, floor: Option<int>)
    | BumpBegin(i: nat)
    | Resume(i: nat)

  ghost predicate Enabled(w: World, e: Event) {
    match e
    case LoginAudit(i, login) => i !in w.loggingIn && (login.Some? ==> !HasId(w.st.logins, login.value.id))
    case LoginMint(i, _) => i in w.loggingIn
    case RefreshBegin(i, t) => i !in w.refreshing && t in w.minted
    case RefreshCheck(i) => i in w.refreshing && w.refreshing[i].Checking?
    case RefreshMint(i, _) => i in w.refreshing && w.refreshing[i].Checked?
    case RevokeBegin(i, _) => i !in w.writers
    case RevokeRestBegin(i, list, _) => i !in w.writers && w.st.revoked <= list
    case BumpBegin(i) => i !in w.writers
    case Resume(i) => i in w.writers
  }

  function Max(a: int, b: int): int {
    if a < b then b else a
  }

  ghost function Next(w: World, e: Event): World
    requires Enabled(w, e)
  {
    match e
    case LoginAudit(i, login) =>
      if login.Some?
      then w.(st := w.st.(logins := w.st.logins + [login.value]), loggingIn := w.loggingIn[i := Some(login.value.id)])
      else w.(loggingIn := w.loggingIn[i := None])
    case LoginMint(i, now) =>
      w.(minted := w.minted + {Token(w.loggingIn[i], w.st.epoch, now)}, loggingIn := w.loggingIn - {i})
    case RefreshBegin(i, t) => if EpochGate(w.st, t) then w.(refreshing := w.refreshing[i := Checking(t)]) else w
    case RefreshCheck(i) =>
      var t := w.refreshing[i].token;
      w.(refreshing := if ListGate(w.st, t) then w.refreshing[i := Checked(t)] else w.refreshing - {i})
    case RefreshMint(i, now) =>
      var t := w.refreshing[i].token;
      w.(minted := w.minted + {Token(t.sid, w.st.epoch, Max(now, t.iat + 1))}, refreshing := w.refreshing - {i})
    case RevokeBegin(i, sid) => w.(writers := w.writers[i := RevokeLoaded(w.st, sid)])
    case RevokeRestBegin(i, list, floor) => w.(writers := w.writers[i := StoreRest(list, floor)])
    case BumpBegin(i) => w.(writers := w.writers[i := BumpLoaded(w.st)])
    case Resume(i) =>
      var (st, rest) := Resumed(w.st, w.writers[i]);
      w.(st := st, writers := if rest.Some? then w.writers[i := rest.value] else w.writers - {i})
  }

  /** Tokens come only from logins, for the login's own session, and from refreshes that passed both
      gates, for the refreshed session and later than the refreshed token; all carry the current epoch,
      and a new login's token is accepted unless its session is already revoked. */
  lemma MintedTokens(w: World, e: Event, t: Token)
    requires Enabled(w, e) && t !in w.minted
    ensures t in Next(w, e).minted <==>
            || (e.LoginMint? && t == Token(w.loggingIn[e.i], w.st.epoch, e.now))
            || (e.RefreshMint? && w.refreshing[e.i].Checked? &&
                var prior := w.refreshing[e.i].token;
                t.sid == prior.sid && t.ver == w.st.epoch &&
                t.iat == if e.now > prior.iat then e.now else prior.iat + 1)
    ensures t in Next(w, e).minted && t.sid.Some? ==> (Valid(Next(w, e).st, t) <==> t.sid.value !in w.st.revoked)
  {
  }

  ghost predicate ValidRun(w: World, es: seq<Event>)
    decreases |es|
  {
    es != [] ==> Enabled(w, es[0]) && ValidRun(Next(w, es[0]), es[1..])
  }

  ghost function Final(w: World, es: seq<Event>): World
    requires ValidRun(w, es)
    decreases |es|
  {
    if es == [] then w else Final(Next(w, es[0]), es[1..])
  }

  predicate StepKeeps(w: World, e: Event) {
    e.Resume? && e.i in w.writers ==> Keeps(w.st, w.writers[e.i])
  }

  /** Every store of the run keeps what was stored before it. */
  ghost predicate Monotone(w: World, es: seq<Event>)
    requires ValidRun(w, es)
    decreases |es|
  {
    es != [] ==> StepKeeps(w, es[0]) && Monotone(Next(w, es[0]), es[1..])
  }

  // ----- overlapping revocations ---------------------------------------------------------------

  /** Two revocations that both load the list before either stores it: the second store un-revokes
      the session that the first one revoked. */
  lemma OverlapUnrevokes(w: World, i: nat, j: nat, s1: string, s2: string, t: Token)
    requires i != j && i !in w.writers && j !in w.writers
    requires s1 != s2 && s1 !in w.st.revoked && s2 !in w.st.revoked
    requires t.sid == Some(s2) && EpochGate(w.st, t)
    ensures var w3 := Next(Next(Next(w, RevokeBegin(i, s1)), RevokeBegin(j, s2)), Resume(j));
            !Valid(w3.st, t) && Enabled(w3, Resume(i)) && Valid(Next(w3, Resume(i)).st, t)
  {
  }

  /** Three bumps of which one loads the epoch first and stores it last: the epoch falls, and a token
      refused before is accepted again. */
  lemma OverlapLowersEpoch(w: World, i: nat, j: nat, t: Token)
    requires i != j && i !in w.writers && j !in w.writers
    requires t.sid.Some? && t.sid.value !in w.st.revoked && t.ver == w.st.epoch + 1
    ensures var w3 := Next(Next(Next(w, BumpBegin(i)), BumpBegin(j)), Resume(j));
            Enabled(w3, BumpBegin(j)) &&
            var w5 := Next(Next(w3, BumpBegin(j)), Resume(j));
            !Valid(w5.st, t) && Enabled(w5, Resume(i)) && Valid(Next(w5, Resume(i)).st, t)
  {
  }

  // ----- irreversibility -----------------------------------------------------------------------

  /** The revocation under way will store a list without this session. */
  predicate Drops(wr: Writer, sid: string) {
    match wr
    case StoreOne(list, _) => sid !in list
    case StoreRest(list, _) => sid !in list
    case _ => false
  }

  /** Revoked, and on the list of every revocation under way. */
  predicate ListedFirmly(w: World, sid: string) {
    sid in w.st.revoked && forall i :: i in w.writers ==> !Drops(w.writers[i], sid)
  }

  /** Every bump under way stores more than this version. */
  predicate Outbid(w: World, ver: nat) {
    forall i :: i in w.writers && w.writers[i].StoreEpoch? ==> ver < w.writers[i].epoch
  }

  /** Below the epoch, and below every epoch yet to be stored. */
  predicate EndedFirmly(w: World, ver: nat) {
    ver < w.st.epoch && Outbid(w, ver)
  }

  lemma {:induction false} FirmStays(w: World, es: seq<Event>, sid: string, ver: nat)
    requires ValidRun(w, es)
    ensures ListedFirmly(w, sid) ==> ListedFirmly(Final(w, es), sid)
    ensures EndedFirmly(w, ver) ==> EndedFirmly(Final(w, es), ver)
    decreases |es|
  {
    if es != [] {
      FirmStays(Next(w, es[0]), es[1..], sid, ver);
    }
  }

  /** If a session is not firmly listed, some run takes it off the list and does nothing else that
      tokens, refreshes or other bumps notice. */
  lemma Unlisted(w: World, sid: string) returns (es: seq<Event>)
    requires !ListedFirmly(w, sid)
    ensures ValidRun(w, es)
    ensures var w' := Final(w, es);
            sid !in w'.st.revoked && w'.st.epoch == w.st.epoch && w'.minted == w.minted &&
            w'.refreshing == w.refreshing &&
            forall i :: i in w.writers && w.writers[i].StoreEpoch? ==> i in w'.writers && w'.writers[i] == w.writers[i]
  {
    es := [];
    if sid in w.st.revoked {
      var i :| i in w.writers && Drops(w.writers[i], sid);
      OneMore(w, [], Resume(i));
      es := [] + [Resume(i)];
    }
  }

  /** If a version is not firmly ended, some run brings the epoch down to it and touches nothing else. */
  lemma Unended(w: World, ver: nat) returns (es: seq<Event>)
    requires !EndedFirmly(w, ver)
    ensures ValidRun(w, es)
    ensures var w' := Final(w, es);
            w'.st.epoch <= ver && w'.st.revoked == w.st.revoked && w'.minted == w.minted
  {
    es := [];
    if ver < w.st.epoch {
      var i :| i in w.writers && w.writers[i].StoreEpoch? && w.writers[i].epoch <= ver;
      OneMore(w, [], Resume(i));
      es := [] + [Resume(i)];
    }
  }

  lemma {:induction false} OneMore(w: World, es: seq<Event>, e: Event)
    requires ValidRun(w, es) && Enabled(Final(w, es), e)
    ensures ValidRun(w, es + [e]) && Final(w, es + [e]) == Next(Final(w, es), e)
    decreases |es|
  {
    if es == [] {
      assert [e][1..] == [];
      assert Final(w, [e]) == Final(Next(w, e), []);
    } else {
      assert (es + [e])[1..] == es[1..] + [e];
      OneMore(Next(w, es[0]), es[1..], e);
    }
  }

  lemma {:induction false} RunsJoin(w: World, es: seq<Event>, more: seq<Event>)
    requires ValidRun(w, es) && ValidRun(Final(w, es), more)
    ensures ValidRun(w, es + more) && Final(w, es + more) == Final(Final(w, es), more)
    decreases |es|
  {
    if es == [] {
      assert es + more == more;
    } else {
      assert (es + more)[1..] == es[1..] + more;
      RunsJoin(Next(w, es[0]), es[1..], more);
    }
  }

  /** A token with a session id is refused at the end of every run, overlapping revocations included,
      if and only if its session is firmly listed or its version firmly ended. */
  lemma RefusedForeverIff(w: World, t: Token)
    requires t.sid.Some?
    ensures (forall es :: ValidRun(w, es) ==> !Valid(Final(w, es).st, t)) <==>
            ListedFirmly(w, t.sid.value) || EndedFirmly(w, t.ver)
  {
    if ListedFirmly(w, t.sid.value) || EndedFirmly(w, t.ver) {
      forall es | ValidRun(w, es) ensures !Valid(Final(w, es).st, t) {
        FirmStays(w, es, t.sid.value, t.ver);
      }
    } else {
      var unlist := Unlisted(w, t.sid.value);
      var unend := Unended(Final(w, unlist), t.ver);
      RunsJoin(w, unlist, unend);
      assert Valid(Final(w, unlist + unend).st, t);
    }
  }

  /** No token whatever of this session is accepted. */
  ghost predicate SessionRefused(st: State, sid: string) {
    forall t: Token :: t.sid == Some(sid) ==> !Valid(st, t)
  }

  /** Revocation is irreversible: at the end of every run every token of a session is refused, whenever
      it was minted, if and only if the session is revoked and on the list of every revocation under way. */
  lemma RevocationIsIrreversible(w: World, sid: string)
    ensures (forall es :: ValidRun(w, es) ==> SessionRefused(Final(w, es).st, sid)) <==> ListedFirmly(w, sid)
  {
    if ListedFirmly(w, sid) {
      forall es | ValidRun(w, es) ensures SessionRefused(Final(w, es).st, sid) {
        FirmStays(w, es, sid, 0);
      }
    } else {
      var es := Unlisted(w, sid);
      assert Valid(Final(w, es).st, Token(Some(sid), Final(w, es).st.epoch, 0));
    }
  }

  /** So is a bump: a version stays below the epoch on every run if and only if it is below the epoch
      and every bump under way stores more. */
  lemma EndIsIrreversible(w: World, ver: nat)
    ensures (forall es :: ValidRun(w, es) ==> ver < Final(w, es).st.epoch) <==> EndedFirmly(w, ver)
  {
    if EndedFirmly(w, ver) {
      forall es | ValidRun(w, es) ensures ver < Final(w, es).st.epoch {
        FirmStays(w, es, "", ver);
      }
    } else {
      var es := Unended(w, ver);
      assert !(ver < Final(w, es).st.epoch);
    }
  }

  // ----- revocations one at a time -------------------------------------------------------------

  predicate Begins(e: Event) {
    e.RevokeBegin? || e.RevokeRestBegin? || e.BumpBegin?
  }

  /** No revocation of the user begins while another is under way. */
  ghost predicate OneAtATime(w: World, es: seq<Event>)
    requires ValidRun(w, es)
    decreases |es|
  {
    es != [] ==> (Begins(es[0]) ==> w.writers == map[]) && OneAtATime(Next(w, es[0]), es[1..])
  }

  /** At most one revocation is under way, and what it loaded is still what is stored. */
  ghost predicate SoleWriter(w: World) {
    && (forall i, j :: i in w.writers && j in w.writers ==> i == j)
    && forall i :: i in w.writers ==>
         match w.writers[i]
         case StoreOne(list, _) => w.st.revoked <= list
         case StoreRest(list, _) => w.st.revoked <= list
         case StoreEpoch(epoch) => epoch == w.st.epoch + 1
         case _ => true
  }

  lemma SoleWriterStays(w: World, e: Event)
    requires SoleWriter(w) && Enabled(w, e) && (Begins(e) ==> w.writers == map[])
    ensures SoleWriter(Next(w, e)) && StepKeeps(w, e)
  {
  }

  /** While revocations of a user do not overlap every store keeps what was stored before it; and once
      they have not, whatever is refused is refused for good, even if later ones overlap. */
  lemma {:induction false} OneAtATimeIsMonotone(w: World, es: seq<Event>)
    requires SoleWriter(w) && ValidRun(w, es) && OneAtATime(w, es)
    ensures Monotone(w, es)
    ensures var w' := Final(w, es);
            forall t: Token :: t.sid.Some? && !Valid(w'.st, t) ==>
              ListedFirmly(w', t.sid.value) || EndedFirmly(w', t.ver)
    decreases |es|
  {
    if es != [] {
      SoleWriterStays(w, es[0]);
      OneAtATimeIsMonotone(Next(w, es[0]), es[1..]);
    }
  }

  // ----- sessions and their tokens -------------------------------------------------------------

  function Sids(ts: set<Token>): set<string> {
    set t | t in ts && t.sid.Some? :: t.sid.value
  }

  /** Session ids of tokens and of logins under way come from the login log; what is being refreshed
      has been minted. */
  ghost predicate SidsLogged(w: World) {
    && (forall t :: t in w.minted && t.sid.Some? ==> HasId(w.st.logins, t.sid.value))
    && (forall i :: i in w.loggingIn && w.loggingIn[i].Some? ==> HasId(w.st.logins, w.loggingIn[i].value))
    && (forall i :: i in w.refreshing ==> w.refreshing[i].token in w.minted)
  }

  lemma HasIdGrows(rows: seq<Login>, row: Login, id: string)
    ensures HasId(rows + [row], id) <==> HasId(rows, id) || row.id == id
  {
    if HasId(rows, id) {
      var k :| 0 <= k < |rows| && rows[k].id == id;
      assert (rows + [row])[k].id == id;
    }
    assert (rows + [row])[|rows|] == row;
  }

  /** No two pending logins, and no login and token, share a session id. */
  ghost predicate SidsApart(w: World) {
    && (forall i :: i in w.loggingIn && w.loggingIn[i].Some? ==> w.loggingIn[i].value !in Sids(w.minted))
    && (forall i, j :: i in w.loggingIn && j in w.loggingIn && i != j && w.loggingIn[i].Some? ==>
          w.loggingIn[i] != w.loggingIn[j])
  }

  ghost predicate Inv(w: World) {
    SidsLogged(w) && SidsApart(w) && forall t :: t in w.minted ==> t.ver <= w.st.epoch
  }

  lemma StepKeepsLogged(w: World, e: Event)
    requires SidsLogged(w) && Enabled(w, e)
    ensures SidsLogged(Next(w, e))
  {
    if e.LoginAudit? && e.login.Some? {
      forall id ensures HasId(w.st.logins + [e.login.value], id) <==> HasId(w.st.logins, id) || e.login.value.id == id {
        HasIdGrows(w.st.logins, e.login.value, id);
      }
    }
    if e.RefreshMint? {
      assert w.refreshing[e.i].token in w.minted;
    }
  }

  lemma StepKeepsApart(w: World, e: Event)
    requires SidsLogged(w) && SidsApart(w) && Enabled(w, e)
    ensures SidsApart(Next(w, e))
  {
    if e.RefreshMint? {
      assert w.refreshing[e.i].token in w.minted;
      assert Sids(Next(w, e).minted) == Sids(w.minted);
    }
  }

  /** Every step that keeps what was stored keeps session ids tied to their own login, and token
      versions within the epoch. */
  lemma StepKeepsInv(w: World, e: Event)
    requires Inv(w) && Enabled(w, e) && StepKeeps(w, e)
    ensures Inv(Next(w, e))
  {
    StepKeepsLogged(w, e);
    StepKeepsApart(w, e);
  }

  /** The part of this that needs nothing of the stores. */
  lemma {:induction false} RunKeepsSids(w: World, es: seq<Event>)
    requires SidsLogged(w) && SidsApart(w) && ValidRun(w, es)
    ensures SidsLogged(Final(w, es)) && SidsApart(Final(w, es))
    decreases |es|
  {
    if es != [] {
      StepKeepsLogged(w, es[0]);
      StepKeepsApart(w, es[0]);
      RunKeepsSids(Next(w, es[0]), es[1..]);
    }
  }

  // ----- what a bump ends ----------------------------------------------------------------------

  /** No token of this session that has been minted is accepted. */
  ghost predicate NoneAccepted(w: World, sid: string) {
    forall t :: t in w.minted && t.sid == Some(sid) ==> !Valid(w.st, t)
  }

  /** On no run is a token of the session accepted at the end. */
  ghost predicate OverForGood(w: World, sid: string) {
    forall es :: ValidRun(w, es) ==> NoneAccepted(Final(w, es), sid)
  }

  predicate Refreshing(w: World, sid: string) {
    exists i :: i in w.refreshing && w.refreshing[i].token.sid == Some(sid)
  }

  /** No refresh of the session is under way, and its tokens are firmly ended. */
  ghost predicate TokensEnded(w: World, sid: string) {
    !Refreshing(w, sid) && forall t :: t in w.minted && t.sid == Some(sid) ==> EndedFirmly(w, t.ver)
  }

  /** Firmly ended tokens, with no login of the session to come. */
  ghost predicate SessionOver(w: World, sid: string) {
    && TokensEnded(w, sid) && HasId(w.st.logins, sid)
    && forall i :: i in w.loggingIn ==> w.loggingIn[i] != Some(sid)
  }

  lemma SessionStaysOver(w: World, e: Event, sid: string)
    requires SessionOver(w, sid) && Enabled(w, e)
    ensures SessionOver(Next(w, e), sid)
  {
    if e.LoginAudit? && e.login.Some? {
      HasIdGrows(w.st.logins, e.login.value, sid);
    }
    forall ver | EndedFirmly(w, ver) ensures EndedFirmly(Next(w, e), ver) {
    }
  }

  lemma {:induction false} SessionOverForever(w: World, es: seq<Event>, sid: string)
    requires SessionOver(w, sid) && ValidRun(w, es)
    ensures SessionOver(Final(w, es), sid)
    decreases |es|
  {
    if es != [] {
      SessionStaysOver(w, es[0], sid);
      SessionOverForever(Next(w, es[0]), es[1..], sid);
    }
  }

  /** A session that has a token is over for good, on every run, if and only if it is firmly listed or
      its tokens are firmly ended. */
  lemma SessionEndsIff(w: World, sid: string)
    requires SidsLogged(w) && SidsApart(w) && sid in Sids(w.minted)
    ensures OverForGood(w, sid) <==> ListedFirmly(w, sid) || TokensEnded(w, sid)
  {
    if ListedFirmly(w, sid) {
      RevocationIsIrreversible(w, sid);
      assert forall es :: ValidRun(w, es) ==> SessionRefused(Final(w, es).st, sid);
    } else if TokensEnded(w, sid) {
      var t :| t in w.minted && t.sid == Some(sid);
      forall es | ValidRun(w, es) ensures NoneAccepted(Final(w, es), sid) {
        SessionOverForever(w, es, sid);
      }
    } else {
      var es := SessionSurvives(w, sid);
    }
  }

  /** Otherwise some run ends with an accepted token of the session. */
  lemma SessionSurvives(w: World, sid: string) returns (es: seq<Event>)
    requires !ListedFirmly(w, sid) && !TokensEnded(w, sid)
    ensures ValidRun(w, es) && !NoneAccepted(Final(w, es), sid)
  {
    var unlist := Unlisted(w, sid);
    var w1 := Final(w, unlist);
    if k :| k in w.refreshing && w.refreshing[k].token.sid == Some(sid) {
      var mint := RefreshSurvives(w1, k);
      RunsJoin(w, unlist, mint);
      es := unlist + mint;
    } else {
      var t :| t in w.minted && t.sid == Some(sid) && !EndedFirmly(w, t.ver);
      var unend := Unended(w1, t.ver);
      RunsJoin(w, unlist, unend);
      es := unlist + unend;
      assert t in Final(w, es).minted && Valid(Final(w, es).st, t);
    }
  }

  /** A refresh past the epoch gate can mint a token that is accepted. */
  lemma RefreshSurvives(w: World, k: nat) returns (es: seq<Event>)
    requires k in w.refreshing && w.refreshing[k].token.sid.Some?
    requires w.refreshing[k].token.sid.value !in w.st.revoked
    ensures ValidRun(w, es) && !NoneAccepted(Final(w, es), w.refreshing[k].token.sid.value)
  {
    var prior := w.refreshing[k].token;
    es := [];
    if w.refreshing[k].Checking? {
      OneMore(w, [], RefreshCheck(k));
      es := [] + [RefreshCheck(k)];
    }
    var t := Token(prior.sid, w.st.epoch, Max(0, prior.iat + 1));
    OneMore(w, es, RefreshMint(k, 0));
    es := es + [RefreshMint(k, 0)];
    assert t in Final(w, es).minted && Valid(Final(w, es).st, t);
  }

  /** The bump outbids the versions of all the session's tokens, together with every other bump under
      way, and no refresh of the session is under way. */
  ghost predicate BumpEnds(w: World, sid: string) {
    !Refreshing(w, sid) && forall t :: t in w.minted && t.sid == Some(sid) ==> Outbid(w, t.ver)
  }

  /** When a bump stores its epoch, a session that has a token is over for good, on every run from
      there, if and only if it is firmly listed, or has no refresh under way and all its tokens are
      outbid by this bump and by every other one under way. */
  lemma BumpEndsSessionsIff(w: World, i: nat, sid: string)
    requires SidsLogged(w) && SidsApart(w) && i in w.writers && w.writers[i].StoreEpoch? && sid in Sids(w.minted)
    ensures OverForGood(Next(w, Resume(i)), sid) <==> ListedFirmly(w, sid) || BumpEnds(w, sid)
  {
    StepKeepsLogged(w, Resume(i));
    StepKeepsApart(w, Resume(i));
    SessionEndsIff(Next(w, Resume(i)), sid);
    BumpBefore(w, i, sid);
  }

  lemma BumpBefore(w: World, i: nat, sid: string)
    requires i in w.writers && w.writers[i].StoreEpoch?
    ensures ListedFirmly(Next(w, Resume(i)), sid) <==> ListedFirmly(w, sid)
    ensures TokensEnded(Next(w, Resume(i)), sid) <==> BumpEnds(w, sid)
  {
    var w1 := Next(w, Resume(i));
    forall ver: nat ensures EndedFirmly(w1, ver) <==> Outbid(w, ver) {
      if EndedFirmly(w1, ver) {
        forall j | j in w.writers && w.writers[j].StoreEpoch? ensures ver < w.writers[j].epoch {
          assert j != i ==> j in w1.writers;
        }
      }
    }
    if ListedFirmly(w1, sid) {
      forall j | j in w.writers ensures !Drops(w.writers[j], sid) {
        assert j != i ==> j in w1.writers;
      }
    }
  }

  /** A refresh that passed the epoch gate before a bump and mints after it carries its session over. */
  lemma RefreshUnderWaySurvivesBump(w: World, i: nat, k: nat) returns (es: seq<Event>)
    requires i in w.writers && w.writers[i].StoreEpoch?
    requires k in w.refreshing && w.refreshing[k].token.sid.Some?
    requires w.refreshing[k].token.sid.value !in w.st.revoked
    ensures ValidRun(Next(w, Resume(i)), es)
    ensures !NoneAccepted(Final(Next(w, Resume(i)), es), w.refreshing[k].token.sid.value)
  {
    es := RefreshSurvives(Next(w, Resume(i)), k);
  }

  /** A bump that was overtaken and stores after another one revives the tokens that one ended. */
  lemma StaleBumpRevives(w: World, i: nat, j: nat, t: Token)
    requires i != j && i in w.writers && j in w.writers && t.sid.Some? && t.sid.value !in w.st.revoked
    requires w.writers[i].StoreEpoch? && w.writers[j].StoreEpoch?
    requires w.writers[j].epoch <= t.ver < w.writers[i].epoch
    ensures var w1 := Next(w, Resume(i));
            !Valid(w1.st, t) && Enabled(w1, Resume(j)) && Valid(Next(w1, Resume(j)).st, t)
  {
  }

  // ----- revoking one session ------------------------------------------------------------------

  /** Revoking one session by name refuses its tokens, and leaves the outstanding tokens of the others
      as they were if and only if it was not the newest login or none of them that was valid carries
      the current epoch. */
  lemma RevokeOneSparesOthersIff(w: World, sid: string)
    ensures forall t :: t in w.minted && t.sid == Some(sid) ==> !Valid(Revoked(w.st, sid), t)
    ensures (forall t :: t in w.minted && t.sid != Some(sid) ==>
               (Valid(Revoked(w.st, sid), t) <==> Valid(w.st, t))) <==>
            !IsNewest(w.st, sid) ||
            !(exists t :: t in w.minted && t.sid != Some(sid) && Valid(w.st, t) && t.ver == w.st.epoch)
  {
    var st' := Revoked(w.st, sid);
    forall t | t in w.minted
      ensures Valid(st', t) <==>
              Valid(w.st, t) && t.sid != Some(sid) && (IsNewest(w.st, sid) ==> t.ver > w.st.epoch)
    {
    }
  }
}
