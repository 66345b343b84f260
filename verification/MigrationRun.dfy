/** The resumable migration worker: counters and cursors persisted together, crashes at any point. */
module MigrationRun {
  import opened Wrappers
  import opened MigrationBatch

  datatype Status = Running | Complete | Error | Cancelled

  /** The persisted row. */
  datatype Row = Row(dryRun: bool, nodeIds: seq<string>, index: nat, cursors: map<string, string>,
                     migrated: nat, skipped: nat, failed: nat, scanned: nat, batchNumber: nat)

  datatype Entry = Entry(node: string, key: string, outcome: Outcome)

  /** A row with its history: every key some counted batch handled, and every node passed over because
      it was not enabled. */
  datatype Ledger = Ledger(row: Row, done: seq<Entry>, passed: set<string>)

  /** Each node's sorted keys; the set of objects does not change during a run. */
  type Listings = map<string, seq<string>>

  function Keys(ls: Listings, node: string): seq<string> {
    if node in ls then ls[node] else []
  }

  function CursorOf(row: Row, node: string): Option<string> {
    if node in row.cursors then Some(row.cursors[node]) else None
  }

  function CurrentPage(ls: Listings, row: Row): Page
    requires row.index < |row.nodeIds|
  {
    var node := row.nodeIds[row.index];
    PageAt(Keys(ls, node), BATCH_LIMIT, CursorOf(row, node))
  }

  /** The row after one batch on the current node. */
  function Advanced(row: Row, r: Report): Row
    requires row.index < |row.nodeIds|
  {
    var node := row.nodeIds[row.index];
    var counted := row.(migrated := row.migrated + r.migrated, skipped := row.skipped + r.skipped,
                        failed := row.failed + r.failed, scanned := row.scanned + r.scanned,
                        batchNumber := row.batchNumber + 1);
    if r.truncated && r.next.Some? then counted.(cursors := row.cursors[node := r.next.value])
    else counted.(index := row.index + 1, cursors := row.cursors - {node})
  }

  function PassedOver(l: Ledger): Ledger
    requires l.row.index < |l.row.nodeIds|
  {
    var node := l.row.nodeIds[l.row.index];
    Ledger(l.row.(index := l.row.index + 1, cursors := l.row.cursors - {node}), l.done, l.passed + {node})
  }

  function Entries(node: string, keys: seq<string>, outcomes: seq<Outcome>): seq<Entry>
    requires |keys| == |outcomes|
  {
    seq(|keys|, i requires 0 <= i < |keys| => Entry(node, keys[i], outcomes[i]))
  }

  function Batched(ls: Listings, l: Ledger, r: Report, outcomes: seq<Outcome>): Ledger
    requires l.row.index < |l.row.nodeIds| && |outcomes| == |CurrentPage(ls, l.row).items|
  {
    Ledger(Advanced(l.row, r),
           l.done + Entries(l.row.nodeIds[l.row.index], CurrentPage(ls, l.row).items, outcomes), l.passed)
  }

  // ----- what a ledger must be -----------------------------------------------------------------

  function OutcomesOf(done: seq<Entry>): seq<Outcome> {
    seq(|done|, i requires 0 <= i < |done| => done[i].outcome)
  }

  /** The keys handled on one node, in order. */
  function KeysDone(done: seq<Entry>, node: string): seq<string> {
    if done == [] then []
    else (if done[0].node == node then [done[0].key] else []) + KeysDone(done[1..], node)
  }

  ghost predicate CountersOk(l: Ledger) {
    && l.row.scanned == |l.done|
    && l.row.migrated == Count(OutcomesOf(l.done), Migrated)
    && l.row.skipped == Count(OutcomesOf(l.done), Skipped)
    && l.row.failed == Count(OutcomesOf(l.done), Failed)
  }

  /** What coverage says about one node of the row. */
  ghost predicate NodeCovered(ls: Listings, l: Ledger, i: nat)
    requires i < |l.row.nodeIds|
  {
    var node := l.row.nodeIds[i];
    if i < l.row.index then node !in l.passed ==> KeysDone(l.done, node) == Keys(ls, node)
    else KeysDone(l.done, node) == if node in l.row.cursors then Before(Keys(ls, node), CursorOf(l.row, node)) else []
  }

  /** Exactly the keys before the cursors have been handled, each once: whole listings of the finished
      nodes, the part before the cursor on the current one, nothing of the others. */
  ghost predicate CoverageOk(ls: Listings, l: Ledger) {
    && l.row.index <= |l.row.nodeIds|
    && (forall i :: 0 <= i < |l.row.nodeIds| ==> NodeCovered(ls, l, i))
    && (forall n :: n in l.row.cursors ==> l.row.index < |l.row.nodeIds| && n == l.row.nodeIds[l.row.index])
  }

  ghost predicate LedgerOk(ls: Listings, l: Ledger) {
    && Distinct(l.row.nodeIds)
    && (forall n :: n in ls ==> Sorted(ls[n]))
    && CountersOk(l) && CoverageOk(ls, l)
  }

  function FreshRow(dryRun: bool, nodeIds: seq<string>): Row {
    Row(dryRun, nodeIds, 0, map[], 0, 0, 0, 0, 0)
  }

  lemma FreshLedgerOk(ls: Listings, dryRun: bool, nodeIds: seq<string>)
    requires Distinct(nodeIds) && forall n :: n in ls ==> Sorted(ls[n])
    ensures LedgerOk(ls, Ledger(FreshRow(dryRun, nodeIds), [], {}))
  {
  }

  // ----- one step keeps the ledger in order ----------------------------------------------------

  lemma {:induction false} KeysDoneConcat(a: seq<Entry>, b: seq<Entry>, node: string)
    ensures KeysDone(a + b, node) == KeysDone(a, node) + KeysDone(b, node)
  {
    if a == [] {
      assert a + b == b;
    } else {
      assert (a + b)[1..] == a[1..] + b;
      KeysDoneConcat(a[1..], b, node);
    }
  }

  lemma {:induction false} KeysDoneEntries(node: string, keys: seq<string>, outcomes: seq<Outcome>, other: string)
    requires |keys| == |outcomes|
    ensures KeysDone(Entries(node, keys, outcomes), other) == if other == node then keys else []
    decreases |keys|
  {
    if keys != [] {
      var es := Entries(node, keys, outcomes);
      assert es[1..] == Entries(node, keys[1..], outcomes[1..]);
      KeysDoneEntries(node, keys[1..], outcomes[1..], other);
      assert keys == [keys[0]] + keys[1..];
    }
  }

  lemma BatchCounters(ls: Listings, l: Ledger, r: Report, outcomes: seq<Outcome>)
    requires CountersOk(l) && l.row.index < |l.row.nodeIds|
    requires ReportsPage(r, CurrentPage(ls, l.row), outcomes)
    ensures CountersOk(Batched(ls, l, r, outcomes))
  {
    var more := Entries(l.row.nodeIds[l.row.index], CurrentPage(ls, l.row).items, outcomes);
    assert OutcomesOf(l.done + more) == OutcomesOf(l.done) + outcomes;
    CountConcat(OutcomesOf(l.done), outcomes, Migrated);
    CountConcat(OutcomesOf(l.done), outcomes, Skipped);
    CountConcat(OutcomesOf(l.done), outcomes, Failed);
  }

  lemma FullPage(keys: seq<string>, cursor: Option<string>)
    requires Sorted(keys) && |After(keys, cursor)| > BATCH_LIMIT
    ensures var next := Some(After(keys, cursor)[BATCH_LIMIT - 1]);
            Before(keys, cursor) + After(keys, cursor)[..BATCH_LIMIT] == Before(keys, next) &&
            |After(keys, next)| < |After(keys, cursor)|
  {
    AfterShorter(keys, cursor);
    PageOfSuffix(keys, After(keys, cursor), BATCH_LIMIT);
  }

  /** The same of any suffix of the listing and any page size. */
  lemma PageOfSuffix(keys: seq<string>, rest: seq<string>, n: nat)
    requires Sorted(keys) && 0 < n < |rest| <= |keys| && rest == keys[|keys| - |rest|..]
    ensures keys[..|keys| - |rest|] + rest[..n] == Before(keys, Some(rest[n - 1]))
    ensures |After(keys, Some(rest[n - 1]))| < |rest|
  {
    var cut := |keys| - |rest|;
    CutAt(keys, cut, n);
    OwnKeyCuts(keys, cut + n - 1);
  }

  lemma OwnKeyCuts(keys: seq<string>, last: nat)
    requires Sorted(keys) && last < |keys|
    ensures Before(keys, Some(keys[last])) == keys[..last + 1]
    ensures |After(keys, Some(keys[last]))| == |keys| - last - 1
  {
    AfterOwnKey(keys, last);
  }

  lemma CutAt(keys: seq<string>, cut: nat, n: nat)
    requires 0 < n && cut + n <= |keys|
    ensures keys[cut..][n - 1] == keys[cut + n - 1]
    ensures keys[..cut] + keys[cut..][..n] == keys[..cut + n]
  {
  }

  /** A page holds the keys from the cursor on, and its own cursor has passed exactly those. */
  lemma PageExtends(keys: seq<string>, cursor: Option<string>)
    requires Sorted(keys)
    ensures var page := PageAt(keys, BATCH_LIMIT, cursor);
            if page.truncated
            then page.next.Some? && Before(keys, cursor) + page.items == Before(keys, page.next) &&
                 |After(keys, page.next)| < |After(keys, cursor)|
            else Before(keys, cursor) + page.items == keys
  {
    if |After(keys, cursor)| > BATCH_LIMIT {
      FullPage(keys, cursor);
    } else {
      AfterShorter(keys, cursor);
    }
  }

  /** A full page has 25 keys, the last one of a node at most that many. */
  lemma PageSize(ls: Listings, row: Row)
    requires row.index < |row.nodeIds|
    ensures var page := CurrentPage(ls, row);
            if page.truncated then |page.items| == 25 else |page.items| <= 25
  {
  }

  /** A batch adds its page to what was done on its node and nothing to any other. */
  lemma BatchKeys(ls: Listings, l: Ledger, r: Report, outcomes: seq<Outcome>, other: string)
    requires l.row.index < |l.row.nodeIds| && |outcomes| == |CurrentPage(ls, l.row).items|
    ensures KeysDone(Batched(ls, l, r, outcomes).done, other) ==
            KeysDone(l.done, other) + if other == l.row.nodeIds[l.row.index] then CurrentPage(ls, l.row).items else []
  {
    var node, items := l.row.nodeIds[l.row.index], CurrentPage(ls, l.row).items;
    KeysDoneConcat(l.done, Entries(node, items, outcomes), other);
    KeysDoneEntries(node, items, outcomes, other);
  }

  lemma BatchCoversNode(ls: Listings, l: Ledger, r: Report, outcomes: seq<Outcome>, i: nat)
    requires LedgerOk(ls, l) && l.row.index < |l.row.nodeIds| && i < |l.row.nodeIds|
    requires ReportsPage(r, CurrentPage(ls, l.row), outcomes)
    ensures NodeCovered(ls, Batched(ls, l, r, outcomes), i)
  {
    var node := l.row.nodeIds[l.row.index];
    assert NodeCovered(ls, l, i);
    BatchKeys(ls, l, r, outcomes, l.row.nodeIds[i]);
    if i == l.row.index {
      PageExtends(Keys(ls, node), CursorOf(l.row, node));
      assert Before(Keys(ls, node), None) == [];
    } else {
      assert l.row.nodeIds[i] != node;
    }
  }

  lemma BatchCoverage(ls: Listings, l: Ledger, r: Report, outcomes: seq<Outcome>)
    requires LedgerOk(ls, l) && l.row.index < |l.row.nodeIds|
    requires ReportsPage(r, CurrentPage(ls, l.row), outcomes)
    ensures CoverageOk(ls, Batched(ls, l, r, outcomes))
  {
    var l' := Batched(ls, l, r, outcomes);
    forall i | 0 <= i < |l'.row.nodeIds| ensures NodeCovered(ls, l', i) {
      BatchCoversNode(ls, l, r, outcomes, i);
    }
  }

  lemma BatchKeepsLedger(ls: Listings, l: Ledger, r: Report, outcomes: seq<Outcome>)
    requires LedgerOk(ls, l) && l.row.index < |l.row.nodeIds|
    requires ReportsPage(r, CurrentPage(ls, l.row), outcomes)
    ensures LedgerOk(ls, Batched(ls, l, r, outcomes))
  {
    BatchCounters(ls, l, r, outcomes);
    BatchCoverage(ls, l, r, outcomes);
  }

  lemma PassKeepsLedger(ls: Listings, l: Ledger)
    requires LedgerOk(ls, l) && l.row.index < |l.row.nodeIds|
    ensures LedgerOk(ls, PassedOver(l))
  {
    var l' := PassedOver(l);
    forall i | 0 <= i < |l'.row.nodeIds| ensures NodeCovered(ls, l', i) {
      assert NodeCovered(ls, l, i);
    }
  }

  // ----- termination ---------------------------------------------------------------------------

  function NodesLeft(row: Row): int {
    |row.nodeIds| - row.index
  }

  function KeysLeft(ls: Listings, row: Row): nat {
    if row.index < |row.nodeIds|
    then |After(Keys(ls, row.nodeIds[row.index]), CursorOf(row, row.nodeIds[row.index]))| else 0
  }

  /** Every batch finishes a node or shortens the current one's remaining listing. */
  lemma BatchProgress(ls: Listings, l: Ledger, r: Report, outcomes: seq<Outcome>)
    requires LedgerOk(ls, l) && l.row.index < |l.row.nodeIds|
    requires ReportsPage(r, CurrentPage(ls, l.row), outcomes)
    ensures var row' := Batched(ls, l, r, outcomes).row;
            row'.batchNumber == l.row.batchNumber + 1 &&
            (NodesLeft(row') < NodesLeft(l.row) ||
             (NodesLeft(row') == NodesLeft(l.row) && KeysLeft(ls, row') < KeysLeft(ls, l.row)))
  {
    var node := l.row.nodeIds[l.row.index];
    PageExtends(Keys(ls, node), CursorOf(l.row, node));
  }

  // ----- an uninterrupted worker ---------------------------------------------------------------

  /** Every key of every scoped node that was enabled has been given to a batch. */
  ghost predicate AllHandled(ls: Listings, l: Ledger) {
    forall i :: 0 <= i < |l.row.nodeIds| && l.row.nodeIds[i] !in l.passed ==>
      KeysDone(l.done, l.row.nodeIds[i]) == Keys(ls, l.row.nodeIds[i])
  }

  lemma LeftLoopHandledAll(ls: Listings, l: Ledger)
    requires CoverageOk(ls, l) && l.row.index == |l.row.nodeIds|
    ensures AllHandled(ls, l)
  {
    forall i | 0 <= i < |l.row.nodeIds| && l.row.nodeIds[i] !in l.passed
      ensures KeysDone(l.done, l.row.nodeIds[i]) == Keys(ls, l.row.nodeIds[i])
    {
      assert NodeCovered(ls, l, i);
    }
  }

  /** Each entry carries what its own key comes to. */
  ghost predicate OwnOutcomes(es: seq<Entry>, dryRun: bool, probe: string -> Result<bool, ()>, rewrite: string -> bool)
  {
    forall k :: 0 <= k < |es| ==> es[k].outcome == OutcomeOf(es[k].key, dryRun, probe, rewrite)
  }

  lemma BatchOutcomes(ls: Listings, l: Ledger, r: Report, from: nat, dryRun: bool,
                      probe: string -> Result<bool, ()>, rewrite: string -> bool)
    requires l.row.index < |l.row.nodeIds| && from <= |l.done|
    requires OwnOutcomes(l.done[from..], dryRun, probe, rewrite)
    ensures var outcomes := Outcomes(CurrentPage(ls, l.row).items, dryRun, probe, rewrite);
            OwnOutcomes(Batched(ls, l, r, outcomes).done[from..], dryRun, probe, rewrite)
  {
    var items := CurrentPage(ls, l.row).items;
    var outcomes := Outcomes(items, dryRun, probe, rewrite);
    var more := Entries(l.row.nodeIds[l.row.index], items, outcomes);
    assert (l.done + more)[from..] == l.done[from..] + more;
  }

  function FinalStatus(row: Row): Status {
    if row.dryRun then Complete else if row.failed > 0 then Error else Complete
  }

  /** One round of the loop on an enabled node. */
  method RunBatch(ls: Listings, l: Ledger, ghost from: nat, probe: string -> Result<bool, ()>, rewrite: string -> bool)
    returns (l': Ledger, failures: nat)
    requires LedgerOk(ls, l) && l.row.index < |l.row.nodeIds|
    requires from <= |l.done| && OwnOutcomes(l.done[from..], l.row.dryRun, probe, rewrite)
    ensures LedgerOk(ls, l') && l.done <= l'.done && l'.passed == l.passed
    ensures l'.row.nodeIds == l.row.nodeIds && l'.row.dryRun == l.row.dryRun
    ensures l'.row.failed == l.row.failed + failures
    ensures OwnOutcomes(l'.done[from..], l.row.dryRun, probe, rewrite)
    ensures NodesLeft(l'.row) < NodesLeft(l.row) ||
            (NodesLeft(l'.row) == NodesLeft(l.row) && KeysLeft(ls, l'.row) < KeysLeft(ls, l.row))
  {
    var node := l.row.nodeIds[l.row.index];
    var report := MigrateNodeClientBatch(
      Keys(ls, node), BATCH_LIMIT, CursorOf(l.row, node), l.row.dryRun, probe, rewrite);
    var outcomes := Outcomes(CurrentPage(ls, l.row).items, l.row.dryRun, probe, rewrite);
    BatchKeepsLedger(ls, l, report, outcomes);
    BatchProgress(ls, l, report, outcomes);
    BatchOutcomes(ls, l, report, from, l.row.dryRun, probe, rewrite);
    l', failures := Batched(ls, l, report, outcomes), report.failed;
  }

  /** The worker loop without a crash, cancellation or failing batch call: it ends; on a normal exit
      everything was handled; it stops early only in a migrate run whose last batch had a failure. */
  method RunWorker(ls: Listings, start: Ledger, enabled: set<string>,
                   probe: string -> Result<bool, ()>, rewrite: string -> bool)
    returns (l: Ledger, status: Status)
    requires LedgerOk(ls, start) && start.row.nodeIds != []
    ensures LedgerOk(ls, l) && start.done <= l.done && l.row.nodeIds == start.row.nodeIds
    ensures l.passed - start.passed !! enabled
    ensures OwnOutcomes(l.done[|start.done|..], start.row.dryRun, probe, rewrite)
    ensures status == Complete || (status == Error && !start.row.dryRun && l.row.failed > 0)
    ensures status == Error ==> AllHandled(ls, l) || l.row.failed > start.row.failed
    ensures status == Complete ==> AllHandled(ls, l) && (start.row.dryRun || l.row.failed == 0)
    ensures status == Complete && !start.row.dryRun ==>
              forall k :: |start.done| <= k < |l.done| ==>
                var key := l.done[k].key; probe(key) == Ok(false) || (probe(key) == Ok(true) && rewrite(key))
  {
    l := start;
    while l.row.index < |l.row.nodeIds|
      invariant LedgerOk(ls, l) && start.done <= l.done
      invariant l.row.nodeIds == start.row.nodeIds && l.row.dryRun == start.row.dryRun
      invariant l.row.failed >= start.row.failed
      invariant l.passed - start.passed !! enabled
      invariant OwnOutcomes(l.done[|start.done|..], start.row.dryRun, probe, rewrite)
      decreases NodesLeft(l.row), KeysLeft(ls, l.row)
    {
      var node := l.row.nodeIds[l.row.index];
      if node !in enabled {
        PassKeepsLedger(ls, l);
        l := PassedOver(l);
      } else {
        var failures;
        l, failures := RunBatch(ls, l, |start.done|, probe, rewrite);
        if !l.row.dryRun && failures > 0 {
          status := Error;
          return;
        }
      }
    }
    LeftLoopHandledAll(ls, l);
    status := FinalStatus(l.row);
    if status == Complete && !start.row.dryRun {
      CompleteMeansDone(l, |start.done|, probe, rewrite);
    }
  }

  lemma {:induction false} CountedSomewhere(outcomes: seq<Outcome>, o: Outcome, k: nat)
    requires k < |outcomes| && outcomes[k] == o
    ensures Count(outcomes, o) > 0
  {
    if k > 0 {
      CountedSomewhere(outcomes[1..], o, k - 1);
    }
  }

  lemma CompleteMeansDone(l: Ledger, from: nat, probe: string -> Result<bool, ()>, rewrite: string -> bool)
    requires CountersOk(l) && l.row.failed == 0 && from <= |l.done|
    requires OwnOutcomes(l.done[from..], false, probe, rewrite)
    ensures forall k :: from <= k < |l.done| ==>
              var key := l.done[k].key; probe(key) == Ok(false) || (probe(key) == Ok(true) && rewrite(key))
  {
    forall k | from <= k < |l.done| ensures !KeyFails(l.done[k].key, false, probe, rewrite) {
      assert l.done[from..][k - from] == l.done[k];
      if OutcomesOf(l.done)[k] == Failed {
        CountedSomewhere(OutcomesOf(l.done), Failed, k);
      }
    }
  }

  // ----- crashes and resumption ----------------------------------------------------------------

  datatype Phase = AtLoop | Unsaved(lastFailed: nat) | Failing

  datatype Worker = Worker(ledger: Ledger, enabled: set<string>, phase: Phase)

  /** `exit` is the ledger a worker held when it left its loop normally; `lagging` says that the last
      attempt to persist failed. */
  datatype World = World(disk: Ledger, status: Status, worker: Option<Worker>, exit: Option<Ledger>, lagging: bool)

  datatype Event =
    | Start(enabled: set<string>)
    | Pass
    | Batch(report: Report, outcomes: seq<Outcome>)
    | Persist(ok: bool)
    | FinishFailed(ok: bool)
    | BatchError(ok: bool)
    | Cancel(ok: bool)
    | Crash
    | Leave(ok: bool)

  ghost predicate Enabled(ls: Listings, w: World, e: Event) {
    match e
    case Start(_) => w.worker.None? && w.status == Running
    case Pass => AtNode(w) && CurrentNode(w) !in w.worker.value.enabled
    case Batch(r, outcomes) =>
      AtNode(w) && CurrentNode(w) in w.worker.value.enabled &&
      ReportsPage(r, CurrentPage(ls, w.worker.value.ledger.row), outcomes)
    case Persist(_) => w.worker.Some? && w.worker.value.phase.Unsaved?
    case FinishFailed(_) => w.worker.Some? && w.worker.value.phase.Failing?
    case BatchError(_) => AtNode(w)
    case Cancel(_) => AtNode(w)
    case Crash => w.worker.Some?
    case Leave(_) =>
      w.worker.Some? && w.worker.value.phase.AtLoop? &&
      w.worker.value.ledger.row.index == |w.worker.value.ledger.row.nodeIds|
  }

  predicate AtNode(w: World) {
    w.worker.Some? && w.worker.value.phase.AtLoop? &&
    w.worker.value.ledger.row.index < |w.worker.value.ledger.row.nodeIds|
  }

  function CurrentNode(w: World): string
    requires AtNode(w)
  {
    w.worker.value.ledger.row.nodeIds[w.worker.value.ledger.row.index]
  }

  ghost function Next(ls: Listings, w: World, e: Event): World
    requires Enabled(ls, w, e)
  {
    match e
    case Start(enabled) =>
      if w.disk.row.nodeIds == [] then w.(status := Error)
      else w.(worker := Some(Worker(w.disk, enabled, AtLoop)), lagging := false)
    case Pass => w.(worker := Some(w.worker.value.(ledger := PassedOver(w.worker.value.ledger))))
    case Batch(r, outcomes) =>
      w.(worker := Some(w.worker.value.(ledger := Batched(ls, w.worker.value.ledger, r, outcomes),
                                        phase := Unsaved(r.failed))))
    case Persist(ok) =>
      var k := w.worker.value;
      var phase := if !k.ledger.row.dryRun && k.phase.lastFailed > 0 then Failing else AtLoop;
      World(if ok then k.ledger else w.disk, w.status, Some(k.(phase := phase)), w.exit, !ok)
    case FinishFailed(ok) => Finished(w, Error, ok)
    case BatchError(ok) => Finished(w, Error, ok)
    case Cancel(ok) => Finished(w, Cancelled, ok)
    case Crash => w.(worker := None)
    case Leave(ok) =>
      var done := Finished(w, FinalStatus(w.worker.value.ledger.row), ok);
      if ok then done.(exit := Some(w.worker.value.ledger)) else done
  }

  /** The worker writes a final status, if the write gets through, and ends. */
  function Finished(w: World, status: Status, ok: bool): World {
    w.(status := if ok then status else w.status, worker := None)
  }

  ghost predicate Inv(ls: Listings, w: World) {
    && LedgerOk(ls, w.disk)
    && (w.worker.Some? ==>
          var l := w.worker.value.ledger;
          LedgerOk(ls, l) && l.row.nodeIds == w.disk.row.nodeIds && l.row.dryRun == w.disk.row.dryRun &&
          l.row.nodeIds != [] && w.disk.done <= l.done &&
          (!w.lagging && !w.worker.value.phase.Unsaved? ==> l.done == w.disk.done))
    && (w.status == Complete ==>
          w.exit.Some? && LedgerOk(ls, w.exit.value) && AllHandled(ls, w.exit.value) &&
          w.exit.value.row.nodeIds == w.disk.row.nodeIds && w.disk.done <= w.exit.value.done &&
          (w.disk.row.dryRun || w.exit.value.row.failed == 0) &&
          (!w.lagging ==> w.exit.value.done == w.disk.done) && w.worker.None?)
  }

  lemma StepKeepsInv(ls: Listings, w: World, e: Event)
    requires Inv(ls, w) && Enabled(ls, w, e)
    ensures Inv(ls, Next(ls, w, e))
  {
    match e
    case Batch(r, outcomes) => BatchKeepsLedger(ls, w.worker.value.ledger, r, outcomes);
    case Pass => PassKeepsLedger(ls, w.worker.value.ledger);
    case Leave(_) => LeftLoopHandledAll(ls, w.worker.value.ledger);
    case _ =>
  }

  ghost predicate ValidRun(ls: Listings, w: World, es: seq<Event>)
    decreases |es|
  {
    es != [] ==> Enabled(ls, w, es[0]) && ValidRun(ls, Next(ls, w, es[0]), es[1..])
  }

  ghost function Final(ls: Listings, w: World, es: seq<Event>): World
    requires ValidRun(ls, w, es)
    decreases |es|
  {
    if es == [] then w else Final(ls, Next(ls, w, es[0]), es[1..])
  }

  lemma {:induction false} RunKeepsInv(ls: Listings, w: World, es: seq<Event>)
    requires Inv(ls, w) && ValidRun(ls, w, es)
    ensures Inv(ls, Final(ls, w, es))
    decreases |es|
  {
    if es != [] {
      StepKeepsInv(ls, w, es[0]);
      RunKeepsInv(ls, Next(ls, w, es[0]), es[1..]);
    }
  }

  function Spawned(dryRun: bool, nodeIds: seq<string>): World {
    World(Ledger(FreshRow(dryRun, nodeIds), [], {}), Running, None, None, false)
  }

  /** Over any run with crashes, resumptions, failing batches and failing saves, the persisted counters
      are the tallies of exactly the keys before the persisted cursors; a run that ends Complete gave
      every key of every node that was not disabled to a batch, a migrate run without a failure; and
      unless the last save failed the persisted counters are those of that exit. */
  lemma CrashResumeAccounting(ls: Listings, dryRun: bool, nodeIds: seq<string>, es: seq<Event>)
    requires Distinct(nodeIds) && forall n :: n in ls ==> Sorted(ls[n])
    requires ValidRun(ls, Spawned(dryRun, nodeIds), es)
    ensures var w := Final(ls, Spawned(dryRun, nodeIds), es);
            && CountersOk(w.disk) && CoverageOk(ls, w.disk)
            && (w.status == Complete ==>
                  w.exit.Some? && CountersOk(w.exit.value) && AllHandled(ls, w.exit.value) &&
                  (w.disk.row.dryRun || w.exit.value.row.failed == 0) &&
                  (!w.lagging ==>
                     w.disk.row.migrated == w.exit.value.row.migrated &&
                     w.disk.row.skipped == w.exit.value.row.skipped &&
                     w.disk.row.failed == w.exit.value.row.failed &&
                     w.disk.row.scanned == w.exit.value.row.scanned))
  {
    FreshLedgerOk(ls, dryRun, nodeIds);
    RunKeepsInv(ls, Spawned(dryRun, nodeIds), es);
  }

  /** A node enabled at every start of a worker is never passed over. */
  lemma {:induction false} EnabledNodesNeverPassed(ls: Listings, w: World, es: seq<Event>, node: string)
    requires ValidRun(ls, w, es)
    requires forall k :: 0 <= k < |es| && es[k].Start? ==> node in es[k].enabled
    requires node !in w.disk.passed && (w.exit.Some? ==> node !in w.exit.value.passed)
    requires w.worker.Some? ==> node in w.worker.value.enabled && node !in w.worker.value.ledger.passed
    ensures var w' := Final(ls, w, es);
            node !in w'.disk.passed && (w'.exit.Some? ==> node !in w'.exit.value.passed)
    decreases |es|
  {
    if es != [] {
      assert forall k :: 0 <= k < |es[1..]| ==> es[1..][k] == es[k + 1];
      EnabledNodesNeverPassed(ls, Next(ls, w, es[0]), es[1..], node);
    }
  }

  /** The row's counters always add up to the number of keys scanned. */
  lemma CountersAddUp(ls: Listings, l: Ledger)
    requires LedgerOk(ls, l)
    ensures l.row.migrated + l.row.skipped + l.row.failed == l.row.scanned
  {
    CountsAddUp(OutcomesOf(l.done));
  }
}
