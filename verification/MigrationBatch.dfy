/** Ordered paged listings of a storage node, and one client-side migration batch over a page. */
module MigrationBatch {
  import opened Wrappers

  // ----- listings ------------------------------------------------------------------------------

  /** Lexicographic order of object keys. */
  predicate Less(a: string, b: string) {
    b != [] && (a == [] || a[0] < b[0] || (a[0] == b[0] && Less(a[1..], b[1..])))
  }

  ghost predicate Sorted(keys: seq<string>) {
    forall i, j :: 0 <= i < j < |keys| ==> Less(keys[i], keys[j])
  }

  /** The keys a listing still has to give after a cursor. */
  function After(keys: seq<string>, start: Option<string>): seq<string> {
    if start.None? || keys == [] then keys
    else if Less(start.value, keys[0]) then keys
    else After(keys[1..], start)
  }

  /** The keys a cursor has passed. */
  function Before(keys: seq<string>, start: Option<string>): seq<string>
  {
    AfterShorter(keys, start);
    keys[..|keys| - |After(keys, start)|]
  }

  lemma {:induction false} AfterShorter(keys: seq<string>, start: Option<string>)
    ensures |After(keys, start)| <= |keys| && After(keys, start) == keys[|keys| - |After(keys, start)|..]
    decreases |keys|
  {
    if start.Some? && keys != [] && !Less(start.value, keys[0]) {
      AfterShorter(keys[1..], start);
    }
  }

  lemma {:induction false} LessAsymmetric(a: string, b: string)
    requires Less(a, b)
    ensures !Less(b, a)
  {
    if a != [] && a[0] == b[0] {
      LessAsymmetric(a[1..], b[1..]);
    }
  }

  lemma {:induction false} LessIrreflexive(a: string)
    ensures !Less(a, a)
  {
    if a != [] {
      LessIrreflexive(a[1..]);
    }
  }

  /** A cursor taken from the listing has passed exactly the keys up to and including itself. */
  lemma {:induction false} AfterOwnKey(keys: seq<string>, i: nat)
    requires Sorted(keys) && i < |keys|
    ensures After(keys, Some(keys[i])) == keys[i + 1..]
    decreases i
  {
    if i == 0 {
      LessIrreflexive(keys[0]);
      if |keys| > 1 {
        assert Less(keys[0], keys[1]);
      }
    } else {
      assert Less(keys[0], keys[i]);
      LessAsymmetric(keys[0], keys[i]);
      AfterOwnKey(keys[1..], i - 1);
    }
  }

  datatype Page = Page(items: seq<string>, truncated: bool, next: Option<string>)

  const BATCH_LIMIT: nat := 25

  /** The listing contract: the first `limit` keys after the cursor, and a cursor if there are more. */
  function PageAt(keys: seq<string>, limit: nat, start: Option<string>): Page
    requires limit > 0
  {
    var rest := After(keys, start);
    if |rest| > limit then Page(rest[..limit], true, Some(rest[limit - 1])) else Page(rest, false, None)
  }

  // ----- one batch -----------------------------------------------------------------------------

  datatype Outcome = Migrated | Skipped | Failed

  datatype Report = Report(scanned: nat, migrated: nat, skipped: nat, failed: nat, failures: seq<string>,
                           truncated: bool, next: Option<string>)

  function Count(outcomes: seq<Outcome>, o: Outcome): nat {
    if outcomes == [] then 0 else (if outcomes[0] == o then 1 else 0) + Count(outcomes[1..], o)
  }

  lemma {:induction false} CountConcat(a: seq<Outcome>, b: seq<Outcome>, o: Outcome)
    ensures Count(a + b, o) == Count(a, o) + Count(b, o)
  {
    if a == [] {
      assert a + b == b;
    } else {
      assert (a + b)[1..] == a[1..] + b;
      CountConcat(a[1..], b, o);
    }
  }

  lemma {:induction false} CountsAddUp(outcomes: seq<Outcome>)
    ensures Count(outcomes, Migrated) + Count(outcomes, Skipped) + Count(outcomes, Failed) == |outcomes|
  {
    if outcomes != [] {
      CountsAddUp(outcomes[1..]);
    }
  }

  /** What happens to one key: `probe` says whether it needs work or fails, `rewrite` whether it worked. */
  function OutcomeOf(key: string, dryRun: bool, probe: string -> Result<bool, ()>, rewrite: string -> bool): Outcome {
    match probe(key)
    case Err(_) => Failed
    case Ok(needed) => if !needed then Skipped else if dryRun || rewrite(key) then Migrated else Failed
  }

  function Outcomes(keys: seq<string>, dryRun: bool, probe: string -> Result<bool, ()>, rewrite: string -> bool)
    : seq<Outcome>
  {
    seq(|keys|, i requires 0 <= i < |keys| => OutcomeOf(keys[i], dryRun, probe, rewrite))
  }

  /** The key cannot be inspected, or needs work in a real run and its rewrite fails. */
  predicate KeyFails(key: string, dryRun: bool, probe: string -> Result<bool, ()>, rewrite: string -> bool) {
    probe(key).Err? || (probe(key) == Ok(true) && !dryRun && !rewrite(key))
  }

  /** The failing keys, in order. */
  function FailingKeys(keys: seq<string>, dryRun: bool, probe: string -> Result<bool, ()>, rewrite: string -> bool)
    : (failing: seq<string>)
    ensures forall k :: k in failing <==> k in keys && KeyFails(k, dryRun, probe, rewrite)
  {
    if keys == [] then []
    else
      var last := keys[|keys| - 1];
      FailingKeys(keys[..|keys| - 1], dryRun, probe, rewrite) +
      if KeyFails(last, dryRun, probe, rewrite) then [last] else []
  }

  function FirstTwenty(keys: seq<string>): seq<string> {
    if |keys| <= 20 then keys else keys[..20]
  }

  ghost predicate Distinct<T>(xs: seq<T>) {
    forall i, j :: 0 <= i < j < |xs| ==> xs[i] != xs[j]
  }

  lemma CountSnoc(a: seq<Outcome>, o: Outcome, x: Outcome)
    ensures Count(a + [o], x) == Count(a, x) + if x == o then 1 else 0
  {
    CountConcat(a, [o], x);
  }

  lemma OutcomesSnoc(keys: seq<string>, dryRun: bool, probe: string -> Result<bool, ()>, rewrite: string -> bool)
    requires keys != []
    ensures Outcomes(keys, dryRun, probe, rewrite) ==
            Outcomes(keys[..|keys| - 1], dryRun, probe, rewrite) + [OutcomeOf(keys[|keys| - 1], dryRun, probe, rewrite)]
  {
  }

  /** The keys that came to an outcome. */
  function KeysWith(keys: seq<string>, all: seq<Outcome>, o: Outcome): set<string>
    requires |keys| == |all|
    decreases |keys|
  {
    if keys == [] then {} else KeysWith(keys[1..], all[1..], o) + if all[0] == o then {keys[0]} else {}
  }

  lemma {:induction false} KeysWithAre(keys: seq<string>, all: seq<Outcome>, o: Outcome, k: string)
    requires |keys| == |all|
    ensures k in KeysWith(keys, all, o) <==> exists i :: 0 <= i < |keys| && keys[i] == k && all[i] == o
    decreases |keys|
  {
    if keys != [] {
      KeysWithAre(keys[1..], all[1..], o, k);
      if i :| 0 <= i < |keys| && keys[i] == k && all[i] == o {
        assert i > 0 ==> keys[1..][i - 1] == k && all[1..][i - 1] == o;
      }
    }
  }

  lemma {:induction false} KeysWithListed(keys: seq<string>, all: seq<Outcome>, o: Outcome)
    requires |keys| == |all|
    ensures forall k :: k in KeysWith(keys, all, o) ==> k in keys
    decreases |keys|
  {
    if keys != [] {
      KeysWithListed(keys[1..], all[1..], o);
    }
  }

  lemma DistinctTail(keys: seq<string>)
    requires Distinct(keys) && keys != []
    ensures Distinct(keys[1..]) && keys[0] !in keys[1..]
  {
  }

  lemma {:induction false} CountByKey(keys: seq<string>, all: seq<Outcome>, o: Outcome)
    requires Distinct(keys) && |keys| == |all|
    ensures Count(all, o) == |KeysWith(keys, all, o)|
    decreases |keys|
  {
    if keys != [] {
      DistinctTail(keys);
      CountByKey(keys[1..], all[1..], o);
      KeysWithListed(keys[1..], all[1..], o);
    }
  }

  function WithOutcome(keys: seq<string>, dryRun: bool, probe: string -> Result<bool, ()>,
                       rewrite: string -> bool, o: Outcome): set<string> {
    set k | k in keys && OutcomeOf(k, dryRun, probe, rewrite) == o
  }

  lemma CountWith(keys: seq<string>, dryRun: bool, probe: string -> Result<bool, ()>, rewrite: string -> bool,
                  o: Outcome)
    requires Distinct(keys)
    ensures Count(Outcomes(keys, dryRun, probe, rewrite), o) == |WithOutcome(keys, dryRun, probe, rewrite, o)|
  {
    var all, chosen := Outcomes(keys, dryRun, probe, rewrite), WithOutcome(keys, dryRun, probe, rewrite, o);
    CountByKey(keys, all, o);
    forall k ensures k in KeysWith(keys, all, o) <==> k in chosen {
      KeysWithAre(keys, all, o, k);
      if k in chosen {
        var i :| 0 <= i < |keys| && keys[i] == k;
        assert all[i] == o;
      }
    }
    assert KeysWith(keys, all, o) == chosen;
  }

  /** What each outcome means, in terms of the probe and the rewrite alone. */
  lemma OutcomesByKey(keys: seq<string>, dryRun: bool, probe: string -> Result<bool, ()>, rewrite: string -> bool)
    requires Distinct(keys)
    ensures var all := Outcomes(keys, dryRun, probe, rewrite);
            && Count(all, Skipped) == |set k | k in keys && probe(k) == Ok(false)|
            && Count(all, Failed) == |set k | k in keys && KeyFails(k, dryRun, probe, rewrite)|
            && Count(all, Migrated) == |set k | k in keys && probe(k) == Ok(true) && (dryRun || rewrite(k))|
  {
    CountWith(keys, dryRun, probe, rewrite, Skipped);
    CountWith(keys, dryRun, probe, rewrite, Failed);
    CountWith(keys, dryRun, probe, rewrite, Migrated);
    assert WithOutcome(keys, dryRun, probe, rewrite, Skipped) == set k | k in keys && probe(k) == Ok(false);
    assert WithOutcome(keys, dryRun, probe, rewrite, Failed) ==
           set k | k in keys && KeyFails(k, dryRun, probe, rewrite);
    assert WithOutcome(keys, dryRun, probe, rewrite, Migrated) ==
           set k | k in keys && probe(k) == Ok(true) && (dryRun || rewrite(k));
  }

  ghost predicate ReportsPage(r: Report, page: Page, outcomes: seq<Outcome>) {
    && r.scanned == |page.items| == |outcomes|
    && r.migrated == Count(outcomes, Migrated) && r.skipped == Count(outcomes, Skipped)
    && r.failed == Count(outcomes, Failed)
    && r.truncated == page.truncated && r.next == page.next
  }

  method MigrateNodeClientBatch(keys: seq<string>, limit: nat, start: Option<string>, dryRun: bool,
                                probe: string -> Result<bool, ()>, rewrite: string -> bool) returns (r: Report)
    requires limit > 0
    ensures var page := PageAt(keys, limit, start);
            && ReportsPage(r, page, Outcomes(page.items, dryRun, probe, rewrite))
            && r.failures == FirstTwenty(FailingKeys(page.items, dryRun, probe, rewrite))
            && (Distinct(page.items) ==> TalliesKeys(r, page.items, dryRun, probe, rewrite))
  {
    var page := PageAt(keys, limit, start);
    r := ReportOn(page, dryRun, probe, rewrite);
    assert page.items[..|page.items|] == page.items;
    if Distinct(page.items) {
      CountsAreKeys(r, page.items, dryRun, probe, rewrite);
    }
  }

  method ReportOn(page: Page, dryRun: bool, probe: string -> Result<bool, ()>, rewrite: string -> bool)
    returns (r: Report)
    ensures Tallies(r, page, |page.items|, dryRun, probe, rewrite)
  {
    r := Report(|page.items|, 0, 0, 0, [], page.truncated, page.next);
    for i := 0 to |page.items|
      invariant Tallies(r, page, i, dryRun, probe, rewrite)
    {
      var key := page.items[i];
      TalliesNext(r, page, i, dryRun, probe, rewrite);
      var probed := probe(key);
      if probed.Err? {
        r := Noted(r, key);
      } else if !probed.value {
        r := r.(skipped := r.skipped + 1);
      } else if dryRun || rewrite(key) {
        r := r.(migrated := r.migrated + 1);
      } else {
        r := Noted(r, key);
      }
    }
  }

  lemma CountsAreKeys(r: Report, items: seq<string>, dryRun: bool, probe: string -> Result<bool, ()>,
                      rewrite: string -> bool)
    requires Distinct(items) && Counts(r, Outcomes(items, dryRun, probe, rewrite))
    ensures TalliesKeys(r, items, dryRun, probe, rewrite)
  {
    OutcomesByKey(items, dryRun, probe, rewrite);
    assert (set k | k in items && KeyFails(k, dryRun, probe, rewrite)) ==
           set k | k in items && (probe(k).Err? || (probe(k) == Ok(true) && !dryRun && !rewrite(k)));
  }

  /** Skipped are the keys that need nothing, failed those that cannot be inspected or, in a real run,
      rewritten, and migrated the others. */
  ghost predicate TalliesKeys(r: Report, items: seq<string>, dryRun: bool, probe: string -> Result<bool, ()>,
                              rewrite: string -> bool) {
    && r.skipped == |set k | k in items && probe(k) == Ok(false)|
    && r.failed == |set k | k in items && (probe(k).Err? || (probe(k) == Ok(true) && !dryRun && !rewrite(k)))|
    && r.migrated == |set k | k in items && probe(k) == Ok(true) && (dryRun || rewrite(k))|
  }

  /** The report after the first `i` keys of the page. */
  ghost predicate Tallies(r: Report, page: Page, i: nat, dryRun: bool, probe: string -> Result<bool, ()>,
                          rewrite: string -> bool)
    requires i <= |page.items|
  {
    && r.scanned == |page.items| && r.truncated == page.truncated && r.next == page.next
    && Counts(r, Outcomes(page.items[..i], dryRun, probe, rewrite))
    && r.failures == FirstTwenty(FailingKeys(page.items[..i], dryRun, probe, rewrite))
  }

  ghost predicate Counts(r: Report, all: seq<Outcome>) {
    r.migrated == Count(all, Migrated) && r.skipped == Count(all, Skipped) && r.failed == Count(all, Failed)
  }

  function Tallied(r: Report, key: string, o: Outcome): Report {
    match o
    case Migrated => r.(migrated := r.migrated + 1)
    case Skipped => r.(skipped := r.skipped + 1)
    case Failed => Noted(r, key)
  }

  lemma CountsNext(r: Report, key: string, all: seq<Outcome>, o: Outcome)
    requires Counts(r, all)
    ensures Counts(Tallied(r, key, o), all + [o])
  {
    CountSnoc(all, o, Migrated);
    CountSnoc(all, o, Skipped);
    CountSnoc(all, o, Failed);
  }

  lemma FirstTwentySnoc(failing: seq<string>, key: string)
    ensures FirstTwenty(failing + [key]) ==
            if |FirstTwenty(failing)| < 20 then FirstTwenty(failing) + [key] else FirstTwenty(failing)
  {
  }

  lemma FailingSnoc(keys: seq<string>, dryRun: bool, probe: string -> Result<bool, ()>, rewrite: string -> bool)
    requires keys != []
    ensures var key := keys[|keys| - 1];
            FailingKeys(keys, dryRun, probe, rewrite) ==
            FailingKeys(keys[..|keys| - 1], dryRun, probe, rewrite) +
            if OutcomeOf(key, dryRun, probe, rewrite) == Failed then [key] else []
  {
  }

  lemma FailuresNext(r: Report, key: string, o: Outcome, failing: seq<string>)
    requires r.failures == FirstTwenty(failing)
    ensures Tallied(r, key, o).failures == FirstTwenty(failing + if o == Failed then [key] else [])
  {
    if o == Failed {
      FirstTwentySnoc(failing, key);
    } else {
      assert failing + [] == failing;
    }
  }

  lemma TalliesNext(r: Report, page: Page, i: nat, dryRun: bool, probe: string -> Result<bool, ()>,
                    rewrite: string -> bool)
    requires i < |page.items| && Tallies(r, page, i, dryRun, probe, rewrite)
    ensures var key := page.items[i];
            Tallies(Tallied(r, key, OutcomeOf(key, dryRun, probe, rewrite)), page, i + 1, dryRun, probe, rewrite)
  {
    var key, o, seen := page.items[i], OutcomeOf(page.items[i], dryRun, probe, rewrite), page.items[..i + 1];
    assert seen[..i] == page.items[..i];
    OutcomesSnoc(seen, dryRun, probe, rewrite);
    CountsNext(r, key, Outcomes(page.items[..i], dryRun, probe, rewrite), o);
    FailingSnoc(seen, dryRun, probe, rewrite);
    FailuresNext(r, key, o, FailingKeys(page.items[..i], dryRun, probe, rewrite));
  }

  /** One more failure; only the first twenty keep their key. */
  function Noted(r: Report, key: string): Report {
    r.(failed := r.failed + 1, failures := if |r.failures| < 20 then r.failures + [key] else r.failures)
  }
}
