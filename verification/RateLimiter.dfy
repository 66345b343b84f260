/** The per-key rolling-window rate limiter. Times are nanoseconds of a monotone clock. */
module RateLimiter {
  import opened Wrappers

  const NANOS_PER_SEC: nat := 1_000_000_000

  function Age(now: nat, t: nat): nat {
    if now < t then 0 else now - t
  }

  /** The hits still inside the window. */
  function Live(hits: seq<nat>, window: nat, now: nat): seq<nat> {
    if hits == [] then []
    else (if Age(now, hits[0]) < window then [hits[0]] else []) + Live(hits[1..], window, now)
  }

  function Oldest(hits: seq<nat>): nat
    requires hits != []
  {
    if |hits| == 1 || hits[0] <= Oldest(hits[1..]) then hits[0] else Oldest(hits[1..])
  }

  /** Whole seconds until the oldest hit leaves, at least one. */
  function RetryAfter(hits: seq<nat>, window: nat, now: nat): nat
    requires hits != []
  {
    var age := Age(now, Oldest(hits));
    var secs := if age >= window then 0 else (window - age) / NANOS_PER_SEC;
    if secs < 1 then 1 else secs
  }

  datatype LimitError = RateLimited(retryAfterSecs: nat) | EmptyAtCap

  /** One key's hits and the answer after a request at `now`. */
  function Enforced(hits: seq<nat>, max: nat, window: nat, now: nat): (seq<nat>, Result<(), LimitError>) {
    var live := Live(hits, window, now);
    if |live| < max then (live + [now], Ok(()))
    else if live == [] then (live, Err(EmptyAtCap))
    else (live, Err(RateLimited(RetryAfter(live, window, now))))
  }

  datatype Snapshot = Snapshot(limit: nat, used: nat, remaining: nat, windowSecs: nat, retryAfterSecs: Option<nat>)

  function HitsOf(m: map<string, seq<nat>>, key: string): seq<nat> {
    if key in m then m[key] else []
  }

  class PerKeyRateLimiter {
    const max: nat
    const window: nat
    var hits: map<string, seq<nat>>

    constructor (max: nat, window: nat)
      ensures this.max == max && this.window == window && hits == map[]
    {
      this.max, this.window := max, window;
      hits := map[];
    }

    /** `retain`: keeps the live hits, in order. */
    method Retained(entries: seq<nat>, now: nat) returns (kept: seq<nat>)
      ensures kept == Live(entries, window, now)
    {
      kept := [];
      var i := 0;
      while i < |entries|
        invariant i <= |entries| && kept == Live(entries[..i], window, now)
      {
        assert entries[..i + 1] == entries[..i] + [entries[i]];
        LiveConcat(entries[..i], [entries[i]], window, now);
        if Age(now, entries[i]) < window {
          kept := kept + [entries[i]];
        }
        i := i + 1;
      }
      assert entries[..i] == entries;
    }

    method Enforce(key: string, now: nat) returns (r: Result<(), LimitError>)
      modifies this`hits
      ensures (hits, r) == (old(hits)[key := Enforced(HitsOf(old(hits), key), max, window, now).0],
                            Enforced(HitsOf(old(hits), key), max, window, now).1)
    {
      var entries := if key in hits then hits[key] else [];
      entries := Retained(entries, now);
      hits := hits[key := entries];
      if |entries| >= max {
        if entries == [] {
          return Err(EmptyAtCap);
        }
        return Err(RateLimited(RetryAfter(entries, window, now)));
      }
      hits := hits[key := entries + [now]];
      assert hits == old(hits)[key := entries + [now]];
      r := Ok(());
    }

    /** Reading usage records nothing and agrees with what a request at the same instant would get. */
    method Peek(key: string, now: nat) returns (s: Snapshot)
      ensures s.limit == max && s.used == |Live(HitsOf(hits, key), window, now)|
      ensures s.remaining > 0 <==> Enforced(HitsOf(hits, key), max, window, now).1.Ok?
      ensures s.remaining + s.used >= max && (s.used <= max ==> s.remaining + s.used == max)
      ensures s.retryAfterSecs ==
              match Enforced(HitsOf(hits, key), max, window, now).1
              case Err(RateLimited(secs)) => Some(secs)
              case _ => None
    {
      var entries := if key in hits then hits[key] else [];
      var live := Retained(entries, now);
      var used := |live|;
      var remaining := if used < max then max - used else 0;
      var retry := if used >= max && live != [] then Some(RetryAfter(live, window, now)) else None;
      s := Snapshot(max, used, remaining, window / NANOS_PER_SEC, retry);
    }
  }

  // ----- sorted histories ----------------------------------------------------------------------

  ghost predicate Sorted(ts: seq<nat>) {
    forall i, j :: 0 <= i <= j < |ts| ==> ts[i] <= ts[j]
  }

  ghost predicate UpTo(ts: seq<nat>, now: nat) {
    forall i :: 0 <= i < |ts| ==> ts[i] <= now
  }

  /** In a sorted history the live hits are a suffix. */
  lemma {:induction false} LiveIsSuffix(ts: seq<nat>, window: nat, now: nat)
    requires Sorted(ts) && UpTo(ts, now)
    ensures |Live(ts, window, now)| <= |ts|
    ensures Live(ts, window, now) == ts[|ts| - |Live(ts, window, now)|..]
    ensures forall i :: 0 <= i < |ts| - |Live(ts, window, now)| ==> now - ts[i] >= window
    ensures forall i :: |ts| - |Live(ts, window, now)| <= i < |ts| ==> now - ts[i] < window
  {
    if ts != [] {
      LiveIsSuffix(ts[1..], window, now);
      if now - ts[0] < window {
        assert forall i :: 0 <= i < |ts[1..]| ==> now - ts[1..][i] < window;
        assert Live(ts[1..], window, now) == ts[1..];
        assert ts == [ts[0]] + ts[1..];
      }
    }
  }

  /** Pruning twice is pruning at the later time. */
  lemma {:induction false} LiveLive(ts: seq<nat>, window: nat, t: nat, now: nat)
    requires t <= now
    ensures Live(Live(ts, window, t), window, now) == Live(ts, window, now)
    decreases |ts|
  {
    if ts != [] {
      LiveLive(ts[1..], window, t, now);
      var rest := Live(ts[1..], window, t);
      if Age(t, ts[0]) < window {
        assert ([ts[0]] + rest)[1..] == rest;
      } else {
        assert [] + rest == rest;
      }
    }
  }

  lemma {:induction false} LiveConcat(a: seq<nat>, b: seq<nat>, window: nat, now: nat)
    ensures Live(a + b, window, now) == Live(a, window, now) + Live(b, window, now)
    decreases |a|
  {
    if a == [] {
      assert a + b == b;
    } else {
      assert (a + b)[1..] == a[1..] + b;
      LiveConcat(a[1..], b, window, now);
    }
  }

  // ----- runs ----------------------------------------------------------------------------------

  datatype Request = Request(key: string, now: nat)

  /** The limiter with, per key, every accepted request so far and the time of the last request. */
  datatype World = World(
    hits: map<string, seq<nat>>, accepted: map<string, seq<nat>>, touched: map<string, nat>, clock: nat)

  function Next(w: World, max: nat, window: nat, q: Request): World {
    var (hits, r) := Enforced(HitsOf(w.hits, q.key), max, window, q.now);
    World(w.hits[q.key := hits],
          w.accepted[q.key := HitsOf(w.accepted, q.key) + if r.Ok? then [q.now] else []],
          w.touched[q.key := q.now], q.now)
  }

  /** Any `max` + 1 accepted requests in a row span at least a window. */
  ghost predicate Spaced(ts: seq<nat>, max: nat, window: nat) {
    forall i, j :: 0 <= i && i + max == j < |ts| ==> ts[j] - ts[i] >= window
  }

  /** What is kept of a key is exactly its accepted requests still inside the window when last touched. */
  ghost predicate Tracks(hits: seq<nat>, ts: seq<nat>, t: nat, max: nat, window: nat) {
    && Sorted(ts) && UpTo(ts, t)
    && (window > 0 ==> hits == Live(ts, window, t))
    && Spaced(ts, max, window)
  }

  ghost predicate KeyOk(w: World, max: nat, window: nat, key: string) {
    LastTouch(w, key) <= w.clock &&
    Tracks(HitsOf(w.hits, key), HitsOf(w.accepted, key), LastTouch(w, key), max, window)
  }

  function LastTouch(w: World, key: string): nat {
    if key in w.touched then w.touched[key] else 0
  }

  ghost predicate Inv(w: World, max: nat, window: nat) {
    forall key :: KeyOk(w, max, window, key)
  }

  lemma {:induction false} NothingLiveWithoutWindow(ts: seq<nat>, now: nat)
    ensures Live(ts, 0, now) == []
  {
    if ts != [] {
      NothingLiveWithoutWindow(ts[1..], now);
    }
  }

  /** Pruning keeps exactly the accepted requests that are still inside the window. */
  lemma PruneKeepsExactlyLive(hits: seq<nat>, ts: seq<nat>, t: nat, max: nat, window: nat, now: nat)
    requires Tracks(hits, ts, t, max, window) && t <= now
    ensures Live(hits, window, now) == Live(ts, window, now)
  {
    if window == 0 {
      NothingLiveWithoutWindow(hits, now);
      NothingLiveWithoutWindow(ts, now);
    } else {
      LiveLive(ts, window, t, now);
    }
  }

  lemma AcceptKeepsSpaced(ts: seq<nat>, max: nat, window: nat, now: nat)
    requires Sorted(ts) && UpTo(ts, now) && Spaced(ts, max, window) && |Live(ts, window, now)| < max
    ensures Sorted(ts + [now]) && UpTo(ts + [now], now) && Spaced(ts + [now], max, window)
  {
    LiveIsSuffix(ts, window, now);
    var ts' := ts + [now];
    forall i, j | 0 <= i && i + max == j < |ts'| ensures ts'[j] - ts'[i] >= window {
      if j == |ts| {
        assert i < |ts| - |Live(ts, window, now)|;
      }
    }
  }

  lemma RequestKeepsTrack(hits: seq<nat>, ts: seq<nat>, t: nat, max: nat, window: nat, now: nat)
    requires Tracks(hits, ts, t, max, window) && t <= now
    ensures var (hits', r) := Enforced(hits, max, window, now);
            Tracks(hits', ts + if r.Ok? then [now] else [], now, max, window)
  {
    PruneKeepsExactlyLive(hits, ts, t, max, window, now);
    assert UpTo(ts, now);
    if |Live(ts, window, now)| < max {
      AcceptKeepsSpaced(ts, max, window, now);
      LiveConcat(ts, [now], window, now);
      assert [now][1..] == [];
    } else {
      assert ts + [] == ts;
    }
  }

  lemma StepKeepsInv(w: World, max: nat, window: nat, q: Request)
    requires Inv(w, max, window) && w.clock <= q.now
    ensures Inv(Next(w, max, window, q), max, window)
  {
    var w' := Next(w, max, window, q);
    forall key ensures KeyOk(w', max, window, key) {
      assert KeyOk(w, max, window, key);
      if key == q.key {
        RequestKeepsTrack(HitsOf(w.hits, key), HitsOf(w.accepted, key), LastTouch(w, key), max, window, q.now);
      }
    }
  }

  ghost predicate Monotone(clock: nat, qs: seq<Request>)
    decreases |qs|
  {
    qs != [] ==> clock <= qs[0].now && Monotone(qs[0].now, qs[1..])
  }

  ghost function Final(w: World, max: nat, window: nat, qs: seq<Request>): World
    decreases |qs|
  {
    if qs == [] then w else Final(Next(w, max, window, qs[0]), max, window, qs[1..])
  }

  lemma {:induction false} RunKeepsInv(w: World, max: nat, window: nat, qs: seq<Request>)
    requires Inv(w, max, window) && Monotone(w.clock, qs)
    ensures Inv(Final(w, max, window, qs), max, window)
    decreases |qs|
  {
    if qs != [] {
      StepKeepsInv(w, max, window, qs[0]);
      RunKeepsInv(Next(w, max, window, qs[0]), max, window, qs[1..]);
    }
  }

  function Start(): World {
    World(map[], map[], map[], 0)
  }

  /** The accepted requests of `[from, from + length)`. */
  function Within(ts: seq<nat>, from: nat, length: nat): seq<nat> {
    if ts == [] then []
    else (if from <= ts[0] < from + length then [ts[0]] else []) + Within(ts[1..], from, length)
  }

  /** In a sorted history the requests of an interval are consecutive. */
  lemma {:induction false} WithinIsSlice(ts: seq<nat>, from: nat, length: nat) returns (k: nat)
    requires Sorted(ts)
    ensures k + |Within(ts, from, length)| <= |ts|
    ensures forall i :: k <= i < k + |Within(ts, from, length)| ==> from <= ts[i] < from + length
  {
    if ts == [] {
      k := 0;
    } else {
      var rest := WithinIsSlice(ts[1..], from, length);
      var n := |Within(ts[1..], from, length)|;
      assert forall i :: rest <= i < rest + n ==> ts[1..][i] == ts[i + 1];
      if from <= ts[0] < from + length {
        k := 0;
        AllBelow(ts[1..], from, length);
        var m := |Within(ts, from, length)|;
        forall i | 0 <= i < m ensures from <= ts[i] < from + length {
          if i > 0 {
            assert ts[i] == ts[1..][i - 1];
          }
        }
      } else {
        k := rest + 1;
        forall i | k <= i < k + n ensures from <= ts[i] < from + length {
          assert ts[i] == ts[1..][i - 1];
        }
      }
    }
  }

  /** If a sorted history starts inside the interval, its first requests are the ones inside. */
  lemma {:induction false} AllBelow(ts: seq<nat>, from: nat, length: nat)
    requires Sorted(ts) && UpFrom(ts, from)
    ensures |Within(ts, from, length)| <= |ts|
    ensures forall i :: 0 <= i < |Within(ts, from, length)| ==> from <= ts[i] < from + length
  {
    if ts != [] {
      AllBelow(ts[1..], from, length);
      var n := |Within(ts[1..], from, length)|;
      assert |ts| > 1 ==> ts[1..][0] == ts[1] && ts[0] <= ts[1];
      if ts[0] < from + length {
        forall i | 0 <= i < n + 1 ensures from <= ts[i] < from + length {
          if i > 0 {
            assert ts[i] == ts[1..][i - 1];
          }
        }
      }
    }
  }

  ghost predicate UpFrom(ts: seq<nat>, from: nat) {
    forall i :: 0 <= i < |ts| ==> from <= ts[i]
  }

  /** Rolling window: on every run of a monotone clock, for every key, no half-open interval one window
      long holds more than `max` accepted requests. */
  lemma AtMostMaxPerWindow(max: nat, window: nat, qs: seq<Request>, key: string, from: nat)
    requires Monotone(0, qs)
    ensures |Within(HitsOf(Final(Start(), max, window, qs).accepted, key), from, window)| <= max
  {
    assert Inv(Start(), max, window);
    RunKeepsInv(Start(), max, window, qs);
    var w := Final(Start(), max, window, qs);
    assert KeyOk(w, max, window, key);
    var ts := HitsOf(w.accepted, key);
    var k := WithinIsSlice(ts, from, window);
    if k + max < |ts| {
      assert ts[k + max] - ts[k] >= window;
    }
  }

  // ----- when a refused caller gets in again ---------------------------------------------------

  lemma {:induction false} OldestOfSorted(ts: seq<nat>)
    requires ts != [] && Sorted(ts)
    ensures Oldest(ts) == ts[0]
  {
    if |ts| > 1 {
      OldestOfSorted(ts[1..]);
      assert ts[0] <= ts[1] == ts[1..][0];
    }
  }

  /** With `max` live hits and no further accepted request, a later one is accepted if and only if the
      oldest hit has left the window by then. */
  lemma AcceptedOnceOldestLeaves(live: seq<nat>, max: nat, window: nat, now: nat, later: nat)
    requires 0 < max == |live| && Sorted(live) && UpTo(live, now) && now <= later
    ensures Enforced(live, max, window, later).1.Ok? <==> later - Oldest(live) >= window
  {
    OldestOfSorted(live);
    assert UpTo(live, later);
    LiveIsSuffix(live, window, later);
  }

  /** A caller who waits exactly the advertised number of seconds gets in if and only if the remaining
      time is at most a second or a whole number of them: the advice is rounded down. */
  lemma AdvisedWaitSufficesIff(live: seq<nat>, max: nat, window: nat, now: nat)
    requires 0 < max == |live| && Sorted(live) && UpTo(live, now) && now - Oldest(live) < window
    ensures var left := window - (now - Oldest(live));
            Enforced(live, max, window, now + RetryAfter(live, window, now) * NANOS_PER_SEC).1.Ok? <==>
            left <= NANOS_PER_SEC || left % NANOS_PER_SEC == 0
  {
    OldestOfSorted(live);
    AcceptedOnceOldestLeaves(live, max, window, now, now + RetryAfter(live, window, now) * NANOS_PER_SEC);
  }
}
