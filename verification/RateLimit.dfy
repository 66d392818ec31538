/** Fixed-window rate limiter with opportunistic pruning (src/ratelimit.rs). */
module RateLimit {

  const PRUNE_ABOVE: nat := 50_000

  /** Requests admitted since `start`. */
  datatype Window = Window(count: nat, start: nat)

  datatype Limits = Limits(maxPerWindow: nat, window: nat)

  type Hits = map<string, Window>

  datatype Call = Call(key: string, now: nat)

  /** What `RateLimiter::new` builds: both limits are at least one. */
  function NewLimits(maxPerWindow: nat, windowSecs: nat): (l: Limits)
    ensures l.maxPerWindow >= 1 && l.window >= 1
    ensures (maxPerWindow >= 1 ==> l.maxPerWindow == maxPerWindow) && (maxPerWindow == 0 ==> l.maxPerWindow == 1)
    ensures (windowSecs >= 1 ==> l.window == windowSecs) && (windowSecs == 0 ==> l.window == 1)
  {
    Limits(if maxPerWindow < 1 then 1 else maxPerWindow, if windowSecs < 1 then 1 else windowSecs)
  }

  /** `Instant::duration_since` saturates at zero. */
  function Elapsed(since: nat, now: nat): nat {
    if now < since then 0 else now - since
  }

  /** The window a call at `now` is counted in. */
  function Current(l: Limits, hits: Hits, c: Call): Window {
    if c.key in hits && Elapsed(hits[c.key].start, c.now) <= l.window then hits[c.key] else Window(0, c.now)
  }

  function Admits(l: Limits, hits: Hits, c: Call): bool {
    Current(l, hits, c).count < l.maxPerWindow
  }

  function Prune(l: Limits, hits: Hits, now: nat): Hits {
    map k | k in hits && Elapsed(hits[k].start, now) <= l.window :: hits[k]
  }

  /** The table after one call, without pruning. */
  function Counted(l: Limits, hits: Hits, c: Call): Hits {
    var w := Current(l, hits, c);
    hits[c.key := if Admits(l, hits, c) then w.(count := w.count + 1) else w]
  }

  function After(l: Limits, hits: Hits, c: Call, pruneAbove: nat): Hits {
    var counted := Counted(l, hits, c);
    if Admits(l, hits, c) && |counted| > pruneAbove then Prune(l, counted, c.now) else counted
  }

  class RateLimiter {
    const limits: Limits
    var hits: Hits

    constructor (maxPerWindow: nat, windowSecs: nat)
      ensures limits == NewLimits(maxPerWindow, windowSecs) && hits == map[]
    {
      limits := NewLimits(maxPerWindow, windowSecs);
      hits := map[];
    }

    method Check(key: string, now: nat) returns (allowed: bool)
      modifies this
      ensures allowed == Admits(limits, old(hits), Call(key, now))
      ensures hits == After(limits, old(hits), Call(key, now), PRUNE_ABOVE)
    {
      if key !in hits {
        hits := hits[key := Window(0, now)];
      }
      if Elapsed(hits[key].start, now) > limits.window {
        hits := hits[key := Window(0, now)];
      }
      if hits[key].count >= limits.maxPerWindow {
        assert hits == Counted(limits, old(hits), Call(key, now));
        return false;
      }
      hits := hits[key := Window(hits[key].count + 1, hits[key].start)];
      assert hits == Counted(limits, old(hits), Call(key, now));
      if |hits| > PRUNE_ABOVE {
        hits := Prune(limits, hits, now);
      }
      return true;
    }
  }

  // ----- pruning is invisible -----

  ghost predicate NonDecreasing(calls: seq<Call>, from: nat) {
    && (forall i :: 0 <= i < |calls| ==> from <= calls[i].now)
    && (forall i, j :: 0 <= i < j < |calls| ==> calls[i].now <= calls[j].now)
  }

  /** The answers a limiter gives to a run of calls. */
  function Answers(l: Limits, hits: Hits, calls: seq<Call>, pruneAbove: nat): seq<bool>
    decreases calls
  {
    if calls == [] then [] else
      [Admits(l, hits, calls[0])] + Answers(l, After(l, hits, calls[0], pruneAbove), calls[1..], pruneAbove)
  }

  /** The answers of a limiter that never prunes. */
  function UnprunedAnswers(l: Limits, hits: Hits, calls: seq<Call>): seq<bool>
    decreases calls
  {
    if calls == [] then [] else
      [Admits(l, hits, calls[0])] + UnprunedAnswers(l, Counted(l, hits, calls[0]), calls[1..])
  }

  /** `pruned` lost only windows that had ended by `now`. */
  ghost predicate OnlyExpiredLost(l: Limits, pruned: Hits, full: Hits, now: nat) {
    && (forall k :: k in pruned ==> k in full && pruned[k] == full[k])
    && (forall k :: k in full && k !in pruned ==> Elapsed(full[k].start, now) > l.window)
  }

  lemma {:induction false} PruningIsInvisible(
      l: Limits, pruned: Hits, full: Hits, calls: seq<Call>, pruneAbove: nat, now: nat)
    requires OnlyExpiredLost(l, pruned, full, now) && NonDecreasing(calls, now)
    ensures Answers(l, pruned, calls, pruneAbove) == UnprunedAnswers(l, full, calls)
    decreases calls
  {
    if calls != [] {
      var c := calls[0];
      assert Current(l, pruned, c) == Current(l, full, c);
      PruningIsInvisible(l, After(l, pruned, c, pruneAbove), Counted(l, full, c), calls[1..], pruneAbove, c.now);
    }
  }

  // ----- burst bound -----

  /** How many calls for `key` within [a, b] are admitted. */
  function AdmittedWithin(l: Limits, hits: Hits, calls: seq<Call>, key: string, a: nat, b: nat): nat
    decreases calls
  {
    if calls == [] then 0 else
      (if calls[0].key == key && a <= calls[0].now <= b && Admits(l, hits, calls[0]) then 1 else 0)
      + AdmittedWithin(l, Counted(l, hits, calls[0]), calls[1..], key, a, b)
  }

  /** How many admissions within [a, b] the state of `key` at `now` still allows. */
  ghost function Allowance(l: Limits, hits: Hits, key: string, a: nat, b: nat, now: nat): int {
    if key !in hits || (hits[key].start < a && now < a) then 2 * l.maxPerWindow - 1
    else if hits[key].start < a then 2 * l.maxPerWindow - hits[key].count
    else if hits[key].start <= b then l.maxPerWindow - hits[key].count
    else 0
  }

  ghost predicate WithinLimit(l: Limits, hits: Hits, now: nat) {
    forall k :: k in hits ==> 1 <= hits[k].count <= l.maxPerWindow && hits[k].start <= now
  }

  lemma {:induction false} AllowanceSuffices(
      l: Limits, hits: Hits, calls: seq<Call>, key: string, a: nat, b: nat, now: nat)
    requires l.maxPerWindow >= 1 && b <= a + l.window
    requires WithinLimit(l, hits, now) && NonDecreasing(calls, now)
    ensures AdmittedWithin(l, hits, calls, key, a, b) <= Allowance(l, hits, key, a, b, now)
    decreases calls
  {
    if calls != [] {
      var c := calls[0];
      AllowanceSuffices(l, Counted(l, hits, c), calls[1..], key, a, b, c.now);
    }
  }

  /** No time span as long as one window admits twice the limit: the call that opens a window precedes the rest. */
  lemma BurstBound(l: Limits, calls: seq<Call>, key: string, a: nat, b: nat)
    requires l.maxPerWindow >= 1 && b <= a + l.window
    requires NonDecreasing(calls, 0)
    ensures AdmittedWithin(l, map[], calls, key, a, b) <= 2 * l.maxPerWindow - 1
  {
    AllowanceSuffices(l, map[], calls, key, a, b, 0);
  }

  /** `AdmittedWithin` counts the real limiter's answers, pruning included. */
  function CountAnswers(calls: seq<Call>, answers: seq<bool>, key: string, a: nat, b: nat): nat
    requires |answers| == |calls|
  {
    if calls == [] then 0 else
      (if calls[0].key == key && a <= calls[0].now <= b && answers[0] then 1 else 0)
      + CountAnswers(calls[1..], answers[1..], key, a, b)
  }

  lemma {:induction false} UnprunedCount(l: Limits, hits: Hits, calls: seq<Call>, key: string, a: nat, b: nat)
    ensures |UnprunedAnswers(l, hits, calls)| == |calls|
    ensures CountAnswers(calls, UnprunedAnswers(l, hits, calls), key, a, b) == AdmittedWithin(l, hits, calls, key, a, b)
    decreases calls
  {
    if calls != [] {
      UnprunedCount(l, Counted(l, hits, calls[0]), calls[1..], key, a, b);
      assert UnprunedAnswers(l, hits, calls)[1..] == UnprunedAnswers(l, Counted(l, hits, calls[0]), calls[1..]);
    }
  }

  /** The limiter as shipped, from an empty table: at most 2 * max - 1 requests per key in any span of one window. */
  lemma LimiterBurstBound(l: Limits, calls: seq<Call>, pruneAbove: nat, key: string, a: nat, b: nat)
    requires l.maxPerWindow >= 1 && b <= a + l.window
    requires NonDecreasing(calls, 0)
    ensures |Answers(l, map[], calls, pruneAbove)| == |calls|
    ensures CountAnswers(calls, Answers(l, map[], calls, pruneAbove), key, a, b) <= 2 * l.maxPerWindow - 1
  {
    PruningIsInvisible(l, map[], map[], calls, pruneAbove, 0);
    UnprunedCount(l, map[], calls, key, a, b);
    BurstBound(l, calls, key, a, b);
  }

  /** The bound is reached: one request late in a window, then a full next window. */
  lemma BurstBoundIsTight()
    ensures var calls := [Call("k", 0), Call("k", 10), Call("k", 11), Call("k", 11)];
            AdmittedWithin(Limits(2, 10), map[], calls, "k", 10, 20) == 3
  {
    var l, calls := Limits(2, 10), [Call("k", 0), Call("k", 10), Call("k", 11), Call("k", 11)];
    var h1 := Counted(l, map[], calls[0]);
    var h2 := Counted(l, h1, calls[1]);
    var h3 := Counted(l, h2, calls[2]);
    assert calls[1..][1..] == calls[2..] && calls[2..][1..] == calls[3..];
    assert AdmittedWithin(l, h3, calls[3..], "k", 10, 20) == 1;
    assert AdmittedWithin(l, h2, calls[2..], "k", 10, 20) == 2;
    assert AdmittedWithin(l, h1, calls[1..], "k", 10, 20) == 3;
  }

  // ----- exactly when a request is admitted -----

  /** When the window of `key` opened that the last of the calls for it fell into. */
  function Opened(window: nat, calls: seq<Call>, key: string): (start: int)
    ensures start >= -1
    ensures start == -1 <==> forall i :: 0 <= i < |calls| ==> calls[i].key != key
  {
    if calls == [] then -1 else
      var before, c := Opened(window, calls[..|calls| - 1], key), calls[|calls| - 1];
      if c.key != key || (before >= 0 && c.now <= before + window) then before else c.now
  }

  /** How many of the first `n` requests were admitted for `key` in the window that opened at `start`. */
  function AdmittedIn(window: nat, calls: seq<Call>, answers: seq<bool>, n: nat, key: string, start: int): nat
    requires n <= |calls| && |answers| == |calls|
  {
    if n == 0 then 0 else
      AdmittedIn(window, calls, answers, n - 1, key, start)
      + if calls[n - 1].key == key && answers[n - 1] && Opened(window, calls[..n], key) == start then 1 else 0
  }

  function TableAfter(l: Limits, calls: seq<Call>): Hits {
    if calls == [] then map[] else Counted(l, TableAfter(l, calls[..|calls| - 1]), calls[|calls| - 1])
  }

  lemma {:induction false} AnswerAt(l: Limits, before: seq<Call>, calls: seq<Call>, i: nat)
    requires i < |calls|
    ensures |UnprunedAnswers(l, TableAfter(l, before), calls)| == |calls|
    ensures UnprunedAnswers(l, TableAfter(l, before), calls)[i]
            == Admits(l, TableAfter(l, before + calls[..i]), calls[i])
    decreases calls
  {
    var more := before + [calls[0]];
    assert more[..|more| - 1] == before;
    if |calls| > 1 {
      AnswerAt(l, more, calls[1..], if i == 0 then 0 else i - 1);
    }
    if i == 0 {
      assert before + calls[..0] == before;
    } else {
      assert more + calls[1..][..i - 1] == before + calls[..i];
    }
  }

  /** A window opens after every earlier one. */
  lemma {:induction false} OpeningsIncrease(window: nat, calls: seq<Call>, n: nat, m: nat, key: string)
    requires n <= m <= |calls|
    ensures Opened(window, calls[..n], key) <= Opened(window, calls[..m], key)
    decreases m
  {
    if n < m {
      OpeningsIncrease(window, calls, n, m - 1, key);
      assert calls[..m][..m - 1] == calls[..m - 1];
    }
  }

  lemma {:induction false} NoneInNewWindow(
      window: nat, calls: seq<Call>, answers: seq<bool>, n: nat, key: string, start: int)
    requires n <= |calls| && |answers| == |calls| && Opened(window, calls[..n], key) < start
    ensures AdmittedIn(window, calls, answers, n, key, start) == 0
  {
    if n > 0 {
      OpeningsIncrease(window, calls, n - 1, n, key);
      NoneInNewWindow(window, calls, answers, n - 1, key, start);
    }
  }

  /** The answer to request `i` of a run that starts with an empty table. */
  predicate IsAnswered(l: Limits, calls: seq<Call>, answers: seq<bool>, i: nat)
    requires i < |calls|
  {
    i < |answers| && answers[i] == Admits(l, TableAfter(l, calls[..i]), calls[i])
  }

  /** The table holds the key's window and what was admitted in it. */
  lemma {:induction false} TableIsHistory(l: Limits, calls: seq<Call>, answers: seq<bool>, n: nat, key: string)
    requires n <= |calls| && |answers| == |calls| && forall i :: 0 <= i < n ==> IsAnswered(l, calls, answers, i)
    ensures var table, start := TableAfter(l, calls[..n]), Opened(l.window, calls[..n], key);
            && (key in table <==> start >= 0)
            && (start >= 0 ==>
                 table[key] == Window(AdmittedIn(l.window, calls, answers, n, key, start), start))
  {
    if n > 0 {
      assert calls[..n][..n - 1] == calls[..n - 1];
      TableIsHistory(l, calls, answers, n - 1, key);
      assert IsAnswered(l, calls, answers, n - 1);
      if calls[n - 1].key == key {
        CurrentIsHistory(l, calls, answers, n - 1);
      }
    }
  }

  /** The window a request falls into, and what was admitted in it before. */
  lemma CurrentIsHistory(l: Limits, calls: seq<Call>, answers: seq<bool>, n: nat)
    requires n < |calls| && |answers| == |calls|
    requires var key := calls[n].key;
             var table, start := TableAfter(l, calls[..n]), Opened(l.window, calls[..n], key);
             && (key in table <==> start >= 0)
             && (start >= 0 ==> table[key] == Window(AdmittedIn(l.window, calls, answers, n, key, start), start))
    ensures var start := Opened(l.window, calls[..n + 1], calls[n].key);
            && start >= 0
            && Current(l, TableAfter(l, calls[..n]), calls[n])
               == Window(AdmittedIn(l.window, calls, answers, n, calls[n].key, start), start)
  {
    var key := calls[n].key;
    assert calls[..n + 1][..n] == calls[..n];
    var start := Opened(l.window, calls[..n + 1], key);
    if Opened(l.window, calls[..n], key) != start {
      NoneInNewWindow(l.window, calls, answers, n, key, start);
    }
  }

  /**
   A request is admitted exactly if fewer than the maximum were admitted for its key in the window it falls into:
   the one its key's last request fell into, unless that has ended, and otherwise a new one.
   */
  lemma AdmittedIff(l: Limits, calls: seq<Call>, pruneAbove: nat, i: nat)
    requires NonDecreasing(calls, 0) && i < |calls|
    ensures var answers := Answers(l, map[], calls, pruneAbove);
            && |answers| == |calls|
            && (answers[i] <==>
                 AdmittedIn(l.window, calls, answers, i, calls[i].key,
                            Opened(l.window, calls[..i + 1], calls[i].key)) < l.maxPerWindow)
  {
    PruningIsInvisible(l, map[], map[], calls, pruneAbove, 0);
    AnswerEach(l, map[], calls, pruneAbove);
    var answers := Answers(l, map[], calls, pruneAbove);
    forall j | 0 <= j < |calls| ensures |answers| == |calls| && IsAnswered(l, calls, answers, j) {
      AnswerAt(l, [], calls, j);
      assert [] + calls[..j] == calls[..j];
    }
    TableIsHistory(l, calls, answers, i, calls[i].key);
    CurrentIsHistory(l, calls, answers, i);
    assert IsAnswered(l, calls, answers, i);
  }

  // ----- refused requests -----

  lemma RefusedLeavesNoTrace(l: Limits, hits: Hits, c: Call, pruneAbove: nat)
    requires l.maxPerWindow >= 1 && !Admits(l, hits, c)
    ensures After(l, hits, c, pruneAbove) == hits
  {
  }

  /** A run without a request that was refused has the same answers but for that one. */
  lemma {:induction false} RefusalChangesNothing(l: Limits, hits: Hits, calls: seq<Call>, pruneAbove: nat, i: nat)
    requires l.maxPerWindow >= 1 && i < |calls|
    ensures var answers := Answers(l, hits, calls, pruneAbove);
            && |answers| == |calls|
            && (!answers[i] ==> Answers(l, hits, calls[..i] + calls[i + 1..], pruneAbove)
                                == answers[..i] + answers[i + 1..])
    decreases calls
  {
    AnswerEach(l, hits, calls, pruneAbove);
    var answers := Answers(l, hits, calls, pruneAbove);
    if i == 0 {
      if !answers[0] {
        RefusedLeavesNoTrace(l, hits, calls[0], pruneAbove);
        assert calls[..0] + calls[1..] == calls[1..];
        assert answers[..0] + answers[1..] == answers[1..];
      }
    } else {
      var next := After(l, hits, calls[0], pruneAbove);
      RefusalChangesNothing(l, next, calls[1..], pruneAbove, i - 1);
      var fewer := calls[..i] + calls[i + 1..];
      assert fewer[1..] == calls[1..][..i - 1] + calls[1..][i..];
      assert answers[1..] == Answers(l, next, calls[1..], pruneAbove);
      assert answers[..i] + answers[i + 1..] == [answers[0]] + (answers[1..][..i - 1] + answers[1..][i..]);
    }
  }

  lemma {:induction false} AnswerEach(l: Limits, hits: Hits, calls: seq<Call>, pruneAbove: nat)
    ensures |Answers(l, hits, calls, pruneAbove)| == |calls|
    decreases calls
  {
    if calls != [] {
      AnswerEach(l, After(l, hits, calls[0], pruneAbove), calls[1..], pruneAbove);
    }
  }
}
