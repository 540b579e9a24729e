/** Time-window deduplication of external-open URLs (`is_duplicate` in src-tauri/src/external_open.rs). */
module Deduplication {
  import opened Text

  const DEDUPLICATION_WINDOW_MS: int := 500

  /** `Instant::duration_since`: saturates at zero when the clock appears to run backwards. */
  function DurationSince(now: int, earlier: int): int {
    if earlier <= now then now - earlier else 0
  }

  function Retained<K>(recent: map<K, int>, now: int): map<K, int> {
    map key | key in recent && DurationSince(now, recent[key]) <= DEDUPLICATION_WINDOW_MS :: recent[key]
  }

  /** The recent map after one check: pruned, and stamped only when the key was not a duplicate. */
  function Checked<K>(recent: map<K, int>, key: K, now: int): map<K, int> {
    var kept := Retained(recent, now);
    if key in kept then kept else kept[key := now]
  }

  /** One call of `is_duplicate`. */
  datatype Check<K> = Check(key: K, now: int)

  function RecentAfter<K>(checks: seq<Check<K>>, n: nat): map<K, int>
    requires n <= |checks|
  {
    if n == 0 then map[] else Checked(RecentAfter(checks, n - 1), checks[n - 1].key, checks[n - 1].now)
  }

  /** Check number `n` lets its URL through. */
  predicate Accepts<K(==)>(checks: seq<Check<K>>, n: nat)
    requires n < |checks|
  {
    checks[n].key !in Retained(RecentAfter(checks, n), checks[n].now)
  }

  function Times<K>(checks: seq<Check<K>>): seq<int> { seq(|checks|, i requires 0 <= i < |checks| => checks[i].now) }

  /** Time `k` lies outside the window of the earlier time `i`, the later time `j` inside it again. */
  predicate Returns(times: seq<int>, i: nat, k: nat, j: nat) {
    && i < k < j < |times|
    && DurationSince(times[k], times[i]) > DEDUPLICATION_WINDOW_MS && DurationSince(times[j], times[i]) <= DEDUPLICATION_WINDOW_MS
  }

  /** No time pushes an earlier one out of the window that a still later one brings back in. */
  ghost predicate Orderly(times: seq<int>) { forall i: nat, k: nat, j: nat :: !Returns(times, i, k, j) }

  predicate NeverGoesBack(times: seq<int>) { forall i, j :: 0 <= i < j < |times| ==> times[i] <= times[j] }

  lemma ForwardIsOrderly(times: seq<int>)
    requires NeverGoesBack(times)
    ensures Orderly(times)
  {
    forall i: nat, k: nat, j: nat ensures !Returns(times, i, k, j) {
      if i < k < j < |times| { assert times[i] <= times[k] <= times[j]; }
    }
  }

  /** Check `i` let the same key through at most 500 ms before check `j`. */
  predicate RecentlyAccepted<K(==)>(checks: seq<Check<K>>, i: nat, j: nat)
    requires i < |checks| && j < |checks|
  {
    && Accepts(checks, i)
    && checks[i].key == checks[j].key
    && DurationSince(checks[j].now, checks[i].now) <= DEDUPLICATION_WINDOW_MS
  }

  /** Every stamp in the recent map is an accepted check. */
  lemma {:induction false} StampsAreAccepted<K>(checks: seq<Check<K>>, n: nat, key: K)
    requires n <= |checks| && key in RecentAfter(checks, n)
    ensures exists i :: 0 <= i < n && Accepts(checks, i)
                        && checks[i].key == key && checks[i].now == RecentAfter(checks, n)[key]
  {
    if key in RecentAfter(checks, n - 1) && RecentAfter(checks, n - 1)[key] == RecentAfter(checks, n)[key] {
      StampsAreAccepted(checks, n - 1, key);
    } else {
      assert Accepts(checks, n - 1);
    }
  }

  /** An accepted check keeps its stamp as long as every check since lies in its window. */
  lemma {:induction false} AcceptedStaysStamped<K>(checks: seq<Check<K>>, i: nat, n: nat)
    requires i < n <= |checks| && Accepts(checks, i)
    requires forall k :: i < k < n ==> DurationSince(checks[k].now, checks[i].now) <= DEDUPLICATION_WINDOW_MS
    ensures checks[i].key in RecentAfter(checks, n) && RecentAfter(checks, n)[checks[i].key] == checks[i].now
    decreases n
  {
    if i < n - 1 {
      AcceptedStaysStamped(checks, i, n - 1);
    }
  }

  /** What an unbounded history would decide: reject a key that was accepted at most 500 ms ago. */
  ghost predicate HistoryRejects<K>(checks: seq<Check<K>>, j: nat)
    requires j < |checks|
  {
    exists i :: 0 <= i < j && RecentlyAccepted(checks, i, j)
  }

  ghost predicate AgreesWithHistory<K>(checks: seq<Check<K>>) {
    forall j: nat :: j < |checks| ==> (!Accepts(checks, j) <==> HistoryRejects(checks, j))
  }

  /**
   * The pruned map decides exactly as an unbounded history would, at orderly times: a URL is rejected if and only if the same
   * key was accepted at most 500 ms ago. Rejected repeats play no part, so they never extend the window.
   */
  lemma PrunedMapDecidesLikeHistory<K>(checks: seq<Check<K>>, j: nat)
    requires j < |checks| && Orderly(Times(checks))
    ensures !Accepts(checks, j) <==> HistoryRejects(checks, j)
  {
    if !Accepts(checks, j) {
      StampsAreAccepted(checks, j, checks[j].key);
      var i :| 0 <= i < j && Accepts(checks, i)
               && checks[i].key == checks[j].key && checks[i].now == RecentAfter(checks, j)[checks[j].key];
      assert RecentlyAccepted(checks, i, j);
    }
    if HistoryRejects(checks, j) {
      var i :| 0 <= i < j && RecentlyAccepted(checks, i, j);
      forall k | i < k < j ensures DurationSince(checks[k].now, checks[i].now) <= DEDUPLICATION_WINDOW_MS {
        assert !Returns(Times(checks), i, k, j);
      }
      AcceptedStaysStamped(checks, i, j);
    }
  }

  /** Check `i` carries key `a`, and so does check `j`; all others carry `b`. */
  function TwoKeys<K>(times: seq<int>, a: K, b: K, i: nat, j: nat): seq<Check<K>> {
    seq(|times|, n requires 0 <= n < |times| => Check(if n == i || n == j then a else b, times[n]))
  }

  lemma {:induction false} FirstUseIsAccepted<K>(checks: seq<Check<K>>, n: nat, key: K)
    requires n <= |checks| && forall m :: 0 <= m < n ==> checks[m].key != key
    ensures key !in RecentAfter(checks, n)
  {
    if n > 0 { FirstUseIsAccepted(checks, n - 1, key); }
  }

  /** Once a check falls outside the window of a stamp, the stamp is gone, and only its own key brings it back. */
  lemma {:induction false} PrunedStaysAway<K>(checks: seq<Check<K>>, i: nat, k: nat, n: nat)
    requires i < k < n <= |checks| && DurationSince(checks[k].now, checks[i].now) > DEDUPLICATION_WINDOW_MS
    requires checks[i].key !in RecentAfter(checks, i) && forall m :: i < m < n ==> checks[m].key != checks[i].key
    ensures checks[i].key !in RecentAfter(checks, n)
    decreases n
  {
    if n == k + 1 {
      StampIsOwn(checks, i, k);
    } else {
      PrunedStaysAway(checks, i, k, n - 1);
    }
  }

  lemma {:induction false} StampIsOwn<K>(checks: seq<Check<K>>, i: nat, n: nat)
    requires i < n <= |checks|
    requires checks[i].key !in RecentAfter(checks, i) && forall m :: i < m < n ==> checks[m].key != checks[i].key
    ensures checks[i].key in RecentAfter(checks, n) ==> RecentAfter(checks, n)[checks[i].key] == checks[i].now
    decreases n
  {
    if n > i + 1 { StampIsOwn(checks, i, n - 1); }
  }

  lemma TwoKeysDisagree<K>(times: seq<int>, a: K, b: K, i: nat, k: nat, j: nat)
    requires a != b && Returns(times, i, k, j)
    ensures var checks := TwoKeys(times, a, b, i, j); Accepts(checks, j) && RecentlyAccepted(checks, i, j)
  {
    var checks := TwoKeys(times, a, b, i, j);
    FirstUseIsAccepted(checks, i, a);
    PrunedStaysAway(checks, i, k, j);
  }

  /** At times that are not orderly, some checks with two keys make map and history disagree. */
  lemma DisorderlyDisagrees<K>(times: seq<int>, a: K, b: K) returns (checks: seq<Check<K>>)
    requires a != b && !Orderly(times)
    ensures Times(checks) == times && !AgreesWithHistory(checks)
  {
    var i: nat, k: nat, j: nat :| Returns(times, i, k, j);
    checks := TwoKeys(times, a, b, i, j);
    TwoKeysDisagree(times, a, b, i, k, j);
    assert HistoryRejects(checks, j);
  }

  /** The map agrees with the history for all keys at given times if and only if the times are orderly. */
  lemma AgreesIffOrderly<K(!new)>(times: seq<int>, a: K, b: K)
    requires a != b
    ensures Orderly(times) <==> forall checks: seq<Check<K>> :: Times(checks) == times ==> AgreesWithHistory(checks)
  {
    if Orderly(times) {
      forall checks: seq<Check<K>>, j: nat | Times(checks) == times && j < |checks|
        ensures !Accepts(checks, j) <==> HistoryRejects(checks, j)
      {
        PrunedMapDecidesLikeHistory(checks, j);
      }
    } else {
      var checks := DisorderlyDisagrees(times, a, b);
    }
  }

  /** With a clock that never goes back, a check is rejected exactly when the same key was let through at most 500 ms before. */
  lemma ForwardClockAgrees<K>(checks: seq<Check<K>>, j: nat)
    requires j < |checks| && NeverGoesBack(Times(checks))
    ensures !Accepts(checks, j)
       <==> exists i :: 0 <= i < j && Accepts(checks, i) && checks[i].key == checks[j].key && checks[j].now - checks[i].now <= 500
  {
    ForwardIsOrderly(Times(checks));
    PrunedMapDecidesLikeHistory(checks, j);
    forall i | 0 <= i < j
      ensures RecentlyAccepted(checks, i, j)
         <==> Accepts(checks, i) && checks[i].key == checks[j].key && checks[j].now - checks[i].now <= 500
    {
      assert Times(checks)[i] <= Times(checks)[j];
    }
  }

  /** Two accepted copies of one URL are always more than 500 ms apart. */
  lemma AcceptedCopiesAreFarApart<K>(checks: seq<Check<K>>, i: nat, j: nat)
    requires i < j < |checks| && Orderly(Times(checks))
    requires Accepts(checks, i) && Accepts(checks, j) && checks[i].key == checks[j].key
    ensures checks[j].now - checks[i].now > 500
  {
    PrunedMapDecidesLikeHistory(checks, j);
    assert !RecentlyAccepted(checks, i, j);
  }

  /** Three checks of two overlapping calls, the middle one of the later call: the third is let through 100 ms after the first. */
  lemma BackwardClockForgets<K>(a: K, b: K)
    requires a != b
    ensures var checks := [Check(a, 300), Check(b, 1000), Check(a, 400)];
            Accepts(checks, 2) && RecentlyAccepted(checks, 0, 2)
  {
    var checks := [Check(a, 300), Check(b, 1000), Check(a, 400)];
    assert RecentAfter(checks, 0) == map[];
    assert RecentAfter(checks, 1) == map[a := 300];
    assert RecentAfter(checks, 2) == map[b := 1000];
  }

  // ------------------------------------------------------------------ one batch

  /**
   * The URLs of one batch that are let through; all are checked at the same instant. `keyOf` gives no key for a
   * URL that is skipped before the duplicate check, so such a URL leaves no stamp.
   */
  function Admitted<U, K>(recent: map<K, int>, urls: seq<U>, now: int, keyOf: U -> Option<K>): seq<U>
    decreases |urls|
  {
    if urls == [] then []
    else match keyOf(urls[0])
      case None => Admitted(recent, urls[1..], now, keyOf)
      case Some(key) =>
        var rest := Admitted(Checked(recent, key, now), urls[1..], now, keyOf);
        if key in Retained(recent, now) then rest else [urls[0]] + rest
  }

  function CheckedAll<U, K>(recent: map<K, int>, urls: seq<U>, now: int, keyOf: U -> Option<K>): map<K, int>
    decreases |urls|
  {
    if urls == [] then recent
    else match keyOf(urls[0])
      case None => CheckedAll(recent, urls[1..], now, keyOf)
      case Some(key) => CheckedAll(Checked(recent, key, now), urls[1..], now, keyOf)
  }

  lemma AdmittedStep<U, K>(before: seq<U>, recent: map<K, int>, urls: seq<U>, now: int, keyOf: U -> Option<K>)
    requires urls != []
    ensures var key := keyOf(urls[0]);
            before + Admitted(recent, urls, now, keyOf) ==
              if key.None? then before + Admitted(recent, urls[1..], now, keyOf)
              else if key.value in Retained(recent, now) then before + Admitted(Checked(recent, key.value, now), urls[1..], now, keyOf)
              else before + [urls[0]] + Admitted(Checked(recent, key.value, now), urls[1..], now, keyOf)
    ensures CheckedAll(recent, urls, now, keyOf) ==
            CheckedAll(if keyOf(urls[0]).None? then recent else Checked(recent, keyOf(urls[0]).value, now), urls[1..], now, keyOf)
  {
  }

  /** The map after the first `n` URLs of a batch. */
  function MapUpTo<U, K>(recent: map<K, int>, urls: seq<U>, now: int, keyOf: U -> Option<K>, n: nat): map<K, int> {
    if n == 0 || n > |urls| then recent
    else
      var at := MapUpTo(recent, urls, now, keyOf, n - 1);
      if keyOf(urls[n - 1]).None? then at else Checked(at, keyOf(urls[n - 1]).value, now)
  }

  /** The URLs let through among the first `n` URLs of a batch. */
  function KeptUpTo<U, K(==)>(recent: map<K, int>, urls: seq<U>, now: int, keyOf: U -> Option<K>, n: nat): seq<U> {
    if n == 0 || n > |urls| then []
    else
      var kept, key := KeptUpTo(recent, urls, now, keyOf, n - 1), keyOf(urls[n - 1]);
      if key.None? || key.value in Retained(MapUpTo(recent, urls, now, keyOf, n - 1), now) then kept else kept + [urls[n - 1]]
  }

  lemma {:induction false} KeptThenRest<U, K>(recent: map<K, int>, urls: seq<U>, now: int, keyOf: U -> Option<K>, n: nat)
    requires n <= |urls|
    ensures var kept, at := KeptUpTo(recent, urls, now, keyOf, n), MapUpTo(recent, urls, now, keyOf, n);
            && Admitted(recent, urls, now, keyOf) == kept + Admitted(at, urls[n..], now, keyOf)
            && CheckedAll(recent, urls, now, keyOf) == CheckedAll(at, urls[n..], now, keyOf)
  {
    if n > 0 {
      KeptThenRest(recent, urls, now, keyOf, n - 1);
      AdmittedStep(KeptUpTo(recent, urls, now, keyOf, n - 1), MapUpTo(recent, urls, now, keyOf, n - 1), urls[n - 1..], now, keyOf);
      assert urls[n - 1..][1..] == urls[n..];
    }
  }

  lemma KeptIsAdmitted<U, K>(recent: map<K, int>, urls: seq<U>, now: int, keyOf: U -> Option<K>)
    ensures KeptUpTo(recent, urls, now, keyOf, |urls|) == Admitted(recent, urls, now, keyOf)
    ensures MapUpTo(recent, urls, now, keyOf, |urls|) == CheckedAll(recent, urls, now, keyOf)
  {
    KeptThenRest(recent, urls, now, keyOf, |urls|);
    assert urls[|urls|..] == [];
  }

  lemma KeptStep<U, K>(recent: map<K, int>, urls: seq<U>, now: int, keyOf: U -> Option<K>, n: nat)
    requires n < |urls|
    ensures IsBatchStep(KeptUpTo(recent, urls, now, keyOf, n), MapUpTo(recent, urls, now, keyOf, n), urls[n], now, keyOf,
                        KeptUpTo(recent, urls, now, keyOf, n + 1), MapUpTo(recent, urls, now, keyOf, n + 1))
  {
  }

  /** A batch as two sequences: what was let through and the map, URL after URL. */
  lemma BatchPlan<U, K>(recent: map<K, int>, urls: seq<U>, now: int, keyOf: U -> Option<K>)
    returns (kept: nat -> seq<U>, at: nat -> map<K, int>)
    ensures kept(0) == [] && at(0) == recent
    ensures kept(|urls|) == Admitted(recent, urls, now, keyOf) && at(|urls|) == CheckedAll(recent, urls, now, keyOf)
    ensures forall n: nat :: n < |urls| ==> IsBatchStep(kept(n), at(n), urls[n], now, keyOf, kept(n + 1), at(n + 1))
  {
    kept, at := (n: nat) => KeptUpTo(recent, urls, now, keyOf, n), (n: nat) => MapUpTo(recent, urls, now, keyOf, n);
    KeptIsAdmitted(recent, urls, now, keyOf);
    forall n: nat | n < |urls| ensures IsBatchStep(kept(n), at(n), urls[n], now, keyOf, kept(n + 1), at(n + 1)) {
      KeptStep(recent, urls, now, keyOf, n);
    }
  }

  ghost predicate IsBatchStep<U, K>(
    kept: seq<U>, at: map<K, int>, url: U, now: int, keyOf: U -> Option<K>, kept': seq<U>, at': map<K, int>)
  {
    var key := keyOf(url);
    && at' == (if key.None? then at else Checked(at, key.value, now))
    && kept' == if key.None? || key.value in Retained(at, now) then kept else kept + [url]
  }

  /** Every admitted URL of a batch has a key that was not in the window. */
  lemma {:induction false} BatchAdmitsFreshKeys<U, K>(recent: map<K, int>, urls: seq<U>, now: int, keyOf: U -> Option<K>, i: nat)
    requires i < |Admitted(recent, urls, now, keyOf)|
    ensures keyOf(Admitted(recent, urls, now, keyOf)[i]).Some?
    ensures keyOf(Admitted(recent, urls, now, keyOf)[i]).value !in Retained(recent, now)
    decreases |urls|
  {
    match keyOf(urls[0])
    case None => BatchAdmitsFreshKeys(recent, urls[1..], now, keyOf, i);
    case Some(key) =>
      assert Retained(Checked(recent, key, now), now).Keys == Retained(recent, now).Keys + {key};
      if key in Retained(recent, now) {
        BatchAdmitsFreshKeys(Checked(recent, key, now), urls[1..], now, keyOf, i);
      } else if i > 0 {
        BatchAdmitsFreshKeys(Checked(recent, key, now), urls[1..], now, keyOf, i - 1);
      }
  }

  /** No batch admits one key twice. */
  lemma {:induction false} BatchAdmitsEachKeyOnce<U, K>(
    recent: map<K, int>, urls: seq<U>, now: int, keyOf: U -> Option<K>, i: nat, j: nat)
    requires i < j < |Admitted(recent, urls, now, keyOf)|
    ensures keyOf(Admitted(recent, urls, now, keyOf)[i]) != keyOf(Admitted(recent, urls, now, keyOf)[j])
    decreases |urls|
  {
    match keyOf(urls[0])
    case None => BatchAdmitsEachKeyOnce(recent, urls[1..], now, keyOf, i, j);
    case Some(key) =>
      if key in Retained(recent, now) {
        BatchAdmitsEachKeyOnce(Checked(recent, key, now), urls[1..], now, keyOf, i, j);
      } else if i > 0 {
        BatchAdmitsEachKeyOnce(Checked(recent, key, now), urls[1..], now, keyOf, i - 1, j - 1);
      } else {
        BatchAdmitsFreshKeys(Checked(recent, key, now), urls[1..], now, keyOf, j - 1);
        assert key in Retained(Checked(recent, key, now), now);
      }
  }

  /** The first URL of its key in the batch, and not seen in the window before. */
  predicate IsFresh<U, K(==)>(recent: map<K, int>, urls: seq<U>, now: int, keyOf: U -> Option<K>, n: nat)
    requires n < |urls|
  {
    && keyOf(urls[n]).Some?
    && !(keyOf(urls[n]).value in recent && DurationSince(now, recent[keyOf(urls[n]).value]) <= 500)
    && forall m :: 0 <= m < n ==> keyOf(urls[m]) != keyOf(urls[n])
  }

  function FreshUrls<U, K(==)>(recent: map<K, int>, urls: seq<U>, now: int, keyOf: U -> Option<K>, n: nat): seq<U>
    requires n <= |urls|
  {
    if n == 0 then []
    else
      var before := FreshUrls(recent, urls, now, keyOf, n - 1);
      if IsFresh(recent, urls, now, keyOf, n - 1) then before + [urls[n - 1]] else before
  }

  /** A key is in the window of the map after `n` URLs if it was before, or if one of them has it. */
  lemma {:induction false} SeenSoFar<U, K>(recent: map<K, int>, urls: seq<U>, now: int, keyOf: U -> Option<K>, n: nat, key: K)
    requires n <= |urls|
    ensures key in Retained(MapUpTo(recent, urls, now, keyOf, n), now)
       <==> key in Retained(recent, now) || exists m :: 0 <= m < n && keyOf(urls[m]) == Some(key)
  {
    if n > 0 {
      SeenSoFar(recent, urls, now, keyOf, n - 1, key);
    }
  }

  lemma {:induction false} KeptIsFresh<U, K>(recent: map<K, int>, urls: seq<U>, now: int, keyOf: U -> Option<K>, n: nat)
    requires n <= |urls|
    ensures KeptUpTo(recent, urls, now, keyOf, n) == FreshUrls(recent, urls, now, keyOf, n)
  {
    if n > 0 {
      KeptIsFresh(recent, urls, now, keyOf, n - 1);
      if keyOf(urls[n - 1]).Some? { SeenSoFar(recent, urls, now, keyOf, n - 1, keyOf(urls[n - 1]).value); }
    }
  }

  /** A batch lets through exactly the first URL of every key that was not seen in the last 500 ms, in order. */
  lemma BatchAdmitsExactlyFresh<U, K>(recent: map<K, int>, urls: seq<U>, now: int, keyOf: U -> Option<K>)
    ensures Admitted(recent, urls, now, keyOf) == FreshUrls(recent, urls, now, keyOf, |urls|)
  {
    KeptIsAdmitted(recent, urls, now, keyOf);
    KeptIsFresh(recent, urls, now, keyOf, |urls|);
  }

  lemma {:induction false} AdmittedAreGiven<U, K>(recent: map<K, int>, urls: seq<U>, now: int, keyOf: U -> Option<K>)
    ensures forall i :: 0 <= i < |Admitted(recent, urls, now, keyOf)| ==> Admitted(recent, urls, now, keyOf)[i] in urls
    decreases |urls|
  {
    if urls != [] {
      var key := keyOf(urls[0]);
      AdmittedAreGiven(if key.None? then recent else Checked(recent, key.value, now), urls[1..], now, keyOf);
    }
  }

  // ------------------------------------------------------------------ any number of batches

  datatype Batch<U> = Batch(urls: seq<U>, now: int)

  function BatchTimes<U>(batches: seq<Batch<U>>): seq<int> {
    seq(|batches|, i requires 0 <= i < |batches| => batches[i].now)
  }

  function RecentAfterBatches<U, K>(batches: seq<Batch<U>>, n: nat, keyOf: U -> Option<K>): map<K, int>
    requires n <= |batches|
  {
    if n == 0 then map[]
    else CheckedAll(RecentAfterBatches(batches, n - 1, keyOf), batches[n - 1].urls, batches[n - 1].now, keyOf)
  }

  /** What batch `n` lets through. */
  function AdmittedBy<U, K(==)>(batches: seq<Batch<U>>, n: nat, keyOf: U -> Option<K>): seq<U>
    requires n < |batches|
  {
    Admitted(RecentAfterBatches(batches, n, keyOf), batches[n].urls, batches[n].now, keyOf)
  }

  /** A stamp inside the window outlives a batch. */
  lemma {:induction false} StampSurvivesBatch<U, K>(recent: map<K, int>, urls: seq<U>, now: int, keyOf: U -> Option<K>, key: K)
    requires key in Retained(recent, now)
    ensures key in CheckedAll(recent, urls, now, keyOf) && CheckedAll(recent, urls, now, keyOf)[key] == recent[key]
    decreases |urls|
  {
    if urls != [] {
      var k := keyOf(urls[0]);
      StampSurvivesBatch(if k.None? then recent else Checked(recent, k.value, now), urls[1..], now, keyOf, key);
    }
  }

  lemma {:induction false} AdmittedIsStamped<U, K>(recent: map<K, int>, urls: seq<U>, now: int, keyOf: U -> Option<K>, i: nat)
    requires i < |Admitted(recent, urls, now, keyOf)|
    ensures var key := keyOf(Admitted(recent, urls, now, keyOf)[i]);
            key.Some? && key.value in CheckedAll(recent, urls, now, keyOf) && CheckedAll(recent, urls, now, keyOf)[key.value] == now
    decreases |urls|
  {
    match keyOf(urls[0])
    case None => AdmittedIsStamped(recent, urls[1..], now, keyOf, i);
    case Some(key) =>
      var next := Checked(recent, key, now);
      if key in Retained(recent, now) {
        AdmittedIsStamped(next, urls[1..], now, keyOf, i);
      } else if i > 0 {
        AdmittedIsStamped(next, urls[1..], now, keyOf, i - 1);
      } else {
        StampSurvivesBatch(next, urls[1..], now, keyOf, key);
      }
  }

  lemma {:induction false} StampSurvivesBatches<U, K>(batches: seq<Batch<U>>, keyOf: U -> Option<K>, i: nat, n: nat, p: nat)
    requires i < n <= |batches| && p < |AdmittedBy(batches, i, keyOf)|
    requires forall k :: i < k < n ==> DurationSince(batches[k].now, batches[i].now) <= DEDUPLICATION_WINDOW_MS
    ensures var key, recent := keyOf(AdmittedBy(batches, i, keyOf)[p]), RecentAfterBatches(batches, n, keyOf);
            key.Some? && key.value in recent && recent[key.value] == batches[i].now
    decreases n
  {
    if n == i + 1 {
      AdmittedIsStamped(RecentAfterBatches(batches, i, keyOf), batches[i].urls, batches[i].now, keyOf, p);
    } else {
      StampSurvivesBatches(batches, keyOf, i, n - 1, p);
      var key := keyOf(AdmittedBy(batches, i, keyOf)[p]).value;
      StampSurvivesBatch(RecentAfterBatches(batches, n - 1, keyOf), batches[n - 1].urls, batches[n - 1].now, keyOf, key);
    }
  }

  predicate HasKey<U, K(==)>(urls: seq<U>, keyOf: U -> Option<K>, key: K) {
    exists p :: 0 <= p < |urls| && keyOf(urls[p]) == Some(key)
  }

  /** Batch `i` let a URL of the key through. */
  predicate LetsThrough<U, K(==)>(batches: seq<Batch<U>>, keyOf: U -> Option<K>, i: nat, key: K)
    requires i < |batches|
  {
    HasKey(AdmittedBy(batches, i, keyOf), keyOf, key)
  }

  lemma HasKeyCons<U, K>(url: U, rest: seq<U>, keyOf: U -> Option<K>, key: K)
    ensures HasKey([url] + rest, keyOf, key) <==> keyOf(url) == Some(key) || HasKey(rest, keyOf, key)
  {
    var all := [url] + rest;
    if p :| 0 <= p < |rest| && keyOf(rest[p]) == Some(key) { assert all[p + 1] == rest[p]; }
    if keyOf(url) == Some(key) { assert all[0] == url; }
    if p :| 0 <= p < |all| && keyOf(all[p]) == Some(key) { assert p > 0 ==> rest[p - 1] == all[p]; }
  }

  /** A stamp is from before the batch, or of a URL the batch let through. */
  lemma {:induction false} StampsOfBatch<U, K>(recent: map<K, int>, urls: seq<U>, now: int, keyOf: U -> Option<K>, key: K)
    requires key in CheckedAll(recent, urls, now, keyOf)
    ensures var all := CheckedAll(recent, urls, now, keyOf);
            (key in recent && all[key] == recent[key]) || (all[key] == now && HasKey(Admitted(recent, urls, now, keyOf), keyOf, key))
    decreases |urls|
  {
    if urls != [] {
      match keyOf(urls[0])
      case None => StampsOfBatch(recent, urls[1..], now, keyOf, key);
      case Some(k) =>
        var next := Checked(recent, k, now);
        StampsOfBatch(next, urls[1..], now, keyOf, key);
        HasKeyCons(urls[0], Admitted(next, urls[1..], now, keyOf), keyOf, key);
    }
  }

  lemma {:induction false} StampsOfBatches<U, K>(batches: seq<Batch<U>>, keyOf: U -> Option<K>, n: nat, key: K)
    requires n <= |batches| && key in RecentAfterBatches(batches, n, keyOf)
    ensures exists i :: 0 <= i < n && batches[i].now == RecentAfterBatches(batches, n, keyOf)[key] && LetsThrough(batches, keyOf, i, key)
  {
    var recent := RecentAfterBatches(batches, n - 1, keyOf);
    StampsOfBatch(recent, batches[n - 1].urls, batches[n - 1].now, keyOf, key);
    if key in recent && RecentAfterBatches(batches, n, keyOf)[key] == recent[key] {
      StampsOfBatches(batches, keyOf, n - 1, key);
    } else {
      assert batches[n - 1].now == RecentAfterBatches(batches, n, keyOf)[key] && LetsThrough(batches, keyOf, n - 1, key);
    }
  }

  lemma HasKeyAppend<U, K>(urls: seq<U>, url: U, keyOf: U -> Option<K>, key: K)
    ensures HasKey(urls + [url], keyOf, key) <==> HasKey(urls, keyOf, key) || keyOf(url) == Some(key)
  {
    var all := urls + [url];
    if p :| 0 <= p < |urls| && keyOf(urls[p]) == Some(key) { assert all[p] == urls[p]; }
    if keyOf(url) == Some(key) { assert all[|urls|] == url; }
    if p :| 0 <= p < |all| && keyOf(all[p]) == Some(key) { assert p < |urls| ==> urls[p] == all[p]; }
  }

  /** Among the first `n` URLs a key is let through if one of them has it and it was not seen in the window before. */
  lemma {:induction false} FreshHasKey<U, K>(recent: map<K, int>, urls: seq<U>, now: int, keyOf: U -> Option<K>, n: nat, key: K)
    requires n <= |urls|
    ensures HasKey(FreshUrls(recent, urls, now, keyOf, n), keyOf, key)
       <==> HasKey(urls[..n], keyOf, key) && !(key in recent && DurationSince(now, recent[key]) <= 500)
  {
    if n > 0 {
      FreshHasKey(recent, urls, now, keyOf, n - 1, key);
      HasKeyAppend(FreshUrls(recent, urls, now, keyOf, n - 1), urls[n - 1], keyOf, key);
      HasKeyAppend(urls[..n - 1], urls[n - 1], keyOf, key);
      assert urls[..n] == urls[..n - 1] + [urls[n - 1]];
      if keyOf(urls[n - 1]) == Some(key) && !HasKey(urls[..n - 1], keyOf, key) {
        assert forall m :: 0 <= m < n - 1 ==> urls[..n - 1][m] == urls[m];
      }
    }
  }

  /**
   * Over any sequence of calls at orderly times, a call lets a key through if and only if one of its URLs has that key and no call at
   * most 500 ms earlier let it through.
   */
  lemma LetsThroughIff<U, K>(batches: seq<Batch<U>>, keyOf: U -> Option<K>, j: nat, key: K)
    requires j < |batches| && Orderly(BatchTimes(batches))
    ensures LetsThrough(batches, keyOf, j, key)
       <==> && HasKey(batches[j].urls, keyOf, key)
            && !exists i :: 0 <= i < j && DurationSince(batches[j].now, batches[i].now) <= 500 && LetsThrough(batches, keyOf, i, key)
  {
    var recent := RecentAfterBatches(batches, j, keyOf);
    BatchAdmitsExactlyFresh(recent, batches[j].urls, batches[j].now, keyOf);
    FreshHasKey(recent, batches[j].urls, batches[j].now, keyOf, |batches[j].urls|, key);
    assert batches[j].urls[..|batches[j].urls|] == batches[j].urls;
    if key in recent { StampsOfBatches(batches, keyOf, j, key); }
    if i :| 0 <= i < j && DurationSince(batches[j].now, batches[i].now) <= 500 && LetsThrough(batches, keyOf, i, key) {
      StampIsRecent(batches, keyOf, i, j, key);
    }
  }

  lemma StampIsRecent<U, K>(batches: seq<Batch<U>>, keyOf: U -> Option<K>, i: nat, j: nat, key: K)
    requires i < j < |batches| && Orderly(BatchTimes(batches))
    requires DurationSince(batches[j].now, batches[i].now) <= 500 && LetsThrough(batches, keyOf, i, key)
    ensures var recent := RecentAfterBatches(batches, j, keyOf); key in recent && recent[key] == batches[i].now
  {
    var p :| 0 <= p < |AdmittedBy(batches, i, keyOf)| && keyOf(AdmittedBy(batches, i, keyOf)[p]) == Some(key);
    forall k | i < k < j ensures DurationSince(batches[k].now, batches[i].now) <= DEDUPLICATION_WINDOW_MS {
      assert !Returns(BatchTimes(batches), i, k, j);
    }
    StampSurvivesBatches(batches, keyOf, i, j, p);
  }

  /** Over any sequence of calls at orderly times, two requests with one key come from calls more than 500 ms apart. */
  lemma EqualKeysAreFarApart<U, K>(batches: seq<Batch<U>>, keyOf: U -> Option<K>, i: nat, j: nat, p: nat, q: nat)
    requires i < j < |batches| && Orderly(BatchTimes(batches))
    requires p < |AdmittedBy(batches, i, keyOf)| && q < |AdmittedBy(batches, j, keyOf)|
    requires keyOf(AdmittedBy(batches, i, keyOf)[p]) == keyOf(AdmittedBy(batches, j, keyOf)[q])
    ensures batches[j].now - batches[i].now > 500
  {
    if DurationSince(batches[j].now, batches[i].now) <= DEDUPLICATION_WINDOW_MS {
      forall k | i < k < j ensures DurationSince(batches[k].now, batches[i].now) <= DEDUPLICATION_WINDOW_MS {
        assert !Returns(BatchTimes(batches), i, k, j);
      }
      StampSurvivesBatches(batches, keyOf, i, j, p);
      BatchAdmitsFreshKeys(RecentAfterBatches(batches, j, keyOf), batches[j].urls, batches[j].now, keyOf, q);
      assert false;
    }
  }
}

/** The Rust side of external open: the per-window pending queue (`ExternalOpenState`). */
module ExternalOpenBackend {
  import opened Text
  import opened Deduplication
  import Args = ExternalOpenArgs

  /** Window labels are only ever compared. */
  type Label(==, !new)

  datatype Source = StartupArguments | SecondInstance | DeepLink

  datatype Request = Request(id: nat, rawUrl: string, source: Source, target: Label, receivedAtMs: nat)

  // ------------------------------------------------------------------ the pending queue

  function ForWindow(pending: seq<Request>, window: Label): seq<Request> {
    if pending == [] then []
    else if pending[0].target == window then [pending[0]] + ForWindow(pending[1..], window)
    else ForWindow(pending[1..], window)
  }

  function ForOthers(pending: seq<Request>, window: Label): seq<Request> {
    if pending == [] then []
    else if pending[0].target == window then ForOthers(pending[1..], window)
    else [pending[0]] + ForOthers(pending[1..], window)
  }

  lemma {:induction false} ForWindowAppends(a: seq<Request>, b: seq<Request>, window: Label)
    ensures ForWindow(a + b, window) == ForWindow(a, window) + ForWindow(b, window)
  {
    if a == [] {
      assert a + b == b;
    } else {
      ForWindowAppends(a[1..], b, window);
      assert (a + b)[0] == a[0] && (a + b)[1..] == a[1..] + b;
    }
  }

  /** A claim leaves nothing for its own window and does not touch, or reorder, any other window's requests. */
  lemma {:induction false} ClaimPartitions(pending: seq<Request>, window: Label, other: Label)
    ensures ForWindow(ForOthers(pending, window), window) == []
    ensures other != window ==> ForWindow(ForOthers(pending, window), other) == ForWindow(pending, other)
    ensures multiset(ForWindow(pending, window)) + multiset(ForOthers(pending, window)) == multiset(pending)
  {
    if pending != [] {
      ClaimPartitions(pending[1..], window, other);
      assert pending == [pending[0]] + pending[1..];
    }
  }

  /** A claim takes exactly the window's requests and leaves exactly the others. */
  lemma {:induction false} ClaimIsExact(pending: seq<Request>, window: Label, r: Request)
    ensures multiset(ForWindow(pending, window))[r] == if r.target == window then multiset(pending)[r] else 0
    ensures multiset(ForOthers(pending, window))[r] == if r.target == window then 0 else multiset(pending)[r]
  {
    if pending != [] {
      ClaimIsExact(pending[1..], window, r);
      assert pending == [pending[0]] + pending[1..];
    }
  }

  lemma {:induction false} ForOthersAppends(a: seq<Request>, b: seq<Request>, window: Label)
    ensures ForOthers(a + b, window) == ForOthers(a, window) + ForOthers(b, window)
  {
    if a == [] {
      assert a + b == b;
    } else {
      ForOthersAppends(a[1..], b, window);
      assert (a + b)[0] == a[0] && (a + b)[1..] == a[1..] + b;
    }
  }

  lemma OneRequest(r: Request, window: Label)
    ensures ForWindow([r], window) == if r.target == window then [r] else []
    ensures ForOthers([r], window) == if r.target == window then [] else [r]
  {
    assert [r][1..] == [];
  }

  /** One more request goes last where it belongs. */
  lemma OneMoreRequest(pending: seq<Request>, window: Label, r: Request)
    ensures ForWindow(pending + [r], window) == ForWindow(pending, window) + if r.target == window then [r] else []
    ensures ForOthers(pending + [r], window) == ForOthers(pending, window) + if r.target == window then [] else [r]
  {
    ForWindowAppends(pending, [r], window);
    ForOthersAppends(pending, [r], window);
    OneRequest(r, window);
  }

  // ------------------------------------------------------------------ one batch

  /** The key `enqueue_batch` checks, or none when the scheme test skips the URL first. */
  function KeyOf(url: string): Option<string> {
    if Args.AllowedScheme(url).None? then None else Some(Args.DeduplicationKey(url))
  }

  /** `clock` gives the time at which the request of a given id is made. */
  function Stamped(urls: seq<string>, firstId: nat, source: Source, target: Label, clock: nat -> nat): seq<Request> {
    seq(|urls|, i requires 0 <= i < |urls| => Request(firstId + i, urls[i], source, target, clock(firstId + i)))
  }

  lemma StampedAppend(
    before: seq<Request>, urls: seq<string>, url: string, firstId: nat, source: Source, target: Label, clock: nat -> nat)
    ensures before + Stamped(urls, firstId, source, target, clock)
                   + [Request(firstId + |urls|, url, source, target, clock(firstId + |urls|))]
         == before + Stamped(urls + [url], firstId, source, target, clock)
  {
  }

  /** `ExternalOpenState`; `nextId` stands for the fresh UUIDs. */
  class ExternalOpenState {
    var pending: seq<Request>
    var recent: map<string, int>
    var nextId: nat

    constructor ()
      ensures pending == [] && recent == map[]
    {
      pending, recent, nextId := [], map[], 0;
    }

    method IsDuplicate(key: string, now: int) returns (duplicate: bool)
      modifies this`recent
      ensures duplicate <==> key in Retained(old(recent), now)
      ensures recent == Checked(old(recent), key, now)
    {
      recent := Retained(recent, now);
      if key in recent && DurationSince(now, recent[key]) <= DEDUPLICATION_WINDOW_MS {
        return true;
      }
      recent := recent[key := now];
      return false;
    }

    method EnqueueBatch(
      values: seq<string>, source: Source, target: Label, now: int, clock: nat -> nat, encode: string -> string
    ) returns (enqueued: nat)
      modifies this
      ensures var urls := Admitted(old(recent), Args.Extracted(values, encode), now, KeyOf);
              && enqueued == |urls|
              && pending == old(pending) + Stamped(urls, old(nextId), source, target, clock)
              && nextId == old(nextId) + enqueued
      ensures recent == CheckedAll(old(recent), Args.Extracted(values, encode), now, KeyOf)
      ensures forall r :: r in pending[|old(pending)|..] ==>
                r.rawUrl in Args.Extracted(values, encode) && r.target == target && r.source == source
    {
      var candidates := Args.ExtractExternalOpenUrls(values, encode);
      AdmittedAreGiven(recent, candidates, now, KeyOf);
      enqueued := EnqueueUrls(candidates, source, target, now, clock, KeyOf);
    }

    /** The loop of `enqueue_batch`, over any rule for the key of a URL. */
    method EnqueueUrls(
      candidates: seq<string>, source: Source, target: Label, now: int, clock: nat -> nat, keyOf: string -> Option<string>
    ) returns (enqueued: nat)
      modifies this
      ensures var urls := Admitted(old(recent), candidates, now, keyOf);
              && enqueued == |urls|
              && pending == old(pending) + Stamped(urls, old(nextId), source, target, clock)
              && nextId == old(nextId) + enqueued
      ensures recent == CheckedAll(old(recent), candidates, now, keyOf)
    {
      enqueued := 0;
      ghost var kept, at := BatchPlan(recent, candidates, now, keyOf);
      for i := 0 to |candidates|
        invariant recent == at(i) && enqueued == |kept(i)| && nextId == old(nextId) + enqueued
        invariant pending == old(pending) + Stamped(kept(i), old(nextId), source, target, clock)
      {
        var candidate := candidates[i];
        assert IsBatchStep(kept(i), at(i), candidate, now, keyOf, kept(i + 1), at(i + 1));
        var key := keyOf(candidate);
        if key.None? { continue; }
        var duplicate := IsDuplicate(key.value, now);
        if duplicate { continue; }
        StampedAppend(old(pending), kept(i), candidate, old(nextId), source, target, clock);
        pending := pending + [Request(nextId, candidate, source, target, clock(nextId))];
        nextId := nextId + 1;
        enqueued := enqueued + 1;
      }
    }

    method ClaimForWindow(window: Label) returns (claimed: seq<Request>)
      modifies this`pending
      ensures claimed == ForWindow(old(pending), window)
      ensures pending == ForOthers(old(pending), window)
    {
      claimed := [];
      var retained: seq<Request> := [];
      while pending != []
        invariant ForWindow(old(pending), window) == claimed + ForWindow(pending, window)
        invariant ForOthers(old(pending), window) == retained + ForOthers(pending, window)
        decreases |pending|
      {
        var request := pending[0];
        pending := pending[1..];
        if request.target == window {
          claimed := claimed + [request];
        } else {
          retained := retained + [request];
        }
      }
      pending := retained;
    }
  }

  /** The scheme test inside `enqueue_batch` never fires: every extracted URL has a key. */
  lemma SchemeTestPasses(values: seq<string>, encode: string -> string, candidate: string)
    ensures candidate in Args.Extracted(values, encode) ==> KeyOf(candidate) == Some(Args.DeduplicationKey(candidate))
  {
    Args.ExtractedUrlIsAcceptable(values, encode, candidate);
  }
}
