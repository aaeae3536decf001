/** The signaling server's token bucket per client (apps/signaling/src/rateLimit.ts). Times are milliseconds. */
module RateLimiting {
  import opened Basics

  const MAX_BUCKETS: nat := 100_000

  datatype Policy = Policy(capacity: real, refillPerSecond: real) {
    predicate Sane() {
      capacity >= 0.0 && refillPerSecond >= 0.0
    }
  }

  datatype Bucket = Bucket(tokens: real, updatedAt: real)

  function Earned(p: Policy, ms: real): real {
    ms / 1000.0 * p.refillPerSecond
  }

  function MinReal(x: real, y: real): real {
    if x <= y then x else y
  }

  /** The lazy refill: only when someone asks. */
  function Refilled(p: Policy, b: Bucket, at: real): real {
    MinReal(p.capacity, b.tokens + Earned(p, at - b.updatedAt))
  }

  /** A token is spent if there is a whole one. */
  function Spent(level: real, at: real): Bucket {
    Bucket(if level < 1.0 then level else level - 1.0, at)
  }

  class RateLimiter {
    const policy: Policy
    var buckets: map<string, Bucket>

    constructor (policy: Policy)
      ensures this.policy == policy && buckets == map[]
    {
      this.policy := policy;
      buckets := map[];
    }

    /** Keys beyond the limit empty the whole table first, so everyone starts afresh. */
    method Take(key: string, at: real) returns (admitted: bool)
      modifies this
      ensures buckets == Taken(policy, old(buckets), key, at)
      ensures admitted == (LevelFor(policy, old(buckets), key, at) >= 1.0)
    {
      if |buckets| > MAX_BUCKETS {
        buckets := map[];
      }
      var bucket := if key in buckets then buckets[key] else Bucket(policy.capacity, at);
      var refilled := Refilled(policy, bucket, at);
      if refilled < 1.0 {
        buckets := buckets[key := Bucket(refilled, at)];
        return false;
      }
      buckets := buckets[key := Bucket(refilled - 1.0, at)];
      return true;
    }
  }

  function Kept(buckets: map<string, Bucket>): map<string, Bucket> {
    if |buckets| > MAX_BUCKETS then map[] else buckets
  }

  function LevelFor(p: Policy, buckets: map<string, Bucket>, key: string, at: real): real {
    Refilled(p, if key in Kept(buckets) then Kept(buckets)[key] else Bucket(p.capacity, at), at)
  }

  function Taken(p: Policy, buckets: map<string, Bucket>, key: string, at: real): map<string, Bucket> {
    Kept(buckets)[key := Spent(LevelFor(p, buckets, key, at), at)]
  }

  // ---- one key ---------------------------------------------------------------------

  ghost predicate InOrder(ts: seq<real>) {
    forall i, j :: 0 <= i <= j < |ts| ==> ts[i] <= ts[j]
  }

  /** What the bucket holds when the `n`-th call asks. */
  function Level(p: Policy, ts: seq<real>, n: nat): real
    requires n < |ts|
  {
    if n == 0 then Refilled(p, Bucket(p.capacity, ts[0]), ts[0])
    else Refilled(p, Spent(Level(p, ts, n - 1), ts[n - 1]), ts[n])
  }

  predicate Admits(p: Policy, ts: seq<real>, n: nat)
    requires n < |ts|
  {
    Level(p, ts, n) >= 1.0
  }

  /** How many of the calls `lo` to `hi` exclusive were admitted. */
  function Admitted(p: Policy, ts: seq<real>, lo: nat, hi: nat): nat
    requires lo <= hi <= |ts|
    decreases hi
  {
    if lo == hi then 0 else Admitted(p, ts, lo, hi - 1) + if Admits(p, ts, hi - 1) then 1 else 0
  }

  lemma EarnedAdds(p: Policy, x: real, y: real)
    ensures Earned(p, x + y) == Earned(p, x) + Earned(p, y)
    ensures Earned(p, 0.0) == 0.0
  {
    assert (x + y) / 1000.0 == x / 1000.0 + y / 1000.0;
    var a, b, r := x / 1000.0, y / 1000.0, p.refillPerSecond;
    assert (a + b) * r == a * r + b * r;
  }

  lemma EarnedNotNegative(p: Policy, ms: real)
    requires p.Sane() && ms >= 0.0
    ensures Earned(p, ms) >= 0.0
  {
    var s := ms / 1000.0;
    assert s >= 0.0;
  }

  /** The rate is per second, the clock in milliseconds. */
  lemma EarnedPerSecond(p: Policy, ms: real)
    ensures 1000.0 * Earned(p, ms) == p.refillPerSecond * ms
  {
    var s := ms / 1000.0;
    assert ms == 1000.0 * s;
    assert 1000.0 * (s * p.refillPerSecond) == p.refillPerSecond * (1000.0 * s);
  }

  /** A whole token is spent by a call that is admitted, none by one that is not; a second later a second's worth is back. */
  lemma {:induction false} SecondLater(p: Policy, ts: seq<real>, n: nat)
    requires n + 1 < |ts| && ts[n + 1] == ts[n] + 1000.0
    ensures var left := Level(p, ts, n) - if Level(p, ts, n) >= 1.0 then 1.0 else 0.0;
      Level(p, ts, n + 1) == if left + p.refillPerSecond <= p.capacity then left + p.refillPerSecond else p.capacity
  {
    hide Level;
    EarnedPerSecond(p, 1000.0);
    assert Level(p, ts, n + 1) == Refilled(p, Spent(Level(p, ts, n), ts[n]), ts[n + 1]) by {
      LevelOneMore(p, ts, n);
    }
  }

  lemma {:induction false} LevelOneMore(p: Policy, ts: seq<real>, n: nat)
    requires n + 1 < |ts|
    ensures Level(p, ts, n + 1) == Refilled(p, Spent(Level(p, ts, n), ts[n]), ts[n + 1])
  {
    hide Refilled, Spent;
  }

  /** The bucket never goes below empty or above full. */
  lemma {:induction false} TokensInRange(p: Policy, ts: seq<real>, n: nat)
    requires p.Sane() && InOrder(ts) && n < |ts|
    ensures 0.0 <= Level(p, ts, n) <= p.capacity
    ensures 0.0 <= Spent(Level(p, ts, n), ts[n]).tokens <= p.capacity
  {
    hide Earned;
    if n == 0 {
      EarnedAdds(p, 0.0, 0.0);
    } else {
      TokensInRange(p, ts, n - 1);
      EarnedNotNegative(p, ts[n] - ts[n - 1]);
    }
  }

  /** Asking more often does not change what is there: refilling at any moment in between comes to the same. */
  lemma LazyIsContinuous(p: Policy, b: Bucket, between: real, at: real)
    requires p.Sane() && b.updatedAt <= between <= at && b.tokens <= p.capacity
    ensures Refilled(p, Bucket(Refilled(p, b, between), between), at) == Refilled(p, b, at)
  {
    hide Earned;
    EarnedAdds(p, between - b.updatedAt, at - between);
    EarnedNotNegative(p, at - between);
    assert (between - b.updatedAt) + (at - between) == at - b.updatedAt;
  }

  /** What a full bucket at call `k` would have left for call `n`, given what was admitted since: the room in that window. */
  function Room(p: Policy, ts: seq<real>, k: nat, n: nat): real
    requires k <= n < |ts|
  {
    p.capacity + Earned(p, ts[n] - ts[k]) - Admitted(p, ts, k, n) as real
  }

  lemma RoomStep(p: Policy, ts: seq<real>, k: nat, n: nat)
    requires k <= n && n + 1 < |ts|
    ensures Room(p, ts, k, n + 1) == Room(p, ts, k, n) - (if Admits(p, ts, n) then 1.0 else 0.0) + Earned(p, ts[n + 1] - ts[n])
  {
    hide Earned, Level;
    EarnedAdds(p, ts[n] - ts[k], ts[n + 1] - ts[n]);
    assert (ts[n] - ts[k]) + (ts[n + 1] - ts[n]) == ts[n + 1] - ts[k];
  }

  /** The level is the room left in the tightest of all windows that end now. */
  lemma {:induction false} LevelIsTightestWindow(p: Policy, ts: seq<real>, n: nat) returns (tightest: nat)
    requires p.Sane() && InOrder(ts) && n < |ts|
    ensures forall k :: 0 <= k <= n ==> Level(p, ts, n) <= Room(p, ts, k, n)
    ensures tightest <= n && Level(p, ts, n) == Room(p, ts, tightest, n)
  {
    hide Earned;
    EarnedAdds(p, 0.0, 0.0);
    if n == 0 {
      tightest := 0;
    } else {
      var before := LevelIsTightestWindow(p, ts, n - 1);
      forall k | 0 <= k < n
        ensures Level(p, ts, n) <= Room(p, ts, k, n)
      {
        RoomStep(p, ts, k, n - 1);
      }
      RoomStep(p, ts, before, n - 1);
      tightest := if Level(p, ts, n) == p.capacity then n else before;
      assert Room(p, ts, n, n) == p.capacity;
    }
  }

  /** A bound by what is earned, with the rate spelled out. */
  lemma SpelledOut(p: Policy, admitted: real, ms: real)
    ensures admitted <= p.capacity + Earned(p, ms) <==> 1000.0 * admitted <= 1000.0 * p.capacity + p.refillPerSecond * ms
  {
    hide Earned;
    EarnedPerSecond(p, ms);
  }

  /** In any window the calls admitted number at most the capacity plus what is earned over it. */
  lemma {:induction false} WindowBound(p: Policy, ts: seq<real>, i: nat, j: nat)
    requires p.Sane() && InOrder(ts) && i < j <= |ts|
    ensures Admitted(p, ts, i, j) as real <= p.capacity + Earned(p, ts[j - 1] - ts[i])
    ensures 1000.0 * Admitted(p, ts, i, j) as real <= 1000.0 * p.capacity + p.refillPerSecond * (ts[j - 1] - ts[i])
  {
    hide Earned, Level, Room, Admitted, InOrder, Refilled, Spent;
    WithinEarned(p, ts, i, j);
    var admitted, ms := Admitted(p, ts, i, j) as real, ts[j - 1] - ts[i];
    SpelledOut(p, admitted, ms);
    assert 1000.0 * admitted <= 1000.0 * p.capacity + p.refillPerSecond * ms;
  }

  lemma {:induction false} WithinEarned(p: Policy, ts: seq<real>, i: nat, j: nat)
    requires p.Sane() && InOrder(ts) && i < j <= |ts|
    ensures Admitted(p, ts, i, j) as real <= p.capacity + Earned(p, ts[j - 1] - ts[i])
  {
    hide Earned, Level;
    var _ := LevelIsTightestWindow(p, ts, j - 1);
    TokensInRange(p, ts, j - 1);
    var before, one := Admitted(p, ts, i, j - 1), if Admits(p, ts, j - 1) then 1 else 0;
    assert one as real <= Level(p, ts, j - 1) <= Room(p, ts, i, j - 1);
    assert Room(p, ts, i, j - 1) == p.capacity + Earned(p, ts[j - 1] - ts[i]) - before as real;
    assert before as real + one as real <= p.capacity + Earned(p, ts[j - 1] - ts[i]);
    assert Admitted(p, ts, i, j) == before + one;
  }

  /** The same over the clock: whatever calls fall between two moments. */
  lemma {:induction false} TimeWindowBound(p: Policy, ts: seq<real>, i: nat, j: nat, start: real, end: real)
    requires p.Sane() && InOrder(ts) && i < j <= |ts| && start <= ts[i] && ts[j - 1] <= end
    ensures Admitted(p, ts, i, j) as real <= p.capacity + Earned(p, end - start)
  {
    hide Earned, Admitted;
    WindowBound(p, ts, i, j);
    EarnedAdds(p, ts[j - 1] - ts[i], (end - start) - (ts[j - 1] - ts[i]));
    EarnedNotNegative(p, (end - start) - (ts[j - 1] - ts[i]));
    assert ts[j - 1] - ts[i] + ((end - start) - (ts[j - 1] - ts[i])) == end - start;
  }

  /** One more call at number `n` would break the bound of the window that begins with number `k`. */
  ghost predicate WindowFull(p: Policy, ts: seq<real>, k: nat, n: nat)
    requires k <= n < |ts|
  {
    1000.0 * (Admitted(p, ts, k, n) + 1) as real > 1000.0 * p.capacity + p.refillPerSecond * (ts[n] - ts[k])
  }

  /** A call is refused exactly when admitting it would break the bound of some window that ends with it. */
  lemma {:induction false} RefusedIffAWindowIsFull(p: Policy, ts: seq<real>, n: nat)
    requires p.Sane() && InOrder(ts) && n < |ts|
    ensures !Admits(p, ts, n) <==> exists k :: 0 <= k <= n && WindowFull(p, ts, k, n)
  {
    RefusedIffNoRoom(p, ts, n);
    hide Earned, Level, Admitted, Admits;
    forall k | 0 <= k <= n
      ensures WindowFull(p, ts, k, n) <==> (Admitted(p, ts, k, n) + 1) as real > p.capacity + Earned(p, ts[n] - ts[k])
    {
      SpelledOut(p, (Admitted(p, ts, k, n) + 1) as real, ts[n] - ts[k]);
    }
  }

  lemma {:induction false} RefusedIffNoRoom(p: Policy, ts: seq<real>, n: nat)
    requires p.Sane() && InOrder(ts) && n < |ts|
    ensures !Admits(p, ts, n) <==>
      exists k :: 0 <= k <= n && (Admitted(p, ts, k, n) + 1) as real > p.capacity + Earned(p, ts[n] - ts[k])
  {
    var t := LevelIsTightestWindow(p, ts, n);
    hide Earned, Level;
    assert forall k :: 0 <= k <= n ==> Level(p, ts, n) <= Room(p, ts, k, n);
    if !Admits(p, ts, n) {
      assert Room(p, ts, t, n) < 1.0;
      assert (Admitted(p, ts, t, n) + 1) as real > p.capacity + Earned(p, ts[n] - ts[t]);
    }
    if k :| 0 <= k <= n && (Admitted(p, ts, k, n) + 1) as real > p.capacity + Earned(p, ts[n] - ts[k]) {
      assert Level(p, ts, n) <= Room(p, ts, k, n) < 1.0;
    }
  }

  // ---- many keys -------------------------------------------------------------------

  datatype Call = Call(key: string, at: real)

  function After(p: Policy, calls: seq<Call>): map<string, Bucket> {
    if |calls| == 0 then map[]
    else Taken(p, After(p, calls[..|calls| - 1]), calls[|calls| - 1].key, calls[|calls| - 1].at)
  }

  /** The table never grew past its limit. */
  ghost predicate NeverCleared(p: Policy, calls: seq<Call>) {
    forall n :: 0 <= n <= |calls| ==> |After(p, calls[..n])| <= MAX_BUCKETS
  }

  function TimesOf(calls: seq<Call>, key: string): seq<real> {
    if |calls| == 0 then []
    else TimesOf(calls[..|calls| - 1], key) + if calls[|calls| - 1].key == key then [calls[|calls| - 1].at] else []
  }

  lemma {:induction false} LevelPrefix(p: Policy, ts: seq<real>, more: seq<real>, n: nat)
    requires n < |ts| && ts <= more
    ensures Level(p, more, n) == Level(p, ts, n)
  {
    hide Refilled, Spent;
    if n > 0 {
      LevelPrefix(p, ts, more, n - 1);
    }
  }

  /** While the table is never cleared, each key's bucket is as if that key were alone. */
  lemma {:induction false} KeysAreIndependent(p: Policy, calls: seq<Call>, key: string)
    requires NeverCleared(p, calls)
    ensures var ts := TimesOf(calls, key);
      if ts == [] then key !in After(p, calls)
      else key in After(p, calls) && After(p, calls)[key] == Spent(Level(p, ts, |ts| - 1), ts[|ts| - 1])
  {
    hide Refilled, Spent;
    if |calls| > 0 {
      var n := |calls| - 1;
      var earlier, last := calls[..n], calls[n];
      EarlierNotCleared(p, calls);
      KeysAreIndependent(p, earlier, key);
      var ts := TimesOf(earlier, key);
      assert Kept(After(p, earlier)) == After(p, earlier);
      if last.key == key {
        var longer := ts + [last.at];
        assert TimesOf(calls, key) == longer;
        if ts != [] {
          LevelPrefix(p, ts, longer, |ts| - 1);
        }
        assert LevelFor(p, After(p, earlier), key, last.at) == Level(p, longer, |ts|);
      } else {
        assert TimesOf(calls, key) == ts;
      }
    }
  }

  lemma {:induction false} EarlierNotCleared(p: Policy, calls: seq<Call>)
    requires |calls| > 0 && NeverCleared(p, calls)
    ensures NeverCleared(p, calls[..|calls| - 1]) && |After(p, calls[..|calls| - 1])| <= MAX_BUCKETS
  {
    hide After;
    var earlier := calls[..|calls| - 1];
    forall n | 0 <= n <= |earlier|
      ensures |After(p, earlier[..n])| <= MAX_BUCKETS
    {
      assert earlier[..n] == calls[..n];
    }
    assert |After(p, calls[..|calls| - 1])| <= MAX_BUCKETS;
  }

  /** So a call's verdict depends on that key's earlier calls alone. */
  lemma {:induction false} VerdictIsPerKey(p: Policy, calls: seq<Call>, key: string, at: real)
    requires NeverCleared(p, calls)
    ensures var ts := TimesOf(calls, key) + [at]; LevelFor(p, After(p, calls), key, at) == Level(p, ts, |ts| - 1)
  {
    hide Refilled, Spent;
    KeysAreIndependent(p, calls, key);
    assert calls[..|calls|] == calls;
    var ts := TimesOf(calls, key);
    if ts != [] {
      LevelPrefix(p, ts, ts + [at], |ts| - 1);
    }
  }

  // ---- when the table is never cleared ---------------------------------------------

  function KeysOf(calls: seq<Call>): set<string> {
    if |calls| == 0 then {} else KeysOf(calls[..|calls| - 1]) + {calls[|calls| - 1].key}
  }

  /** Until it is cleared the table holds the keys that called. */
  lemma {:induction false} HoldsItsKeys(p: Policy, calls: seq<Call>)
    requires |calls| > 0 ==> NeverCleared(p, calls[..|calls| - 1])
    ensures After(p, calls).Keys == KeysOf(calls) && |After(p, calls)| == |KeysOf(calls)|
  {
    hide LevelFor, Spent;
    if |calls| > 0 {
      var earlier := calls[..|calls| - 1];
      if |earlier| > 0 {
        EarlierNotCleared(p, earlier);
      }
      HoldsItsKeys(p, earlier);
      assert earlier[..|earlier|] == earlier;
      assert Kept(After(p, earlier)) == After(p, earlier);
    }
    assert |After(p, calls).Keys| == |After(p, calls)|;
  }

  /** The table is never cleared exactly if no more than a hundred thousand different keys call. */
  lemma {:induction false} NeverClearedIff(p: Policy, calls: seq<Call>)
    ensures NeverCleared(p, calls) <==> |KeysOf(calls)| <= 100_000
  {
    hide After;
    assert calls[..|calls|] == calls;
    if |calls| == 0 {
      NoCallsNoKeys(p);
    } else {
      var earlier := calls[..|calls| - 1];
      NeverClearedIff(p, earlier);
      FewerKeys(calls);
      if NeverCleared(p, calls) {
        EarlierNotCleared(p, calls);
      }
      if NeverCleared(p, earlier) {
        HoldsItsKeys(p, calls);
      }
      if NeverCleared(p, earlier) && |KeysOf(calls)| <= MAX_BUCKETS {
        forall n | 0 <= n <= |calls|
          ensures |After(p, calls[..n])| <= MAX_BUCKETS
        {
          if n < |calls| {
            assert calls[..n] == earlier[..n];
          }
        }
      }
    }
  }

  lemma {:induction false} NoCallsNoKeys(p: Policy)
    ensures NeverCleared(p, []) && KeysOf([]) == {}
  {
    var none: seq<Call> := [];
    assert none[..0] == none;
  }

  lemma {:induction false} FewerKeys(calls: seq<Call>)
    requires |calls| > 0
    ensures |KeysOf(calls[..|calls| - 1])| <= |KeysOf(calls)|
  {
    Subset(KeysOf(calls[..|calls| - 1]), KeysOf(calls));
  }

  lemma {:induction false} Subset(x: set<string>, y: set<string>)
    requires x <= y
    ensures |x| <= |y|
  {
    assert y == x + (y - x);
  }

  // ---- the bound over the whole table ----------------------------------------------

  /** The table's verdict on the last of the calls. */
  predicate LastAdmitted(p: Policy, calls: seq<Call>)
    requires |calls| > 0
  {
    var n := |calls| - 1;
    LevelFor(p, After(p, calls[..n]), calls[n].key, calls[n].at) >= 1.0
  }

  /** How many of this key's calls, from number `lo` on, the table admitted. */
  function AdmittedSince(p: Policy, calls: seq<Call>, key: string, lo: nat): nat
    decreases |calls|
  {
    if |calls| <= lo then 0
    else
      var n := |calls| - 1;
      AdmittedSince(p, calls[..n], key, lo) + if calls[n].key == key && LastAdmitted(p, calls) then 1 else 0
  }

  ghost predicate CallsInOrder(calls: seq<Call>) {
    forall i, j :: 0 <= i <= j < |calls| ==> calls[i].at <= calls[j].at
  }

  /** One key's times are in order, and its last is no later than the last call. */
  lemma {:induction false} TimesInOrder(calls: seq<Call>, key: string)
    requires CallsInOrder(calls)
    ensures var ts := TimesOf(calls, key); InOrder(ts) && (ts != [] ==> ts[|ts| - 1] <= calls[|calls| - 1].at && calls != [])
  {
    if |calls| > 0 {
      var earlier := calls[..|calls| - 1];
      TimesInOrder(earlier, key);
      assert |earlier| > 0 ==> earlier[|earlier| - 1].at <= calls[|calls| - 1].at;
      var ts, longer := TimesOf(earlier, key), TimesOf(calls, key);
      assert longer == ts || longer == ts + [calls[|calls| - 1].at];
    }
  }

  /** A key's times from call `lo` on come after its earlier ones, and are times of those calls. */
  lemma {:induction false} TimesSince(calls: seq<Call>, key: string, lo: nat, start: real)
    requires lo <= |calls| && forall n :: lo <= n < |calls| ==> start <= calls[n].at
    ensures TimesOf(calls[..lo], key) <= TimesOf(calls, key)
    ensures forall i :: |TimesOf(calls[..lo], key)| <= i < |TimesOf(calls, key)| ==> start <= TimesOf(calls, key)[i]
  {
    if lo < |calls| {
      var earlier := calls[..|calls| - 1];
      TimesSince(earlier, key, lo, start);
      assert earlier[..lo] == calls[..lo];
    } else {
      assert calls[..lo] == calls;
    }
  }

  /** What the table admits of a key is what the key's bucket admits when it is alone. */
  lemma {:induction false} AdmittedAsIfAlone(p: Policy, calls: seq<Call>, key: string, lo: nat)
    requires lo <= |calls| && (|calls| > 0 ==> NeverCleared(p, calls[..|calls| - 1]))
    ensures |TimesOf(calls[..lo], key)| <= |TimesOf(calls, key)|
    ensures AdmittedSince(p, calls, key, lo) == Admitted(p, TimesOf(calls, key), |TimesOf(calls[..lo], key)|, |TimesOf(calls, key)|)
  {
    hide LevelFor, Level, After, NeverCleared;
    if lo == |calls| {
      assert calls[..lo] == calls;
    } else {
      var n := |calls| - 1;
      var earlier, last := calls[..n], calls[n];
      assert earlier[..lo] == calls[..lo];
      if n > 0 {
        EarlierNotCleared(p, earlier);
      }
      AdmittedAsIfAlone(p, earlier, key, lo);
      var ts, first := TimesOf(earlier, key), |TimesOf(calls[..lo], key)|;
      if last.key == key {
        assert TimesOf(calls, key) == ts + [last.at];
        VerdictIsPerKey(p, earlier, key, last.at);
        AdmittedPrefix(p, ts, ts + [last.at], first, |ts|);
        assert LastAdmitted(p, calls) <==> Admits(p, ts + [last.at], |ts|);
      } else {
        assert TimesOf(calls, key) == ts;
      }
    }
  }

  lemma {:induction false} AdmittedPrefix(p: Policy, ts: seq<real>, more: seq<real>, lo: nat, hi: nat)
    requires ts <= more && lo <= hi <= |ts|
    ensures Admitted(p, more, lo, hi) == Admitted(p, ts, lo, hi)
    decreases hi
  {
    hide Level;
    if lo < hi {
      AdmittedPrefix(p, ts, more, lo, hi - 1);
      LevelPrefix(p, ts, more, hi - 1);
    }
  }

  /**
   The bound over the whole table: as long as at most a hundred thousand different keys called before the
   last call, what one key was admitted in any window is at most the capacity plus what it earns over it.
   */
  lemma {:induction false} TableWindowBound(p: Policy, calls: seq<Call>, key: string, lo: nat, start: real, end: real)
    requires p.Sane() && CallsInOrder(calls) && lo < |calls| && |KeysOf(calls[..|calls| - 1])| <= 100_000
    requires start <= calls[lo].at && calls[|calls| - 1].at <= end
    ensures 1000.0 * AdmittedSince(p, calls, key, lo) as real <= 1000.0 * p.capacity + p.refillPerSecond * (end - start)
  {
    hide Earned, AdmittedSince, KeysOf;
    TableWithinEarned(p, calls, key, lo, start, end);
    SpelledOut(p, AdmittedSince(p, calls, key, lo) as real, end - start);
  }

  lemma {:induction false} TableWithinEarned(p: Policy, calls: seq<Call>, key: string, lo: nat, start: real, end: real)
    requires p.Sane() && CallsInOrder(calls) && lo < |calls| && |KeysOf(calls[..|calls| - 1])| <= 100_000
    requires start <= calls[lo].at && calls[|calls| - 1].at <= end
    ensures AdmittedSince(p, calls, key, lo) as real <= p.capacity + Earned(p, end - start)
  {
    hide Earned, LevelFor, Level, After, NeverCleared, AdmittedSince;
    NeverClearedIff(p, calls[..|calls| - 1]);
    AdmittedAsIfAlone(p, calls, key, lo);
    TimesInOrder(calls, key);
    TimesSince(calls, key, lo, start);
    var ts, i := TimesOf(calls, key), |TimesOf(calls[..lo], key)|;
    if i < |ts| {
      TimeWindowBound(p, ts, i, |ts|, start, end);
    } else {
      EarnedNotNegative(p, end - start);
    }
  }

  // ---- when it is ------------------------------------------------------------------

  /** Clearing the table forgives everyone: the next call of any key finds a full bucket. */
  lemma ClearingForgives(p: Policy, buckets: map<string, Bucket>, key: string, at: real)
    requires |buckets| > MAX_BUCKETS
    ensures LevelFor(p, buckets, key, at) == p.capacity
  {
    EarnedAdds(p, 0.0, 0.0);
  }

  /** The `i`-th of as many keys as one likes. */
  function Unary(i: nat): string {
    seq(i, _ => '1')
  }

  /** One call each of `k` different keys, all at the same moment. */
  function OneEach(k: nat): seq<Call> {
    seq(k, i requires 0 <= i < k => Call(Unary(i), 0.0))
  }

  function UnaryKeys(k: nat): (keys: set<string>)
    ensures |keys| == k && forall x :: x in keys ==> |x| < k
  {
    if k == 0 then {} else UnaryKeys(k - 1) + {Unary(k - 1)}
  }

  lemma {:induction false} AfterOneMore(p: Policy, calls: seq<Call>, c: Call)
    ensures After(p, calls + [c]).Keys == Kept(After(p, calls)).Keys + {c.key}
    ensures KeysOf(calls + [c]) == KeysOf(calls) + {c.key}
  {
    hide LevelFor, Spent, Kept;
    assert (calls + [c])[..|calls|] == calls;
  }

  lemma OneEachMore(calls: seq<Call>, k: nat)
    requires k > 0
    ensures calls + OneEach(k) == (calls + OneEach(k - 1)) + [Call(Unary(k - 1), 0.0)]
  {
    hide Unary;
  }

  lemma OneEachNone(calls: seq<Call>)
    ensures calls + OneEach(0) == calls
  {
    hide Unary;
  }

  lemma {:induction false} OneKeyMore(k: nat)
    requires k > 0
    ensures UnaryKeys(k) == UnaryKeys(k - 1) + {Unary(k - 1)} && UnaryKeys(0) == {}
  {
    hide Unary;
  }

  /** After a clearing, or at the start, one call each fills the table with those keys. */
  lemma {:induction false} OneEachFills(p: Policy, calls: seq<Call>, k: nat)
    requires Kept(After(p, calls)) == map[] && 1 <= k <= MAX_BUCKETS + 1
    ensures After(p, calls + OneEach(k)).Keys == UnaryKeys(k)
  {
    hide After, OneEach, Unary, UnaryKeys;
    OneEachMore(calls, k);
    AfterOneMore(p, calls + OneEach(k - 1), Call(Unary(k - 1), 0.0));
    OneKeyMore(k);
    if k == 1 {
      OneEachNone(calls);
    } else {
      OneEachFills(p, calls, k - 1);
      var before := After(p, calls + OneEach(k - 1));
      assert |before| == |before.Keys| == k - 1;
    }
  }

  /** `n` rounds, each one call of a hundred thousand and one different keys. */
  function Rounds(n: nat): seq<Call> {
    if n == 0 then [] else Rounds(n - 1) + OneEach(MAX_BUCKETS + 1)
  }

  lemma {:induction false} RoundsEndFull(p: Policy, n: nat)
    ensures Kept(After(p, Rounds(n))) == map[]
  {
    hide LevelFor, Spent, OneEach, Taken;
    if n > 0 {
      RoundsEndFull(p, n - 1);
      OneEachFills(p, Rounds(n - 1), MAX_BUCKETS + 1);
      var full := After(p, Rounds(n));
      assert |full| == |full.Keys| == MAX_BUCKETS + 1;
    }
  }

  lemma {:induction false} MoreCallsMoreAdmitted(p: Policy, calls: seq<Call>, more: seq<Call>, key: string)
    ensures AdmittedSince(p, calls, key, 0) <= AdmittedSince(p, calls + more, key, 0)
  {
    hide LastAdmitted;
    if |more| == 0 {
      assert calls + more == calls;
    } else {
      var all := calls + more;
      assert all[..|all| - 1] == calls + more[..|more| - 1];
      MoreCallsMoreAdmitted(p, calls, more[..|more| - 1], key);
    }
  }

  /** Each round starts with a full bucket for its first key. */
  lemma {:induction false} EachRoundAdmits(p: Policy, n: nat)
    requires p.capacity >= 1.0
    ensures AdmittedSince(p, Rounds(n), Unary(0), 0) >= n
  {
    hide Refilled, Spent, Unary, After;
    if n > 0 {
      EachRoundAdmits(p, n - 1);
      RoundsEndFull(p, n - 1);
      var before, round := Rounds(n - 1), OneEach(MAX_BUCKETS + 1);
      var once := before + [round[0]];
      assert once[..|before|] == before && once[|once| - 1] == Call(Unary(0), 0.0);
      FullAtFirst(p, 0.0);
      assert LastAdmitted(p, once);
      assert AdmittedSince(p, once, Unary(0), 0) == AdmittedSince(p, before, Unary(0), 0) + 1;
      MoreCallsMoreAdmitted(p, once, round[1..], Unary(0));
      assert once + round[1..] == Rounds(n);
    }
  }

  lemma FullAtFirst(p: Policy, at: real)
    ensures Refilled(p, Bucket(p.capacity, at), at) == p.capacity
  {
    EarnedAdds(p, 0.0, 0.0);
  }

  lemma {:induction false} RoundsAtOnce(n: nat)
    ensures forall i :: 0 <= i < |Rounds(n)| ==> Rounds(n)[i].at == 0.0
  {
    hide Unary;
    if n > 0 {
      RoundsAtOnce(n - 1);
    }
  }

  lemma {:induction false} KeysOfConcat(p: Policy, calls: seq<Call>, k: nat)
    ensures KeysOf(calls + OneEach(k)) == KeysOf(calls) + UnaryKeys(k)
  {
    hide After, KeysOf, OneEach, Unary, UnaryKeys;
    if k == 0 {
      OneEachNone(calls);
      OneKeyMore(1);
    } else {
      OneKeyMore(k);
      OneEachMore(calls, k);
      KeysOfConcat(p, calls, k - 1);
      AfterOneMore(p, calls + OneEach(k - 1), Call(Unary(k - 1), 0.0));
    }
  }

  lemma {:induction false} RoundsKeys(p: Policy, n: nat)
    requires n > 0
    ensures KeysOf(Rounds(n)) == UnaryKeys(MAX_BUCKETS + 1)
  {
    hide OneEach, UnaryKeys;
    if n > 1 {
      RoundsKeys(p, n - 1);
    }
    KeysOfConcat(p, Rounds(n - 1), MAX_BUCKETS + 1);
  }

  /**
   One key more and there is no bound at all: with a hundred thousand and one keys that take turns, one
   of them is admitted as often as one likes at a single moment, whatever the policy.
   */
  lemma {:induction false} OneKeyMoreBreaksEveryBound(p: Policy, n: nat) returns (calls: seq<Call>)
    requires p.capacity >= 1.0 && n > 0
    ensures forall i :: 0 <= i < |calls| ==> calls[i].at == 0.0
    ensures |KeysOf(calls)| == 100_001 && AdmittedSince(p, calls, Unary(0), 0) >= n
  {
    hide UnaryKeys, Unary, AdmittedSince;
    calls := Rounds(n);
    EachRoundAdmits(p, n);
    RoundsAtOnce(n);
    RoundsKeys(p, n);
  }
}
