/** The fixed-window rate limiter (RateLimitService): a per-user counter in
    a shared key/value store, created at 1 with a time-to-live, incremented
    while below the ceiling, and left alone once the ceiling is reached. The
    store's expiry of a key is an explicit step. */
module RateLimit {
  import opened Wrappers
  import opened Text

  const KeyPrefix := "rate_limit:"

  /** The store key of one user's counter. */
  function Key(userId: string): string {
    KeyPrefix + userId
  }

  /** Distinct users have distinct counters. */
  lemma KeyInjective(u: string, v: string)
    requires Key(u) == Key(v)
    ensures u == v
  {
    StartsWithConcat(KeyPrefix, u);
    StartsWithConcat(KeyPrefix, v);
  }

  /** Whether a call for `userId` is let through by the counters `store`. */
  predicate Admits(store: map<string, int>, userId: string, maxRequests: int) {
    Key(userId) !in store || store[Key(userId)] < maxRequests
  }

  /** The counters after one call of checkRateLimit for `userId`. */
  function AfterCheck(store: map<string, int>, userId: string, maxRequests: int): (r: map<string, int>)
    ensures Key(userId) in r
    ensures forall k :: k != Key(userId) ==> (k in r <==> k in store)
    ensures forall k :: k != Key(userId) && k in store ==> r[k] == store[k]
  {
    var k := Key(userId);
    if k !in store then store[k := 1]
    else if store[k] >= maxRequests then store
    else store[k := store[k] + 1]
  }

  /** Redis INCR: a missing key is created at 1. It never touches a key's
      time-to-live. */
  function Incr(store: map<string, int>, key: string): map<string, int> {
    if key in store then store[key := store[key] + 1] else store[key := 1]
  }

  /** The time-to-live table after one call for `userId`: only a counter
      the call creates is given one. */
  function TtlAfterCheck(store: map<string, int>, ttl: map<string, int>, userId: string, durationSeconds: int)
    : map<string, int>
  {
    if Key(userId) in store then ttl else ttl[Key(userId) := durationSeconds]
  }

  /** The message of RateLimitExceededException. */
  function ExceededMessage(maxRequests: int, durationSeconds: int): string {
    "Rate limit exceeded. Maximum " + DecimalString(maxRequests) + " requests per "
    + DecimalString(durationSeconds) + " seconds allowed."
  }

  class RateLimitService {
    /** The counters, by key, as the store holds them (parsed as integers). */
    var store: map<string, int>
    /** The time-to-live in seconds the store was given for a key. */
    var ttl: map<string, int>
    const maxRequests: int
    const durationSeconds: int

    constructor (maxRequests: int, durationSeconds: int)
      ensures store == map[] && ttl == map[]
      ensures this.maxRequests == maxRequests && this.durationSeconds == durationSeconds
    {
      store := map[];
      ttl := map[];
      this.maxRequests := maxRequests;
      this.durationSeconds := durationSeconds;
    }

    /** checkRateLimit: a read of the counter, then a set or an increment. */
    method CheckRateLimit(userId: string) returns (r: Outcome<ApiError>)
      modifies this
      ensures r.Pass? <==> Admits(old(store), userId, maxRequests)
      ensures r.Fail? ==> r.error == RateLimitExceeded(ExceededMessage(maxRequests, durationSeconds))
      ensures store == AfterCheck(old(store), userId, maxRequests)
      ensures ttl == TtlAfterCheck(old(store), old(ttl), userId, durationSeconds)
    {
      var key := Key(userId);
      if key !in store {
        store := store[key := 1];
        ttl := ttl[key := durationSeconds];
        return Pass;
      }
      var count := store[key];
      if count >= maxRequests {
        return Fail(RateLimitExceeded(ExceededMessage(maxRequests, durationSeconds)));
      }
      store := Incr(store, key);
      r := Pass;
    }

    /** The store dropping a key whose time-to-live ran out. Only a key
        that was given a time-to-live can expire. */
    method Expire(key: string)
      requires key in ttl
      modifies this
      ensures store == old(store) - {key} && ttl == old(ttl) - {key}
    {
      store := store - {key};
      ttl := ttl - {key};
    }
  }

  // ---------------------------------------------------------------------
  // Properties of one call

  /** A call for one user leaves every other user's counter as it was. */
  lemma OtherUsersUnaffected(store: map<string, int>, userId: string, other: string, maxRequests: int)
    requires other != userId
    ensures Key(other) in AfterCheck(store, userId, maxRequests) <==> Key(other) in store
    ensures Key(other) in store ==> AfterCheck(store, userId, maxRequests)[Key(other)] == store[Key(other)]
  {
    if Key(other) == Key(userId) {
      KeyInjective(other, userId);
    }
  }

  /** The three cases of one call: a fresh counter starts at 1, a counter at
      the ceiling rejects and stays, a counter below it goes up by one. */
  lemma CheckCases(store: map<string, int>, userId: string, maxRequests: int)
    ensures Key(userId) !in store ==>
              Admits(store, userId, maxRequests) && AfterCheck(store, userId, maxRequests)[Key(userId)] == 1
    ensures Key(userId) in store && store[Key(userId)] >= maxRequests ==>
              !Admits(store, userId, maxRequests) && AfterCheck(store, userId, maxRequests) == store
    ensures Key(userId) in store && store[Key(userId)] < maxRequests ==>
              Admits(store, userId, maxRequests)
              && AfterCheck(store, userId, maxRequests) == store[Key(userId) := store[Key(userId)] + 1]
  {
  }

  /** Once expired, a user's next call is admitted and restarts the count
      at 1, whatever the count was. */
  lemma ExpiryRestartsWindow(store: map<string, int>, userId: string, maxRequests: int)
    ensures Admits(store - {Key(userId)}, userId, maxRequests)
    ensures AfterCheck(store - {Key(userId)}, userId, maxRequests)[Key(userId)] == 1
  {
  }

  /** The counter never passes the ceiling once it is at least 1. */
  lemma CountStaysWithinCeiling(store: map<string, int>, userId: string, maxRequests: int)
    requires maxRequests >= 1
    requires Key(userId) in store ==> store[Key(userId)] <= maxRequests
    ensures AfterCheck(store, userId, maxRequests)[Key(userId)] <= maxRequests
  {
  }

  // ---------------------------------------------------------------------
  // Sequential calls within one window

  /** The verdicts of `n` consecutive calls by one user, with no expiry in
      between. */
  function Verdicts(store: map<string, int>, userId: string, maxRequests: int, n: nat): (v: seq<bool>)
    ensures |v| == n
    decreases n
  {
    if n == 0 then []
    else [Admits(store, userId, maxRequests)] + Verdicts(AfterCheck(store, userId, maxRequests), userId, maxRequests, n - 1)
  }

  /** The counters after `n` consecutive calls by one user. */
  function After(store: map<string, int>, userId: string, maxRequests: int, n: nat): map<string, int>
    decreases n
  {
    if n == 0 then store else After(AfterCheck(store, userId, maxRequests), userId, maxRequests, n - 1)
  }

  /** From a count `c` below the ceiling, the next `maxRequests - c` calls
      are admitted, each raising the count by one. */
  lemma {:induction false} AdmittedUpToCeiling(store: map<string, int>, userId: string, maxRequests: int, n: nat)
    requires Key(userId) in store && 0 <= store[Key(userId)]
    requires store[Key(userId)] + n <= maxRequests
    ensures forall i :: 0 <= i < n ==> Verdicts(store, userId, maxRequests, n)[i]
    ensures Key(userId) in After(store, userId, maxRequests, n)
    ensures After(store, userId, maxRequests, n)[Key(userId)] == store[Key(userId)] + n
    decreases n
  {
    if n > 0 {
      var next := AfterCheck(store, userId, maxRequests);
      AdmittedUpToCeiling(next, userId, maxRequests, n - 1);
    }
  }

  /** In a fresh window with a ceiling of at least one, exactly the first
      `maxRequests` calls are admitted and call `maxRequests + 1` is
      rejected, with the count at the ceiling. */
  lemma FixedWindow(store: map<string, int>, userId: string, maxRequests: int)
    requires maxRequests >= 1
    requires Key(userId) !in store
    ensures var v := Verdicts(store, userId, maxRequests, maxRequests + 1);
      (forall i :: 0 <= i < maxRequests ==> v[i]) && !v[maxRequests]
    ensures Key(userId) in After(store, userId, maxRequests, maxRequests)
    ensures After(store, userId, maxRequests, maxRequests)[Key(userId)] == maxRequests
  {
    var first := AfterCheck(store, userId, maxRequests);
    AdmittedUpToCeiling(first, userId, maxRequests, maxRequests - 1);
    VerdictsSplit(first, userId, maxRequests, maxRequests - 1);
  }

  /** The verdict of the call after `n` calls is read off the counters
      those calls left. */
  lemma {:induction false} VerdictsSplit(store: map<string, int>, userId: string, maxRequests: int, n: nat)
    ensures Verdicts(store, userId, maxRequests, n + 1) ==
              Verdicts(store, userId, maxRequests, n) + [Admits(After(store, userId, maxRequests, n), userId, maxRequests)]
    decreases n
  {
    if n > 0 {
      VerdictsSplit(AfterCheck(store, userId, maxRequests), userId, maxRequests, n - 1);
    }
  }

  /** Verdict `i` of a run is the admission decision on the counters the
      first `i` calls left. */
  lemma {:induction false} VerdictIsAdmission(store: map<string, int>, userId: string, maxRequests: int, n: nat, i: nat)
    requires i < n
    ensures Verdicts(store, userId, maxRequests, n)[i] <==> Admits(After(store, userId, maxRequests, i), userId, maxRequests)
    decreases n
  {
    if i > 0 {
      VerdictIsAdmission(AfterCheck(store, userId, maxRequests), userId, maxRequests, n - 1, i - 1);
    }
  }

  /** Whatever the calls, a count that starts within the ceiling stays
      within it. */
  lemma {:induction false} CeilingInvariant(store: map<string, int>, userId: string, maxRequests: int, n: nat)
    requires maxRequests >= 1
    requires Key(userId) in store ==> store[Key(userId)] <= maxRequests
    ensures Key(userId) in After(store, userId, maxRequests, n) ==>
              After(store, userId, maxRequests, n)[Key(userId)] <= maxRequests
    decreases n
  {
    if n > 0 {
      CountStaysWithinCeiling(store, userId, maxRequests);
      CeilingInvariant(AfterCheck(store, userId, maxRequests), userId, maxRequests, n - 1);
    }
  }

  // ---------------------------------------------------------------------
  // An expiry between the read and the increment

  /** The time-to-live table after `n` consecutive calls by one user. */
  function TtlAfter(store: map<string, int>, ttl: map<string, int>, userId: string, maxRequests: int,
                    durationSeconds: int, n: nat): map<string, int>
    decreases n
  {
    if n == 0 then ttl
    else TtlAfter(AfterCheck(store, userId, maxRequests), TtlAfterCheck(store, ttl, userId, durationSeconds),
                  userId, maxRequests, durationSeconds, n - 1)
  }

  /** The counters, the time-to-live table and the verdict after one call. */
  datatype CheckState = CheckState(store: map<string, int>, ttl: map<string, int>, admitted: bool)

  /** checkRateLimit as the source runs it: `get`, then `set` or a ceiling
      test and `increment`, as separate store operations. When
      `expiredBetween` holds, the store drops the caller's key, if it has a
      time-to-live, after the read and before the increment. */
  function CheckSplit(store: map<string, int>, ttl: map<string, int>, userId: string, maxRequests: int,
                      durationSeconds: int, expiredBetween: bool): CheckState
  {
    var k := Key(userId);
    if k !in store then CheckState(store[k := 1], ttl[k := durationSeconds], true)
    else if store[k] >= maxRequests then CheckState(store, ttl, false)
    else
      var (read, readTtl) := if expiredBetween && k in ttl then (store - {k}, ttl - {k}) else (store, ttl);
      CheckState(Incr(read, k), readTtl, true)
  }

  /** Without an expiry in between, the two store operations act as the one
      step CheckRateLimit takes. */
  lemma SplitWithoutExpiry(store: map<string, int>, ttl: map<string, int>, userId: string, maxRequests: int,
                           durationSeconds: int)
    ensures CheckSplit(store, ttl, userId, maxRequests, durationSeconds, false) ==
              CheckState(AfterCheck(store, userId, maxRequests), TtlAfterCheck(store, ttl, userId, durationSeconds),
                         Admits(store, userId, maxRequests))
  {
  }

  /** If the counter expires after `get` admitted the call and before
      `increment` runs, INCR recreates it at 1 with no time-to-live, every
      other key stays as it was, and no later call ever gives the counter
      a time-to-live again. */
  lemma ExpiryBetweenReadAndIncrement(store: map<string, int>, ttl: map<string, int>, userId: string,
                                      maxRequests: int, durationSeconds: int, n: nat)
    requires Key(userId) in store && store[Key(userId)] < maxRequests && Key(userId) in ttl
    ensures var r := CheckSplit(store, ttl, userId, maxRequests, durationSeconds, true);
      && r.admitted
      && Key(userId) in r.store && r.store[Key(userId)] == 1 && Key(userId) !in r.ttl
      && (forall k :: k != Key(userId) ==> (k in r.store <==> k in store) && (k in r.ttl <==> k in ttl))
      && Key(userId) !in TtlAfter(r.store, r.ttl, userId, maxRequests, durationSeconds, n)
  {
    var r := CheckSplit(store, ttl, userId, maxRequests, durationSeconds, true);
    assert r == CheckState(Incr(store - {Key(userId)}, Key(userId)), ttl - {Key(userId)}, true);
    OrphanedCounterNeverExpires(r.store, r.ttl, userId, maxRequests, durationSeconds, n);
  }

  /** A counter without a time-to-live keeps none over any number of later
      calls: only a call that creates the key sets one. */
  lemma {:induction false} OrphanedCounterNeverExpires(store: map<string, int>, ttl: map<string, int>, userId: string,
                                                       maxRequests: int, durationSeconds: int, n: nat)
    requires Key(userId) in store && Key(userId) !in ttl
    ensures Key(userId) !in TtlAfter(store, ttl, userId, maxRequests, durationSeconds, n)
    decreases n
  {
    if n > 0 {
      OrphanedCounterNeverExpires(AfterCheck(store, userId, maxRequests),
                                  TtlAfterCheck(store, ttl, userId, durationSeconds),
                                  userId, maxRequests, durationSeconds, n - 1);
    }
  }
}
