/** The sliding-window limiters of incidentops/security/rate_limit.py. Times are real numbers. */
module RateLimit {
  import opened Prelude

  datatype Policy = Policy(limit: int, window: int)

  // ---- the in-memory limiter ----

  // popleft while the front is outside the window
  function DropOld(bucket: seq<real>, cutoff: real): seq<real> {
    if bucket != [] && bucket[0] <= cutoff then DropOld(bucket[1..], cutoff) else bucket
  }

  function Cutoff(p: Policy, now: real): real {
    now - p.window as real
  }

  // The bucket after one check, and whether the request was let through.
  function Checked(bucket: seq<real>, p: Policy, now: real): (seq<real>, bool) {
    var kept := DropOld(bucket, Cutoff(p, now));
    if |kept| >= p.limit then (kept, false) else (kept + [now], true)
  }

  function BucketOf(events: map<string, seq<real>>, key: string): seq<real> {
    if key in events then events[key] else []
  }

  class InMemoryRateLimiter {
    var events: map<string, seq<real>>

    constructor ()
      ensures events == map[]
    {
      events := map[];
    }

    method Check(key: string, p: Policy, now: real) returns (allowed: bool)
      modifies this
      ensures var (bucket, accepted) := Checked(BucketOf(old(events), key), p, now);
              events == old(events)[key := bucket] && allowed == accepted
    {
      var bucket := BucketOf(events, key);
      while bucket != [] && bucket[0] <= Cutoff(p, now)
        invariant DropOld(bucket, Cutoff(p, now)) == DropOld(BucketOf(old(events), key), Cutoff(p, now))
        decreases |bucket|
      {
        bucket := bucket[1..];
      }
      allowed := |bucket| < p.limit;
      if allowed {
        bucket := bucket + [now];
      }
      events := events[key := bucket];
    }
  }

  // ---- one key's trace ----

  function Bucket(times: seq<real>, p: Policy): seq<real> {
    if times == [] then [] else Checked(Bucket(times[..|times| - 1], p), p, times[|times| - 1]).0
  }

  predicate Allowed(times: seq<real>, p: Policy, i: nat)
    requires i < |times|
  {
    Checked(Bucket(times[..i], p), p, times[i]).1
  }

  // The times of the first k requests that were let through.
  function Accepted(times: seq<real>, p: Policy, k: nat): seq<real>
    requires k <= |times|
  {
    if k == 0 then []
    else if Allowed(times, p, k - 1) then Accepted(times, p, k - 1) + [times[k - 1]]
    else Accepted(times, p, k - 1)
  }

  predicate Ordered(times: seq<real>) {
    forall i, j | 0 <= i < j < |times| :: times[i] <= times[j]
  }

  // The times in the half-open window (lo, hi].
  function Within(times: seq<real>, lo: real, hi: real): seq<real> {
    if times == [] then []
    else
      var before, last := Within(times[..|times| - 1], lo, hi), times[|times| - 1];
      if lo < last <= hi then before + [last] else before
  }

  lemma {:induction false} AcceptedIsOrdered(times: seq<real>, p: Policy, k: nat)
    requires Ordered(times) && k <= |times|
    ensures Ordered(Accepted(times, p, k))
    ensures forall i | 0 <= i < |Accepted(times, p, k)| :: k > 0 && Accepted(times, p, k)[i] <= times[k - 1]
  {
    if k > 0 {
      AcceptedIsOrdered(times, p, k - 1);
    }
  }

  lemma {:induction false} WithinSplit(a: seq<real>, b: seq<real>, lo: real, hi: real)
    ensures Within(a + b, lo, hi) == Within(a, lo, hi) + Within(b, lo, hi)
  {
    if b == [] {
      assert a + b == a;
    } else {
      assert (a + b)[..|a + b| - 1] == a + b[..|b| - 1];
      WithinSplit(a, b[..|b| - 1], lo, hi);
    }
  }

  lemma {:induction false} NoneWithin(times: seq<real>, lo: real, hi: real)
    requires forall i | 0 <= i < |times| :: !(lo < times[i] <= hi)
    ensures Within(times, lo, hi) == []
  {
    if times != [] {
      NoneWithin(times[..|times| - 1], lo, hi);
    }
  }

  lemma {:induction false} AllWithin(times: seq<real>, lo: real, hi: real)
    requires forall i | 0 <= i < |times| :: lo < times[i] <= hi
    ensures Within(times, lo, hi) == times
  {
    if times != [] {
      AllWithin(times[..|times| - 1], lo, hi);
    }
  }

  // Popping an ordered bucket keeps exactly what is in the window.
  lemma {:induction false} DropOldIsWithin(bucket: seq<real>, lo: real, hi: real)
    requires Ordered(bucket) && forall i | 0 <= i < |bucket| :: bucket[i] <= hi
    ensures DropOld(bucket, lo) == Within(bucket, lo, hi)
  {
    if bucket != [] && bucket[0] <= lo {
      DropOldIsWithin(bucket[1..], lo, hi);
      WithinSplit(bucket[..1], bucket[1..], lo, hi);
      NoneWithin(bucket[..1], lo, hi);
      assert bucket[..1] + bucket[1..] == bucket;
    } else {
      AllWithin(bucket, lo, hi);
    }
  }

  lemma {:induction false} WithinMembers(times: seq<real>, lo: real, hi: real)
    ensures forall t | t in Within(times, lo, hi) :: t in times && lo < t <= hi
  {
    if times != [] {
      WithinMembers(times[..|times| - 1], lo, hi);
    }
  }

  lemma {:induction false} WithinIsOrdered(times: seq<real>, lo: real, hi: real)
    requires Ordered(times)
    ensures Ordered(Within(times, lo, hi))
    ensures forall i | 0 <= i < |Within(times, lo, hi)| :: times != [] && Within(times, lo, hi)[i] <= times[|times| - 1]
  {
    if times != [] {
      WithinIsOrdered(times[..|times| - 1], lo, hi);
    }
  }

  // A window within a window.
  lemma {:induction false} WithinWithin(times: seq<real>, lo: real, hi: real, lo': real, hi': real)
    requires lo <= lo' && forall i | 0 <= i < |times| :: times[i] <= hi && times[i] <= hi'
    ensures Within(Within(times, lo, hi), lo', hi') == Within(times, lo', hi')
    ensures |Within(times, lo', hi')| <= |Within(times, lo, hi)|
  {
    if times != [] {
      var front, last := times[..|times| - 1], times[|times| - 1];
      WithinWithin(front, lo, hi, lo', hi');
      var before := Within(front, lo, hi);
      assert (before + [last])[..|before|] == before;
    }
  }

  lemma WithinOne(t: real, lo: real, hi: real)
    ensures Within([t], lo, hi) == if lo < t <= hi then [t] else []
  {
    assert [t][..0] == [];
  }

  // One more request on the trace: the bucket, and what has been accepted.
  lemma TraceStep(times: seq<real>, p: Policy, k: nat)
    requires 1 <= k <= |times|
    ensures var now := times[k - 1];
            var kept := DropOld(Bucket(times[..k - 1], p), Cutoff(p, now));
            && (Allowed(times, p, k - 1) <==> |kept| < p.limit)
            && Bucket(times[..k], p) == (if Allowed(times, p, k - 1) then kept + [now] else kept)
            && Accepted(times, p, k) == Accepted(times, p, k - 1) + (if Allowed(times, p, k - 1) then [now] else [])
  {
    assert times[..k][..k - 1] == times[..k - 1];
  }

  // A bucket of one check, popped by the next.
  lemma PoppedBucket(acc: seq<real>, added: seq<real>, lo: real, last: real, lo': real, now: real)
    requires Ordered(acc) && (forall i | 0 <= i < |acc| :: acc[i] <= last) && (added == [] || added == [last])
    requires lo <= lo' && last <= now
    ensures DropOld(Within(acc, lo, last) + added, lo') == Within(acc + added, lo', now)
  {
    hide Within, DropOld;
    var kept := Within(acc, lo, last);
    WithinIsOrdered(acc, lo, last);
    WithinWithin(acc, lo, last, lo', now);
    DropOldIsWithin(kept + added, lo', now);
    WithinSplit(kept, added, lo', now);
    WithinSplit(acc, added, lo', now);
  }

  // What a check keeps of the bucket is what it has accepted in the window before.
  lemma {:induction false} KeptIsRecentAccepted(times: seq<real>, p: Policy, k: nat, now: real)
    requires Ordered(times) && k <= |times| && forall i | 0 <= i < k :: times[i] <= now
    ensures DropOld(Bucket(times[..k], p), Cutoff(p, now)) == Within(Accepted(times, p, k), Cutoff(p, now), now)
  {
    if k > 0 {
      hide Accepted, Within, DropOld, Bucket, Allowed, Checked;
      var last := times[k - 1];
      var acc := Accepted(times, p, k - 1);
      var added := if Allowed(times, p, k - 1) then [last] else [];
      KeptIsRecentAccepted(times, p, k - 1, last);
      TraceStep(times, p, k);
      AcceptedIsOrdered(times, p, k - 1);
      PoppedBucket(acc, added, Cutoff(p, last), last, Cutoff(p, now), now);
      var kept := Within(acc, Cutoff(p, last), last);
      assert kept + [] == kept;
    } else {
      assert times[..0] == [];
    }
  }

  /** After every check the bucket is exactly the accepted requests in (now - window, now]. */
  lemma BucketIsRecentAccepted(times: seq<real>, p: Policy, k: nat)
    requires Ordered(times) && 1 <= k <= |times| && p.window > 0
    ensures var now := times[k - 1];
            Bucket(times[..k], p) == Within(Accepted(times, p, k), now - p.window as real, now)
  {
    hide Accepted, Within, DropOld, Bucket, Allowed, Checked;
    var now := times[k - 1];
    var acc, lo := Accepted(times, p, k - 1), Cutoff(p, now);
    KeptIsRecentAccepted(times, p, k - 1, now);
    TraceStep(times, p, k);
    WithinSplit(acc, [now], lo, now);
    WithinOne(now, lo, now);
    assert acc + [] == acc;
  }

  /** A request is let through if and only if fewer than `limit` requests were let through in the
      half-open window that ends with it. */
  lemma AllowedIff(times: seq<real>, p: Policy, i: nat)
    requires Ordered(times) && i < |times|
    ensures var now := times[i];
            Allowed(times, p, i) <==> |Within(Accepted(times, p, i), now - p.window as real, now)| < p.limit
  {
    hide Accepted, Within, DropOld, Bucket;
    KeptIsRecentAccepted(times, p, i, times[i]);
  }

  // One more accepted request ends a window in which fewer than `limit` were accepted before.
  lemma OneMoreInWindow(times: seq<real>, p: Policy, k: nat, t: real)
    requires Ordered(times) && k < |times| && Allowed(times, p, k) && Cutoff(p, t) < times[k] <= t
    ensures |Within(Accepted(times, p, k), Cutoff(p, t), t)| < p.limit
  {
    hide Accepted, DropOld, Bucket, Within;
    AcceptedIsOrdered(times, p, k);
    KeptIsRecentAccepted(times, p, k, times[k]);
    WithinWithin(Accepted(times, p, k), Cutoff(p, times[k]), times[k], Cutoff(p, t), t);
  }

  lemma {:induction false} LimitedUpTo(times: seq<real>, p: Policy, k: nat, t: real)
    requires Ordered(times) && k <= |times|
    ensures |Within(Accepted(times, p, k), Cutoff(p, t), t)| <= Max(0, p.limit)
  {
    hide Accepted, DropOld, Bucket, Allowed, Checked, Within, Cutoff;
    if k == 0 {
      NothingAccepted(times, p, Cutoff(p, t), t);
    } else {
      var now, acc := times[k - 1], Accepted(times, p, k - 1);
      LimitedUpTo(times, p, k - 1, t);
      TraceStep(times, p, k);
      WithinSplit(acc, [now], Cutoff(p, t), t);
      WithinOne(now, Cutoff(p, t), t);
      if Allowed(times, p, k - 1) && Cutoff(p, t) < now <= t {
        OneMoreInWindow(times, p, k - 1, t);
      }
      assert acc + [] == acc;
    }
  }

  /** Over any run with a clock that does not go back, at most `limit` requests of a key are let
      through in every half-open window. */
  lemma AtMostLimitInEveryWindow(times: seq<real>, p: Policy, k: nat, t: real)
    requires Ordered(times) && k <= |times|
    ensures |Within(Accepted(times, p, k), t - p.window as real, t)| <= Max(0, p.limit)
  {
    hide Accepted, Within;
    LimitedUpTo(times, p, k, t);
  }

  lemma NothingAccepted(times: seq<real>, p: Policy, lo: real, hi: real)
    ensures Within(Accepted(times, p, 0), lo, hi) == []
  {
  }

  // ---- all keys together ----

  datatype Request = Request(key: string, now: real)

  // The limiter's events after a sequence of checks, with a fixed policy per key.
  function Events(rs: seq<Request>, policy: string -> Policy): map<string, seq<real>> {
    if rs == [] then map[]
    else
      var before, r := Events(rs[..|rs| - 1], policy), rs[|rs| - 1];
      before[r.key := Checked(BucketOf(before, r.key), policy(r.key), r.now).0]
  }

  function TimesOf(rs: seq<Request>, key: string): seq<real> {
    if rs == [] then []
    else
      var before, r := TimesOf(rs[..|rs| - 1], key), rs[|rs| - 1];
      if r.key == key then before + [r.now] else before
  }

  /** Keys do not disturb each other: each bucket is that of the key's own requests. */
  lemma {:induction false} KeysAreIndependent(rs: seq<Request>, policy: string -> Policy, key: string)
    ensures BucketOf(Events(rs, policy), key) == Bucket(TimesOf(rs, key), policy(key))
  {
    if rs != [] {
      hide Checked;
      var front, last := rs[..|rs| - 1], rs[|rs| - 1];
      KeysAreIndependent(front, policy, key);
      assert (TimesOf(front, key) + [last.now])[..|TimesOf(front, key)|] == TimesOf(front, key);
    }
  }

  predicate Timely(rs: seq<Request>) {
    forall i, j | 0 <= i < j < |rs| :: rs[i].now <= rs[j].now
  }

  lemma {:induction false} TimesAreOrdered(rs: seq<Request>, key: string)
    requires Timely(rs)
    ensures var times := TimesOf(rs, key);
            Ordered(times) && forall i | 0 <= i < |times| :: rs != [] && times[i] <= rs[|rs| - 1].now
  {
    if |rs| > 1 {
      TimesAreOrdered(rs[..|rs| - 1], key);
    } else if rs != [] {
      assert TimesOf(rs[..0], key) == [];
    }
  }

  /** The same for any number of keys checked in any order, each with its own policy. */
  lemma EveryKeyIsLimited(rs: seq<Request>, policy: string -> Policy, key: string, t: real)
    requires Timely(rs)
    ensures var times, p := TimesOf(rs, key), policy(key);
            && BucketOf(Events(rs, policy), key) == Bucket(times, p)
            && |Within(Accepted(times, p, |times|), t - p.window as real, t)| <= Max(0, p.limit)
  {
    hide Within, Accepted;
    KeysAreIndependent(rs, policy, key);
    TimesAreOrdered(rs, key);
    AtMostLimitInEveryWindow(TimesOf(rs, key), policy(key), |TimesOf(rs, key)|, t);
  }

  // ---- the Redis limiter ----

  // The sorted set of a key, whose members are their own scores, and when it expires.
  datatype ZSet = ZSet(members: set<real>, expires: real)

  function Members(z: Option<ZSet>, now: real): set<real> {
    if z.None? || now >= z.value.expires then {} else z.value.members
  }

  // zremrangebyscore 0 .. now - window
  function Trimmed(members: set<real>, p: Policy, now: real): set<real> {
    set t | t in members && !(0.0 <= t <= Cutoff(p, now))
  }

  // One transaction: every attempt is recorded, let through or not. An expiry that is not in
  // the future deletes the key.
  function RedisChecked(z: Option<ZSet>, p: Policy, now: real): (Option<ZSet>, bool) {
    var kept := Trimmed(Members(z, now), p, now);
    (if p.window <= 0 then None else Some(ZSet(kept + {now}, now + p.window as real)), |kept| < p.limit)
  }

  class RedisRateLimiter {
    var keys: map<string, ZSet>

    function Entry(key: string): Option<ZSet>
      reads this
    {
      if key in keys then Some(keys[key]) else None
    }

    constructor ()
      ensures keys == map[]
    {
      keys := map[];
    }

    method Check(key: string, p: Policy, now: real) returns (allowed: bool)
      modifies this
      ensures (Entry(key), allowed) == RedisChecked(old(Entry(key)), p, now)
      // every attempt is recorded, and the key expires a window after it
      ensures p.window > 0 ==> key in keys && now in keys[key].members && keys[key].expires == now + p.window as real
      ensures forall other | other != key :: Entry(other) == old(Entry(other))
    {
      var members := Trimmed(Members(Entry(key), now), p, now);
      var count := |members|;
      members := members + {now};
      keys := keys - {key};
      if p.window > 0 {
        keys := keys[key := ZSet(members, now + p.window as real)];
      }
      allowed := count < p.limit;
    }
  }

  function RedisEntry(times: seq<real>, p: Policy): Option<ZSet> {
    if times == [] then None else RedisChecked(RedisEntry(times[..|times| - 1], p), p, times[|times| - 1]).0
  }

  predicate RedisAllowed(times: seq<real>, p: Policy, i: nat)
    requires i < |times|
  {
    RedisChecked(RedisEntry(times[..i], p), p, times[i]).1
  }

  // The same sorted set if keys never expired.
  function Unexpired(times: seq<real>, p: Policy): set<real> {
    if times == [] then {}
    else Trimmed(Unexpired(times[..|times| - 1], p), p, times[|times| - 1]) + {times[|times| - 1]}
  }

  predicate Clock(times: seq<real>) {
    && (forall i | 0 <= i < |times| :: times[i] >= 0.0)
    && Increasing(times)
  }

  // The attempts of the first k that are after the cutoff.
  function Attempts(times: seq<real>, k: nat, cutoff: real): set<real>
    requires k <= |times|
  {
    set t | t in times[..k] && t > cutoff
  }

  lemma TrimStep(times: seq<real>, p: Policy, k: nat, now: real)
    requires Clock(times) && 1 <= k <= |times| && times[k - 1] < now
    ensures var last := times[k - 1];
            && Trimmed(Attempts(times, k - 1, Cutoff(p, last)) + {last}, p, now) == Attempts(times, k, Cutoff(p, now))
            && (now >= last + p.window as real ==> Attempts(times, k, Cutoff(p, now)) == {})
  {
    var last := times[k - 1];
    assert times[..k] == times[..k - 1] + [last];
    assert forall t | t in times[..k] :: 0.0 <= t <= last;
  }

  // Both forms of the sorted set, trimmed at a later time, hold the attempts in the window.
  lemma {:induction false} TrimmedIsAttempts(times: seq<real>, p: Policy, k: nat, now: real)
    requires Clock(times) && k <= |times| && forall i | 0 <= i < k :: times[i] < now
    ensures Trimmed(Members(RedisEntry(times[..k], p), now), p, now) == Attempts(times, k, Cutoff(p, now))
    ensures Trimmed(Unexpired(times[..k], p), p, now) == Attempts(times, k, Cutoff(p, now))
  {
    if k == 0 {
      assert times[..0] == [];
    } else {
      hide Trimmed, Attempts, Cutoff;
      var last := times[k - 1];
      assert times[..k][..k - 1] == times[..k - 1];
      TrimmedIsAttempts(times, p, k - 1, last);
      TrimStep(times, p, k, now);
      TrimmedNothing(p, now);
    }
  }

  lemma TrimmedNothing(p: Policy, now: real)
    ensures Trimmed({}, p, now) == {}
  {
  }

  /** Expiring a key with its window changes no decision. */
  lemma ExpiryChangesNoDecision(times: seq<real>, p: Policy, i: nat)
    requires Clock(times) && i < |times|
    ensures RedisAllowed(times, p, i) <==> |Trimmed(Unexpired(times[..i], p), p, times[i])| < p.limit
  {
    TrimmedIsAttempts(times, p, i, times[i]);
  }

  /** A request passes the Redis limiter if and only if fewer than `limit` attempts, let through
      or not, were made in the window before it. */
  lemma RedisCountsAttempts(times: seq<real>, p: Policy, i: nat)
    requires Clock(times) && i < |times|
    ensures var made := set t | t in times[..i] && t > times[i] - p.window as real;
            RedisAllowed(times, p, i) <==> |made| < p.limit
  {
    TrimmedIsAttempts(times, p, i, times[i]);
    assert Attempts(times, i, Cutoff(p, times[i])) == set t | t in times[..i] && t > times[i] - p.window as real;
  }

  predicate Increasing(times: seq<real>) {
    forall i, j | 0 <= i < j < |times| :: times[i] < times[j]
  }

  lemma {:induction false} DistinctInSet(ts: seq<real>, all: set<real>)
    requires Increasing(ts) && forall t | t in ts :: t in all
    ensures |ts| <= |all|
  {
    if ts != [] {
      assert ts[0] in ts;
      DistinctInSet(ts[1..], all - {ts[0]});
    }
  }

  lemma {:induction false} AcceptedAreAttempts(times: seq<real>, p: Policy, k: nat)
    requires Clock(times) && k <= |times|
    ensures forall t | t in Accepted(times, p, k) :: t in times[..k]
    ensures Increasing(Accepted(times, p, k))
  {
    hide Allowed;
    if k > 0 {
      AcceptedAreAttempts(times, p, k - 1);
      AcceptedIsOrdered(times, p, k - 1);
      assert times[..k] == times[..k - 1] + [times[k - 1]];
    }
  }

  lemma {:induction false} WithinIsIncreasing(times: seq<real>, lo: real, hi: real)
    requires Increasing(times)
    ensures Increasing(Within(times, lo, hi))
  {
    if times != [] {
      WithinIsIncreasing(times[..|times| - 1], lo, hi);
      WithinIsOrdered(times[..|times| - 1], lo, hi);
    }
  }

  /** On one trace, whatever passes the Redis limiter passes the in-memory limiter too. */
  lemma RedisIsStricter(times: seq<real>, p: Policy, i: nat)
    requires Clock(times) && i < |times| && RedisAllowed(times, p, i)
    ensures Allowed(times, p, i)
  {
    hide Accepted, Within, RedisAllowed;
    var now := times[i];
    RedisCountsAttempts(times, p, i);
    assert Attempts(times, i, Cutoff(p, now)) == set t | t in times[..i] && t > now - p.window as real;
    KeptIsRecentAccepted(times, p, i, now);
    AcceptedAreAttempts(times, p, i);
    WithinIsIncreasing(Accepted(times, p, i), Cutoff(p, now), now);
    WithinMembers(Accepted(times, p, i), Cutoff(p, now), now);
    assert forall t | t in Within(Accepted(times, p, i), Cutoff(p, now), now) ::
        t in Attempts(times, i, Cutoff(p, now));
    DistinctInSet(Within(Accepted(times, p, i), Cutoff(p, now), now), Attempts(times, i, Cutoff(p, now)));
  }

  // Of three attempts half a second apart, memory with a limit of one per second takes the outer two.
  lemma MemoryTakesTheThird(t: real)
    ensures Allowed([t, t + 0.5, t + 1.0], Policy(1, 1), 2)
  {
    var times, p := [t, t + 0.5, t + 1.0], Policy(1, 1);
    assert times[..2] == [t, t + 0.5] && [t, t + 0.5][..1] == [t] && [t][..0] == [];
    assert Bucket([t], p) == [t];
    assert DropOld([t], t - 0.5) == [t];
    assert Bucket([t, t + 0.5], p) == [t];
    assert DropOld([t], t) == [];
  }

  /** It is strictly stricter: a client that keeps trying is let through again in memory, but not
      by Redis. */
  lemma RejectedAttemptsCountInRedis(t: real)
    requires t >= 0.0
    ensures var times := [t, t + 0.5, t + 1.0];
            Allowed(times, Policy(1, 1), 2) && !RedisAllowed(times, Policy(1, 1), 2)
  {
    hide Allowed, RedisAllowed;
    var times, p := [t, t + 0.5, t + 1.0], Policy(1, 1);
    MemoryTakesTheThird(t);
    RedisCountsAttempts(times, p, 2);
    var made := set x | x in times[..2] && x > times[2] - p.window as real;
    assert times[..2][1] == t + 0.5;
    assert t + 0.5 in made;
  }
}
