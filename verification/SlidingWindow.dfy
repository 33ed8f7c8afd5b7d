/**
  The sliding-window limiter of internal/gateway/middleware.go.

  One Redis sorted set per key holds the millisecond timestamps of earlier requests, each
  timestamp being both member and score, so requests of one millisecond collapse. The
  limiter is proved against the full request history of the key, which Redis never keeps.
 */
module SlidingWindow {
  import opened Basics

  /** What Redis holds under one key; `deadline` is the first moment EXPIRE lets it go. */
  datatype KeyState = Absent | Present(members: set<nat>, deadline: nat)

  /** One request on a key. `dropped` says that Redis had let the key expire when the pipeline ran. */
  datatype Request = Request(now: nat, limit: int, dropped: bool)

  function Members(k: KeyState): set<nat> {
    if k.Present? then k.members else {}
  }

  predicate MayDrop(k: KeyState, now: nat) {
    k.Present? && now >= k.deadline
  }

  /** ZREMRANGEBYSCORE key 0 (now - window). */
  function Prune(ms: set<nat>, now: nat, window: nat): set<nat> {
    set t | t in ms && !(0 <= t <= now - window)
  }

  /** The sorted set at the moment ZCARD counts it. */
  function Counted(k: KeyState, req: Request, window: nat): set<nat> {
    Prune(if req.dropped then {} else Members(k), req.now, window)
  }

  /** The four pipelined commands, applied as one step. */
  function Pipeline(k: KeyState, req: Request, window: nat, ttl: nat): KeyState {
    Present(Counted(k, req, window) + {req.now}, req.now + ttl)
  }

  /** The key after a run of requests, oldest first. */
  function Replay(reqs: seq<Request>, window: nat, ttl: nat): KeyState {
    if reqs == [] then Absent
    else Pipeline(Replay(reqs[..|reqs| - 1], window, ttl), reqs[|reqs| - 1], window, ttl)
  }

  /** The limiter lets request `i` of the run through. */
  predicate Admitted(reqs: seq<Request>, i: nat, window: nat, ttl: nat)
    requires i < |reqs|
  {
    |Counted(Replay(reqs[..i], window, ttl), reqs[i], window)| < reqs[i].limit
  }

  ghost predicate Monotone(reqs: seq<Request>) {
    forall i, j :: 0 <= i < j < |reqs| ==> reqs[i].now <= reqs[j].now
  }

  /** One shared clock that never runs backwards, and Redis drops the key only once its deadline passed. */
  ghost predicate ValidRun(reqs: seq<Request>, window: nat, ttl: nat) {
    && Monotone(reqs)
    && (forall i :: 0 <= i < |reqs| && reqs[i].dropped ==> MayDrop(Replay(reqs[..i], window, ttl), reqs[i].now))
  }

  /** The reference: distinct milliseconds of all earlier requests, admitted or not, in (now - window, now]. */
  function Recent(history: seq<Request>, now: nat, window: nat): set<nat> {
    set i | 0 <= i < |history| && now - window < history[i].now <= now :: history[i].now
  }

  lemma ValidPrefix(reqs: seq<Request>, n: nat, window: nat, ttl: nat)
    requires ValidRun(reqs, window, ttl) && n <= |reqs|
    ensures ValidRun(reqs[..n], window, ttl)
  {
    forall i | 0 <= i < n
      ensures reqs[..n][..i] == reqs[..i]
    {
    }
  }

  /** The pruned set and the full history agree at every later moment. */
  lemma {:induction false} PrunedIsRecent(reqs: seq<Request>, now: nat, window: nat, ttl: nat)
    requires ValidRun(reqs, window, ttl) && window <= ttl
    requires reqs == [] || reqs[|reqs| - 1].now <= now
    ensures Prune(Members(Replay(reqs, window, ttl)), now, window) == Recent(reqs, now, window)
    ensures reqs != [] ==> Replay(reqs, window, ttl).Present?
                           && Replay(reqs, window, ttl).deadline == reqs[|reqs| - 1].now + ttl
  {
    if reqs == [] {
    } else {
      var n := |reqs| - 1;
      var pre, last := reqs[..n], reqs[n];
      ValidPrefix(reqs, n, window, ttl);
      PrunedIsRecent(pre, last.now, window, ttl);
      if last.dropped {
        DropIsHarmless(reqs, n, window, ttl);
      }
      assert Counted(Replay(pre, window, ttl), last, window) == Recent(pre, last.now, window);
      assert Replay(reqs, window, ttl) == Present(Recent(pre, last.now, window) + {last.now}, last.now + ttl);
      RecentLater(reqs, now, window);
    }
  }

  /** What was recent at the last request, with that request added, still tells what is recent later. */
  lemma RecentLater(reqs: seq<Request>, now: nat, window: nat)
    requires Monotone(reqs) && reqs != [] && reqs[|reqs| - 1].now <= now
    ensures var n := |reqs| - 1;
            Prune(Recent(reqs[..n], reqs[n].now, window) + {reqs[n].now}, now, window) == Recent(reqs, now, window)
  {
    var n := |reqs| - 1;
    var left, right := Prune(Recent(reqs[..n], reqs[n].now, window) + {reqs[n].now}, now, window), Recent(reqs, now, window);
    forall t | t in left
      ensures t in right
    {
      if t == reqs[n].now {
      } else {
        var i :| 0 <= i < n && reqs[..n][i].now == t;
        assert reqs[i].now == t;
      }
    }
    forall t | t in right
      ensures t in left
    {
      var i :| 0 <= i < |reqs| && reqs[i].now == t && now - window < t <= now;
      if i < n {
        assert reqs[..n][i].now == t;
      }
    }
  }

  /** When Redis may have dropped the key, nothing in it was recent any more. */
  lemma DropIsHarmless(reqs: seq<Request>, n: nat, window: nat, ttl: nat)
    requires ValidRun(reqs, window, ttl) && window <= ttl && n < |reqs| && reqs[n].dropped
    requires n > 0 ==> Replay(reqs[..n], window, ttl).Present?
                       && Replay(reqs[..n], window, ttl).deadline == reqs[n - 1].now + ttl
    ensures Recent(reqs[..n], reqs[n].now, window) == {}
  {
    assert MayDrop(Replay(reqs[..n], window, ttl), reqs[n].now);
    if n > 0 {
      forall i | 0 <= i < n
        ensures reqs[i].now <= reqs[n].now - window
      {
        assert reqs[i].now <= reqs[n - 1].now;
      }
    }
  }

  /** What request `i` counts is what is recent in the history before it. */
  lemma CountedIsRecent(reqs: seq<Request>, i: nat, window: nat, ttl: nat)
    requires ValidRun(reqs, window, ttl) && window <= ttl && i < |reqs|
    ensures Counted(Replay(reqs[..i], window, ttl), reqs[i], window) == Recent(reqs[..i], reqs[i].now, window)
  {
    ValidPrefix(reqs, i, window, ttl);
    PrunedIsRecent(reqs[..i], reqs[i].now, window, ttl);
    if reqs[i].dropped {
      DropIsHarmless(reqs, i, window, ttl);
    }
  }

  /** Main result: the limiter decides exactly as the full history would. */
  lemma LimiterRefinesHistory(reqs: seq<Request>, i: nat, window: nat, ttl: nat)
    requires ValidRun(reqs, window, ttl) && window <= ttl && i < |reqs|
    ensures Admitted(reqs, i, window, ttl) <==> |Recent(reqs[..i], reqs[i].now, window)| < reqs[i].limit
  {
    CountedIsRecent(reqs, i, window, ttl);
  }

  /** Request `i` was let through in (T - window, T] for a caller whose limit is at most `limit`. */
  predicate AdmittedIn(reqs: seq<Request>, i: nat, limit: int, T: int, window: nat, ttl: nat)
    requires i < |reqs|
  {
    reqs[i].limit <= limit && Admitted(reqs, i, window, ttl) && T - window < reqs[i].now <= T
  }

  /** Milliseconds in (T - window, T] at which some caller whose limit is at most `limit` was let through. */
  ghost function AdmittedMillis(reqs: seq<Request>, limit: int, T: int, window: nat, ttl: nat): set<nat> {
    set i | 0 <= i < |reqs| && AdmittedIn(reqs, i, limit, T, window, ttl) :: reqs[i].now
  }

  /**
    Main result: in no interval of one window do the admitted requests of the callers with
    limits up to `limit` occupy more than `limit` milliseconds, whatever the other callers of
    the same key do. With `limit` the largest one in use this is the joint bound.
   */
  lemma WindowBound(reqs: seq<Request>, limit: nat, T: int, window: nat, ttl: nat)
    requires ValidRun(reqs, window, ttl) && window <= ttl
    ensures |AdmittedMillis(reqs, limit, T, window, ttl)| <= limit
  {
    var S := AdmittedMillis(reqs, limit, T, window, ttl);
    if S != {} {
      var last := Greatest(S);
      var i :| 0 <= i < |reqs| && AdmittedIn(reqs, i, limit, T, window, ttl) && reqs[i].now == last;
      var before := Recent(reqs[..i], last, window);
      assert |before| < limit by {
        LimiterRefinesHistory(reqs, i, window, ttl);
      }
      EarlierAreRecent(reqs, limit, T, window, ttl, i, S);
      SubsetSize(S - {last}, before);
    }
  }

  lemma EarlierIsBefore(reqs: seq<Request>, j: nat, i: nat)
    requires Monotone(reqs) && i < |reqs| && j < |reqs| && reqs[j].now < reqs[i].now
    ensures j < i
  {
  }

  lemma EarlierAreRecent(reqs: seq<Request>, limit: int, T: int, window: nat, ttl: nat, i: nat, S: set<nat>)
    requires Monotone(reqs) && S == AdmittedMillis(reqs, limit, T, window, ttl)
    requires i < |reqs| && reqs[i].now <= T
    requires forall t :: t in S ==> t <= reqs[i].now
    ensures S - {reqs[i].now} <= Recent(reqs[..i], reqs[i].now, window)
  {
    forall t | t in S - {reqs[i].now}
      ensures t in Recent(reqs[..i], reqs[i].now, window)
    {
      var j :| 0 <= j < |reqs| && AdmittedIn(reqs, j, limit, T, window, ttl) && reqs[j].now == t;
      EarlierIsBefore(reqs, j, i);
      assert reqs[..i][j].now == t && reqs[i].now - window < t <= reqs[i].now;
    }
  }

  /** The largest element of a non-empty set. */
  lemma {:induction false} Greatest(s: set<nat>) returns (m: nat)
    requires s != {}
    ensures m in s && forall x :: x in s ==> x <= m
    decreases s
  {
    m :| m in s;
    if s != {m} {
      var m' := Greatest(s - {m});
      assert forall x :: x in s ==> x == m || x in s - {m};
      if m < m' {
        m := m';
      }
    }
  }

  /** Login (10) and register (5) use one key: together they stay within 10, register alone within 5. */
  lemma LoginAndRegisterShareAKey(reqs: seq<Request>, T: int, window: nat, ttl: nat)
    requires ValidRun(reqs, window, ttl) && window <= ttl
    requires forall i :: 0 <= i < |reqs| ==> reqs[i].limit in {10, 5}
    ensures |set i | 0 <= i < |reqs| && Admitted(reqs, i, window, ttl)
                     && T - window < reqs[i].now <= T :: reqs[i].now| <= 10
    ensures |set i | 0 <= i < |reqs| && reqs[i].limit == 5 && Admitted(reqs, i, window, ttl)
                     && T - window < reqs[i].now <= T :: reqs[i].now| <= 5
  {
    WindowBound(reqs, 10, T, window, ttl);
    WindowBound(reqs, 5, T, window, ttl);
    var all := set i | 0 <= i < |reqs| && Admitted(reqs, i, window, ttl)
                       && T - window < reqs[i].now <= T :: reqs[i].now;
    var registers := set i | 0 <= i < |reqs| && reqs[i].limit == 5 && Admitted(reqs, i, window, ttl)
                             && T - window < reqs[i].now <= T :: reqs[i].now;
    assert all == AdmittedMillis(reqs, 10, T, window, ttl);
    assert registers == AdmittedMillis(reqs, 5, T, window, ttl);
  }

  /** `k` registrations in successive milliseconds from `t` on. */
  function Registrations(k: nat, t: nat): seq<Request> {
    seq(k, i requires 0 <= i < k => Request(t + i, 5, false))
  }

  function Upto(n: nat): (s: set<nat>)
    ensures |s| == n && forall i: nat :: i in s <==> i < n
  {
    if n == 0 then {} else Upto(n - 1) + {n - 1}
  }

  lemma RegistrationsAreRecent(k: nat, t: nat, window: nat)
    requires k < window
    ensures |Recent(Registrations(k, t), t + k, window)| == k
  {
    var reqs := Registrations(k, t);
    SameSize(Upto(k), reqs);
    var millis := set i | i in Upto(k) :: reqs[i].now;
    assert millis == Recent(reqs, t + k, window);
  }

  /** Main result: registrations, refused ones included, use up the login budget: after ten of them login is shut. */
  lemma RegistrationsSpendTheLoginBudget(k: nat, t: nat, window: nat, ttl: nat)
    requires k < window <= ttl
    ensures var reqs := Registrations(k, t) + [Request(t + k, 10, false)];
            && ValidRun(reqs, window, ttl)
            && (Admitted(reqs, k, window, ttl) <==> k < 10)
            && forall j :: 0 <= j < k ==> (Admitted(reqs, j, window, ttl) <==> j < 5)
  {
    var reqs := Registrations(k, t) + [Request(t + k, 10, false)];
    forall j | 0 <= j <= k
      ensures Admitted(reqs, j, window, ttl) <==> j < reqs[j].limit
    {
      assert reqs[..j] == Registrations(j, t);
      RegistrationsAreRecent(j, t, window);
      LimiterRefinesHistory(reqs, j, window, ttl);
    }
  }

  /** The indices, rather than the milliseconds, of the requests admitted in (T - window, T]. */
  ghost function AdmittedIndices(reqs: seq<Request>, limit: int, T: int, window: nat, ttl: nat): set<nat> {
    set i | 0 <= i < |reqs| && AdmittedIn(reqs, i, limit, T, window, ttl)
  }

  /** When no two requests share a millisecond the limit bounds the requests themselves. */
  lemma DistinctMillisBoundRequests(reqs: seq<Request>, limit: nat, T: int, window: nat, ttl: nat)
    requires ValidRun(reqs, window, ttl) && window <= ttl
    requires forall i, j :: 0 <= i < j < |reqs| ==> reqs[i].now != reqs[j].now
    ensures |AdmittedIndices(reqs, limit, T, window, ttl)| <= limit
  {
    var I := AdmittedIndices(reqs, limit, T, window, ttl);
    WindowBound(reqs, limit, T, window, ttl);
    SameSize(I, reqs);
    assert (set i | i in I :: reqs[i].now) == AdmittedMillis(reqs, limit, T, window, ttl);
  }

  lemma {:induction false} SameSize(I: set<nat>, reqs: seq<Request>)
    requires forall i :: i in I ==> i < |reqs|
    requires forall i, j :: i in I && j in I && i != j ==> reqs[i].now != reqs[j].now
    ensures |I| == |set i | i in I :: reqs[i].now|
    decreases I
  {
    if I != {} {
      var x :| x in I;
      SameSize(I - {x}, reqs);
      assert (set i | i in I :: reqs[i].now) == (set i | i in I - {x} :: reqs[i].now) + {reqs[x].now};
    }
  }

  /** `n` requests that all arrive at millisecond `t` on a fresh key. */
  function Burst(n: nat, t: nat, limit: int): seq<Request> {
    seq(n, _ => Request(t, limit, false))
  }

  lemma {:induction false} BurstLeaves(n: nat, t: nat, limit: int, window: nat, ttl: nat)
    ensures Members(Replay(Burst(n, t, limit), window, ttl)) == if n == 0 then {} else {t}
  {
    if n > 0 {
      BurstLeaves(n - 1, t, limit, window, ttl);
      assert Burst(n, t, limit)[..n - 1] == Burst(n - 1, t, limit);
    }
  }

  /**
    Requests of one millisecond count each other once at most: the first is admitted from a limit
    of one on, every other one from a limit of two on, however many they are.
   */
  lemma BurstIsAdmitted(n: nat, t: nat, limit: int, window: nat, ttl: nat)
    ensures ValidRun(Burst(n, t, limit), window, ttl)
    ensures forall i :: 0 <= i < n ==>
              (Admitted(Burst(n, t, limit), i, window, ttl) <==> (if i == 0 || window == 0 then 0 else 1) < limit)
  {
    var reqs := Burst(n, t, limit);
    forall i | 0 <= i < n
      ensures Admitted(reqs, i, window, ttl) <==> (if i == 0 || window == 0 then 0 else 1) < limit
    {
      BurstLeaves(i, t, limit, window, ttl);
      assert reqs[..i] == Burst(i, t, limit);
      assert Counted(Replay(Burst(i, t, limit), window, ttl), reqs[i], window) == if i == 0 || window == 0 then {} else {t};
    }
  }

  /** What one would expect of a limit: in every interval of one window at most `n` requests are admitted. */
  ghost predicate LimitBoundsRequests(n: nat, window: nat, ttl: nat) {
    forall reqs: seq<Request>, T: int :: ValidRun(reqs, window, ttl) && AllLimited(reqs, n) ==>
      |AdmittedIndices(reqs, n, T, window, ttl)| <= n
  }

  ghost predicate AllLimited(reqs: seq<Request>, n: nat) {
    forall i :: 0 <= i < |reqs| ==> reqs[i].limit == n
  }

  /** A burst of n + 1 requests gets n + 1 of them through. */
  lemma BurstExceeds(n: nat, window: nat, ttl: nat)
    requires 2 <= n && 0 < window
    ensures !LimitBoundsRequests(n, window, ttl)
  {
    var reqs := Burst(n + 1, 0, n);
    BurstIsAdmitted(n + 1, 0, n, window, ttl);
    assert AdmittedIndices(reqs, n, 0, window, ttl) == Upto(n + 1);
    assert AllLimited(reqs, n);
  }

  /** With a limit of one, whoever is admitted finds nobody in the window before. */
  lemma OneExcludes(reqs: seq<Request>, i: nat, j: nat, T: int, window: nat, ttl: nat)
    requires ValidRun(reqs, window, ttl) && window <= ttl && AllLimited(reqs, 1) && i < j < |reqs|
    requires AdmittedIn(reqs, i, 1, T, window, ttl)
    ensures !AdmittedIn(reqs, j, 1, T, window, ttl)
  {
    if T - window < reqs[j].now <= T {
      LimiterRefinesHistory(reqs, j, window, ttl);
      var before := Recent(reqs[..j], reqs[j].now, window);
      assert reqs[..j][i].now == reqs[i].now;
      assert reqs[i].now in before;
    }
  }

  lemma SmallLimitBounds(reqs: seq<Request>, n: nat, T: int, window: nat, ttl: nat)
    requires ValidRun(reqs, window, ttl) && window <= ttl && AllLimited(reqs, n) && n <= 1
    ensures |AdmittedIndices(reqs, n, T, window, ttl)| <= n
  {
    var I := AdmittedIndices(reqs, n, T, window, ttl);
    if I != {} {
      var i :| i in I;
      if n == 1 {
        forall j | j in I
          ensures j == i
        {
          if i < j {
            OneExcludes(reqs, i, j, T, window, ttl);
          } else if j < i {
            OneExcludes(reqs, j, i, T, window, ttl);
          }
        }
        assert I == {i};
      }
    }
  }

  /** Main result: exactly when the limit bounds requests, and not only milliseconds: when it is at most one. */
  lemma LimitBoundsRequestsIff(n: nat, window: nat, ttl: nat)
    requires window <= ttl
    ensures LimitBoundsRequests(n, window, ttl) <==> n <= 1 || window == 0
  {
    if n <= 1 {
      forall reqs: seq<Request>, T: int | ValidRun(reqs, window, ttl) && AllLimited(reqs, n)
        ensures |AdmittedIndices(reqs, n, T, window, ttl)| <= n
      {
        SmallLimitBounds(reqs, n, T, window, ttl);
      }
    } else if window > 0 {
      BurstExceeds(n, window, ttl);
    } else {
      forall reqs: seq<Request>, T: int
        ensures AdmittedIndices(reqs, n, T, window, ttl) == {}
      {
      }
    }
  }

  /** The same requests with a Redis that never lets the key expire. */
  function Undropped(reqs: seq<Request>): seq<Request> {
    seq(|reqs|, i requires 0 <= i < |reqs| => reqs[i].(dropped := false))
  }

  /** Main result: while the time to live covers the window no expiry ever changes a decision. */
  lemma ExpiryIsInvisible(reqs: seq<Request>, i: nat, window: nat, ttl: nat)
    requires ValidRun(reqs, window, ttl) && window <= ttl && i < |reqs|
    ensures ValidRun(Undropped(reqs), window, ttl)
    ensures Admitted(reqs, i, window, ttl) <==> Admitted(Undropped(reqs), i, window, ttl)
  {
    var kept := Undropped(reqs);
    LimiterRefinesHistory(reqs, i, window, ttl);
    LimiterRefinesHistory(kept, i, window, ttl);
    var a, b := Recent(reqs[..i], reqs[i].now, window), Recent(kept[..i], kept[i].now, window);
    forall t | t in a
      ensures t in b
    {
      var j :| 0 <= j < i && reqs[..i][j].now == t;
      assert kept[..i][j].now == t;
    }
    forall t | t in b
      ensures t in a
    {
      var j :| 0 <= j < i && kept[..i][j].now == t;
      assert reqs[..i][j].now == t;
    }
    assert a == b;
  }

  /** Some run on which an expiry of the key changes a decision. */
  ghost predicate ExpiryVisible(window: nat, ttl: nat) {
    exists reqs: seq<Request>, i: nat ::
      && i < |reqs| && ValidRun(reqs, window, ttl)
      && Admitted(reqs, i, window, ttl) != Admitted(Undropped(reqs), i, window, ttl)
  }

  /** Exactly when expiry is visible: the time to live is shorter than the window. */
  lemma ExpiryVisibleIff(window: nat, ttl: nat)
    ensures ExpiryVisible(window, ttl) <==> ttl < window
  {
    if ttl < window {
      var first, second := Request(0, 1, false), Request(ttl, 1, true);
      var reqs := [first, second];
      assert reqs[..0] == [] && reqs[..1] == [first];
      assert [first][..0] == [];
      assert Replay([first], window, ttl) == Present({0}, ttl);
      assert ValidRun(reqs, window, ttl);
      assert Counted(Replay(reqs[..1], window, ttl), second, window) == {};
      assert Admitted(reqs, 1, window, ttl);
      var kept := Undropped(reqs);
      assert kept[..1] == [first];
      assert Counted(Replay(kept[..1], window, ttl), kept[1], window) == {0};
      assert !Admitted(kept, 1, window, ttl);
    } else {
      forall reqs: seq<Request>, i: nat | i < |reqs| && ValidRun(reqs, window, ttl)
        ensures Admitted(reqs, i, window, ttl) == Admitted(Undropped(reqs), i, window, ttl)
      {
        ExpiryIsInvisible(reqs, i, window, ttl);
      }
    }
  }

  /** The key holds what its whole history of requests leaves behind. */
  ghost predicate Tracks(k: KeyState, log: seq<Request>, window: nat, ttl: nat) {
    ValidRun(log, window, ttl) && k == Replay(log, window, ttl)
  }

  ghost predicate Recorded(keys: map<string, KeyState>, history: map<string, seq<Request>>, window: nat, ttl: nat) {
    keys.Keys == history.Keys && forall k :: k in keys ==> Tracks(keys[k], history[k], window, ttl)
  }

  /**
    The limiter as the middleware runs it. `keys` is the part of Redis under "ratelimit:",
    `history` is a ghost record of every request that reached the pipeline, and all routes
    that share a key use one window (a minute in cmd/gateway/main.go).
   */
  class RateLimiter {
    const hasRedis: bool
    const window: nat
    const ttl: nat
    var keys: map<string, KeyState>
    ghost var history: map<string, seq<Request>>

    ghost predicate Valid()
      reads this
    {
      window <= ttl && Recorded(keys, history, window, ttl)
    }

    ghost function Log(key: string): seq<Request>
      reads this
    {
      LogOf(history, key)
    }

    constructor (hasRedis: bool, window: nat, ttl: nat)
      requires window <= ttl
      ensures Valid() && keys == map[] && this.hasRedis == hasRedis
      ensures this.window == window && this.ttl == ttl
    {
      this.hasRedis, this.window, this.ttl := hasRedis, window, ttl;
      keys, history := map[], map[];
    }

    /**
      One request. Without Redis, with an empty key, or when the pipeline fails, the request
      passes and nothing is recorded. Otherwise it is admitted exactly when fewer than `limit`
      distinct milliseconds of the key's whole history are recent, and recorded either way.
     */
    method Limit(key: string, limit: int, now: nat, expired: bool, pipelineOk: bool) returns (allowed: bool)
      requires Valid()
      requires Log(key) != [] ==> Log(key)[|Log(key)| - 1].now <= now
      requires expired ==> key in keys && MayDrop(keys[key], now)
      modifies this
      ensures Valid()
      ensures !hasRedis || key == "" || !pipelineOk ==> allowed && keys == old(keys) && history == old(history)
      ensures hasRedis && key != "" && pipelineOk ==>
        && (allowed <==> |Recent(old(Log(key)), now, window)| < limit)
        && history == old(history)[key := old(Log(key)) + [Request(now, limit, expired)]]
        && keys == old(keys)[key := Present(Recent(old(Log(key)), now, window) + {now}, now + ttl)]
    {
      allowed := true;
      if hasRedis && key != "" && pipelineOk {
        var count := RunPipeline(key, limit, now, expired);
        allowed := !(count >= limit);
      }
    }

    /** The pipeline: prune, count, add, set the deadline. */
    method RunPipeline(key: string, ghost limit: int, now: nat, expired: bool) returns (count: nat)
      requires Valid()
      requires Log(key) != [] ==> Log(key)[|Log(key)| - 1].now <= now
      requires expired ==> key in keys && MayDrop(keys[key], now)
      modifies this
      ensures Valid() && count == |Recent(old(Log(key)), now, window)|
      ensures history == old(history)[key := old(Log(key)) + [Request(now, limit, expired)]]
      ensures keys == old(keys)[key := Present(Recent(old(Log(key)), now, window) + {now}, now + ttl)]
    {
      var held := if key in keys && !expired then Members(keys[key]) else {};
      var pruned := Prune(held, now, window);
      count := |pruned|;
      var keys' := keys[key := Present(pruned + {now}, now + ttl)];
      ghost var history' := history[key := Log(key) + [Request(now, limit, expired)]];
      RecordOne(keys, history, keys', history', key, Request(now, limit, expired), window, ttl, held);
      keys, history := keys', history';
    }
  }

  ghost function StateOf(keys: map<string, KeyState>, key: string): KeyState {
    if key in keys then keys[key] else Absent
  }

  ghost function LogOf(history: map<string, seq<Request>>, key: string): seq<Request> {
    if key in history then history[key] else []
  }

  /** Running the four commands for one key and appending the request to its history agree. */
  lemma RecordOne(keys: map<string, KeyState>, history: map<string, seq<Request>>,
                  keys': map<string, KeyState>, history': map<string, seq<Request>>,
                  key: string, req: Request, window: nat, ttl: nat, held: set<nat>)
    requires Recorded(keys, history, window, ttl) && window <= ttl
    requires var log := LogOf(history, key); log != [] ==> log[|log| - 1].now <= req.now
    requires req.dropped ==> MayDrop(StateOf(keys, key), req.now)
    requires held == if key in keys && !req.dropped then Members(keys[key]) else {}
    requires keys' == keys[key := Present(Prune(held, req.now, window) + {req.now}, req.now + ttl)]
    requires history' == history[key := LogOf(history, key) + [req]]
    ensures Recorded(keys', history', window, ttl)
    ensures Prune(held, req.now, window) == Recent(LogOf(history, key), req.now, window)
  {
    OneMore(LogOf(history, key), req, window, ttl);
    assert Prune(held, req.now, window) == Counted(StateOf(keys, key), req, window);
  }

  /** One more request keeps a run valid, and is decided by the history before it. */
  lemma OneMore(log: seq<Request>, req: Request, window: nat, ttl: nat)
    requires ValidRun(log, window, ttl) && window <= ttl
    requires log != [] ==> log[|log| - 1].now <= req.now
    requires req.dropped ==> MayDrop(Replay(log, window, ttl), req.now)
    ensures ValidRun(log + [req], window, ttl)
    ensures Replay(log + [req], window, ttl) == Pipeline(Replay(log, window, ttl), req, window, ttl)
    ensures Counted(Replay(log, window, ttl), req, window) == Recent(log, req.now, window)
  {
    var ext := log + [req];
    assert ext[..|log|] == log;
    forall i | 0 <= i < |ext| && ext[i].dropped
      ensures MayDrop(Replay(ext[..i], window, ttl), ext[i].now)
    {
      if i < |log| {
        assert ext[..i] == log[..i];
      }
    }
    CountedIsRecent(ext, |log|, window, ttl);
  }
}
