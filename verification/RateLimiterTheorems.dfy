/** What the rate limiter guarantees over whole request sequences. */
module RateLimiterTheorems {
  import opened Common
  import opened RateLimiter

  datatype Req = Req(key: string, now: int)

  ghost predicate Monotone(reqs: seq<Req>, t: int) {
    && (forall i :: 0 <= i < |reqs| ==> t <= reqs[i].now)
    && (forall i, j :: 0 <= i < j < |reqs| ==> reqs[i].now <= reqs[j].now)
  }

  /** No request uses the key under which the limiter keeps the time of its last purge. */
  ghost predicate Ordinary(reqs: seq<Req>) {
    forall i :: 0 <= i < |reqs| ==> reqs[i].key != CLEANUP_KEY
  }

  function Decisions(c: Config, m: map<string, Rec>, reqs: seq<Req>): seq<bool>
    decreases |reqs|
  {
    if reqs == [] then []
    else
      var (m', ok) := Serve(c, m, reqs[0].key, reqs[0].now);
      [ok] + Decisions(c, m', reqs[1..])
  }

  function DecisionsKeeping(c: Config, m: map<string, Rec>, reqs: seq<Req>): seq<bool>
    decreases |reqs|
  {
    if reqs == [] then []
    else
      var (m', ok) := ServeKeeping(c, m, reqs[0].key, reqs[0].now);
      [ok] + DecisionsKeeping(c, m', reqs[1..])
  }

  // ---------------------------------------------------------------------------------------------
  // Purging is invisible
  // ---------------------------------------------------------------------------------------------

  predicate Idle(b: Option<int>, t: int) {
    b.None? || b.value == 0 || b.value <= t
  }

  ghost predicate Match(r: Rec, q: Rec, t: int) {
    && r.count == q.count && r.resetTime == q.resetTime
    && (r.blockedUntil == q.blockedUntil || (Idle(r.blockedUntil, t) && Idle(q.blockedUntil, t)))
  }

  /** m, purged now and then, stands for k, never purged. */
  ghost predicate Similar(m: map<string, Rec>, k: map<string, Rec>, t: int) {
    && (forall key :: key in m && key != CLEANUP_KEY ==> key in k && Match(m[key], k[key], t))
    && (forall key :: key in k && key !in m ==> k[key].resetTime <= t && Idle(k[key].blockedUntil, t))
  }

  lemma HitMatches(c: Config, r: Rec, q: Rec, t: int, now: int)
    requires Match(r, q, t) && t <= now
    ensures Hit(c, r, now).1 == Hit(c, q, now).1 && Match(Hit(c, r, now).0, Hit(c, q, now).0, now)
  {
  }

  /** A key that was purged starts over exactly as its expired record would. */
  lemma HitAfresh(c: Config, q: Rec, now: int)
    requires q.resetTime <= now && Idle(q.blockedUntil, now)
    ensures var r := NewRec(c, now);
      Hit(c, r, now).1 == Hit(c, q, now).1 && Match(Hit(c, r, now).0, Hit(c, q, now).0, now)
  {
  }

  lemma RecMatches(c: Config, m: map<string, Rec>, k: map<string, Rec>, key: string, t: int, now: int)
    requires Similar(m, k, t) && t <= now && key != CLEANUP_KEY
    ensures var r, q := RecOf(c, m, key, now), RecOf(c, k, key, now);
      Hit(c, r, now).1 == Hit(c, q, now).1 && Match(Hit(c, r, now).0, Hit(c, q, now).0, now)
  {
    if key in m {
      HitMatches(c, m[key], k[key], t, now);
    } else if key in k {
      HitAfresh(c, k[key], now);
    }
  }

  lemma PurgeKeepsSimilar(m: map<string, Rec>, k: map<string, Rec>, now: int, marker: Rec)
    requires Similar(m, k, now)
    ensures Similar(Purge(m, now)[CLEANUP_KEY := marker], k, now)
  {
  }

  lemma ServeSimilar(c: Config, m: map<string, Rec>, k: map<string, Rec>, key: string, t: int, now: int)
    requires Similar(m, k, t) && t <= now && key != CLEANUP_KEY
    ensures Serve(c, m, key, now).1 == ServeKeeping(c, k, key, now).1
    ensures Similar(Serve(c, m, key, now).0, ServeKeeping(c, k, key, now).0, now)
  {
    RecMatches(c, m, k, key, t, now);
    var r, q := RecOf(c, m, key, now), RecOf(c, k, key, now);
    var m1, k1 := m[key := Hit(c, r, now).0], k[key := Hit(c, q, now).0];
    assert Similar(m1, k1, now);
    if Blocked(r, now) {
      assert key in m && m1 == m;
    } else {
      PurgeKeepsSimilar(m1, k1, now, Rec(0, now, None));
    }
  }

  lemma {:induction false} SimilarDecisions(c: Config, m: map<string, Rec>, k: map<string, Rec>, t: int, reqs: seq<Req>)
    requires Similar(m, k, t) && Monotone(reqs, t) && Ordinary(reqs)
    ensures Decisions(c, m, reqs) == DecisionsKeeping(c, k, reqs)
    decreases |reqs|
  {
    if reqs != [] {
      ServeSimilar(c, m, k, reqs[0].key, t, reqs[0].now);
      SimilarDecisions(c, Serve(c, m, reqs[0].key, reqs[0].now).0, ServeKeeping(c, k, reqs[0].key, reqs[0].now).0,
                       reqs[0].now, reqs[1..]);
    }
  }

  /** The purging limiter decides every request as one that never deletes a record. */
  lemma PurgingIsInvisible(c: Config, reqs: seq<Req>, t: int)
    requires Monotone(reqs, t) && Ordinary(reqs)
    ensures Decisions(c, map[], reqs) == DecisionsKeeping(c, map[], reqs)
  {
    SimilarDecisions(c, map[], map[], t, reqs);
  }

  /** Purging keeps exactly the records that still matter: a window or a block that has not ended. */
  lemma PurgeMeaning(m: map<string, Rec>, now: int, k: string)
    ensures k in Purge(m, now) <==>
      && k in m
      && (m[k].resetTime >= now || (m[k].blockedUntil.Some? && m[k].blockedUntil.value != 0
        && m[k].blockedUntil.value >= now))
    ensures k in Purge(m, now) ==> Purge(m, now)[k] == m[k]
  {
  }

  /** A request that is admitted more than ten minutes after the last purge leaves no dead record behind. */
  lemma PurgeHappens(c: Config, m: map<string, Rec>, key: string, now: int, k: string)
    requires key != CLEANUP_KEY && Serve(c, m, key, now).1
    requires now - (if CLEANUP_KEY in m then m[CLEANUP_KEY].resetTime else 0) > 600000
    ensures var m' := Serve(c, m, key, now).0;
      && CLEANUP_KEY in m' && m'[CLEANUP_KEY].resetTime == now
      && (k in m' && k != CLEANUP_KEY ==>
            || m'[k].resetTime >= now
            || (m'[k].blockedUntil.Some? && m'[k].blockedUntil.value != 0 && m'[k].blockedUntil.value >= now))
  {
  }

  // ---------------------------------------------------------------------------------------------
  // A key's decisions depend on its own requests only
  // ---------------------------------------------------------------------------------------------

  function TimesOf(reqs: seq<Req>, key: string): seq<int> {
    if reqs == [] then []
    else (if reqs[0].key == key then [reqs[0].now] else []) + TimesOf(reqs[1..], key)
  }

  function DecisionsOf(reqs: seq<Req>, ds: seq<bool>, key: string): seq<bool> {
    if reqs == [] || ds == [] then []
    else (if reqs[0].key == key then [ds[0]] else []) + DecisionsOf(reqs[1..], ds[1..], key)
  }

  /** One key on its own: its record, None before its first request. */
  function Alone(c: Config, r: Option<Rec>, times: seq<int>): seq<bool>
    decreases |times|
  {
    if times == [] then []
    else
      var (r', ok) := Hit(c, if r.Some? then r.value else NewRec(c, times[0]), times[0]);
      [ok] + Alone(c, Some(r'), times[1..])
  }

  lemma {:induction false} DecisionsLength(c: Config, m: map<string, Rec>, reqs: seq<Req>)
    ensures |Decisions(c, m, reqs)| == |reqs| && |DecisionsKeeping(c, m, reqs)| == |reqs|
    decreases |reqs|
  {
    if reqs != [] {
      DecisionsLength(c, Serve(c, m, reqs[0].key, reqs[0].now).0, reqs[1..]);
      DecisionsLength(c, ServeKeeping(c, m, reqs[0].key, reqs[0].now).0, reqs[1..]);
    }
  }

  lemma {:induction false} KeepingIsPerKey(c: Config, m: map<string, Rec>, reqs: seq<Req>, key: string)
    requires |DecisionsKeeping(c, m, reqs)| == |reqs|
    ensures DecisionsOf(reqs, DecisionsKeeping(c, m, reqs), key) == Alone(c, Find(m, key), TimesOf(reqs, key))
    decreases |reqs|
  {
    if reqs != [] {
      var (m', ok) := ServeKeeping(c, m, reqs[0].key, reqs[0].now);
      var ds := DecisionsKeeping(c, m, reqs);
      assert ds[1..] == DecisionsKeeping(c, m', reqs[1..]);
      KeepingIsPerKey(c, m', reqs[1..], key);
      if reqs[0].key == key {
        var times := TimesOf(reqs, key);
        assert times[1..] == TimesOf(reqs[1..], key);
      } else {
        assert TimesOf(reqs, key) == TimesOf(reqs[1..], key);
      }
    }
  }

  /** A key's decisions are those it would get if nobody else sent anything. */
  lemma OwnRequestsOnly(c: Config, reqs: seq<Req>, t: int, key: string)
    requires Monotone(reqs, t) && Ordinary(reqs)
    ensures |Decisions(c, map[], reqs)| == |reqs|
    ensures DecisionsOf(reqs, Decisions(c, map[], reqs), key) == Alone(c, None, TimesOf(reqs, key))
  {
    PurgingIsInvisible(c, reqs, t);
    DecisionsLength(c, map[], reqs);
    KeepingIsPerKey(c, map[], reqs, key);
  }

  // ---------------------------------------------------------------------------------------------
  // How many requests get through
  // ---------------------------------------------------------------------------------------------

  /** Admitted requests with a time in [x, x + len). */
  function Admitted(times: seq<int>, ds: seq<bool>, x: int, len: int): nat {
    if times == [] || ds == [] then 0
    else (if ds[0] && x <= times[0] < x + len then 1 else 0) + Admitted(times[1..], ds[1..], x, len)
  }

  ghost predicate Rising(times: seq<int>, t: int) {
    && (forall i :: 0 <= i < |times| ==> t <= times[i])
    && (forall i, j :: 0 <= i < j < |times| ==> times[i] <= times[j])
  }

  function Left(c: Config, count: int): nat {
    if count < c.points then c.points - count else 0
  }

  /** The most that one interval can let through from a given record on. */
  function Room(c: Config, r: Option<Rec>, x: int): nat {
    var most := if c.points == 0 then 0 else 2 * c.points - 1;
    if r.None? || r.value.resetTime < x then most
    else if r.value.resetTime < x + c.Window() then Left(c, r.value.count) + c.points
    else Left(c, r.value.count)
  }

  lemma {:induction false} AloneLength(c: Config, r: Option<Rec>, times: seq<int>)
    ensures |Alone(c, r, times)| == |times|
    decreases |times|
  {
    if times != [] {
      AloneLength(c, Some(Hit(c, if r.Some? then r.value else NewRec(c, times[0]), times[0]).0), times[1..]);
    }
  }

  lemma {:induction false} NothingLater(times: seq<int>, ds: seq<bool>, x: int, len: int)
    requires |times| == |ds| && Rising(times, x + len)
    ensures Admitted(times, ds, x, len) == 0
    decreases |times|
  {
    if times != [] { NothingLater(times[1..], ds[1..], x, len); }
  }

  lemma RoomShrinks(c: Config, r: Option<Rec>, x: int, now: int)
    requires now < x + c.Window() && (r.Some? ==> r.value.count >= 1)
    ensures var (r', ok) := Hit(c, if r.Some? then r.value else NewRec(c, now), now);
      r'.count >= 1 && (if ok && x <= now then 1 else 0) + Room(c, Some(r'), x) <= Room(c, r, x)
  {
  }

  lemma {:induction false} AloneWithinRoom(c: Config, r: Option<Rec>, times: seq<int>, x: int, t: int)
    requires Rising(times, t) && (r.Some? ==> r.value.count >= 1) && |Alone(c, r, times)| == |times|
    ensures Admitted(times, Alone(c, r, times), x, c.Window()) <= Room(c, r, x)
    decreases |times|
  {
    if times != [] {
      if times[0] < x + c.Window() {
        var (r', ok) := Hit(c, if r.Some? then r.value else NewRec(c, times[0]), times[0]);
        RoomShrinks(c, r, x, times[0]);
        assert Alone(c, r, times)[1..] == Alone(c, Some(r'), times[1..]);
        AloneWithinRoom(c, Some(r'), times[1..], x, times[0]);
      } else {
        assert Rising(times, x + c.Window());
        NothingLater(times, Alone(c, r, times), x, c.Window());
      }
    }
  }

  lemma {:induction false} TimesOfRise(reqs: seq<Req>, key: string, t: int)
    requires Monotone(reqs, t)
    ensures Rising(TimesOf(reqs, key), t)
    decreases |reqs|
  {
    if reqs != [] {
      TimesOfRise(reqs[1..], key, reqs[0].now);
    }
  }

  /** In any half-open interval as long as the window, a key is admitted at most 2 * points - 1 times. */
  lemma SlidingBound(c: Config, reqs: seq<Req>, t: int, key: string, x: int)
    requires Monotone(reqs, t) && Ordinary(reqs)
    ensures Admitted(TimesOf(reqs, key), DecisionsOf(reqs, Decisions(c, map[], reqs), key), x, c.duration * 1000)
            <= if c.points == 0 then 0 else 2 * c.points - 1
  {
    OwnRequestsOnly(c, reqs, t, key);
    AloneLength(c, None, TimesOf(reqs, key));
    TimesOfRise(reqs, key, t);
    AloneWithinRoom(c, None, TimesOf(reqs, key), x, t);
  }

  /** Request i of a key finds no window open: none was yet, or the last one has ended. */
  ghost predicate OpensWindow(c: Config, times: seq<int>, i: nat)
    requires i < |times|
  {
    var r := After(c, None, times[..i]);
    r.Some? ==> r.value.resetTime <= times[i]
  }

  lemma {:induction false} AloneSuffix(c: Config, r: Option<Rec>, times: seq<int>, i: nat)
    requires i <= |times| && |Alone(c, r, times)| == |times|
    ensures Alone(c, r, times)[i..] == Alone(c, After(c, r, times[..i]), times[i..])
    decreases i
  {
    if i == 0 {
      assert times[..0] == [] && times[0..] == times;
    } else {
      var r' := Hit(c, if r.Some? then r.value else NewRec(c, times[0]), times[0]).0;
      AloneLength(c, Some(r'), times[1..]);
      AloneSuffix(c, Some(r'), times[1..], i - 1);
      assert times[..i][1..] == times[1..][..i - 1] && times[1..][i - 1..] == times[i..];
      assert Alone(c, r, times)[i..] == Alone(c, Some(r'), times[1..])[i - 1..];
    }
  }

  /**
   Over all runs, from the request that finds no window open a key is admitted at most points times in a
   window's length.
   */
  lemma WindowBound(c: Config, reqs: seq<Req>, t: int, key: string, i: nat)
    requires Monotone(reqs, t) && Ordinary(reqs) && i < |TimesOf(reqs, key)| && OpensWindow(c, TimesOf(reqs, key), i)
    ensures |DecisionsOf(reqs, Decisions(c, map[], reqs), key)| == |TimesOf(reqs, key)|
    ensures var times, ds := TimesOf(reqs, key), DecisionsOf(reqs, Decisions(c, map[], reqs), key);
      Admitted(times[i..], ds[i..], times[i], c.duration * 1000) <= c.points
  {
    var times := TimesOf(reqs, key);
    OwnRequestsOnly(c, reqs, t, key);
    AloneLength(c, None, times);
    TimesOfRise(reqs, key, t);
    AloneSuffix(c, None, times, i);
    OpenedWindow(c, After(c, None, times[..i]), times[i..]);
  }

  lemma OpenedWindow(c: Config, r: Option<Rec>, times: seq<int>)
    requires times != [] && Rising(times, times[0])
    requires r.Some? ==> r.value.resetTime <= times[0]
    ensures Admitted(times, Alone(c, r, times), times[0], c.Window()) <= c.points
  {
    var (r', ok) := Hit(c, if r.Some? then r.value else NewRec(c, times[0]), times[0]);
    if r'.resetTime == times[0] + c.Window() && r'.count == 1 {
      AloneLength(c, Some(r'), times[1..]);
      AloneWithinRoom(c, Some(r'), times[1..], times[0], times[0]);
    } else {
      StillBlocked(c, r.value, times, times[0]);
    }
  }

  /** While blocked, nothing is admitted until the block ends; what follows opens a window then. */
  lemma {:induction false} StillBlocked(c: Config, r: Rec, times: seq<int>, x: int)
    requires times != [] && Rising(times, x) && r.resetTime <= x
    ensures Admitted(times, Alone(c, Some(r), times), x, c.Window()) <= c.points
    decreases |times|
  {
    var (r', ok) := Hit(c, r, times[0]);
    if Blocked(r, times[0]) {
      if times[1..] != [] { StillBlocked(c, r, times[1..], x); }
    } else if times[0] < x + c.Window() {
      AloneLength(c, Some(r'), times[1..]);
      AloneWithinRoom(c, Some(r'), times[1..], x, times[0]);
    } else {
      AloneLength(c, Some(r), times);
      NothingLater(times, Alone(c, Some(r), times), x, c.Window());
    }
  }

  function Repeat(now: int, n: nat): (r: seq<int>)
    ensures |r| == n && forall i :: 0 <= i < n ==> r[i] == now
  {
    seq(n, i => now)
  }

  /** n requests at one moment within a window that has room for them. */
  lemma {:induction false} Burst(c: Config, r: Rec, now: int, n: nat, rest: seq<int>, x: int)
    requires now < r.resetTime && r.count + n <= c.points && r.blockedUntil.None? && x <= now < x + c.Window()
    ensures Admitted(Repeat(now, n) + rest, Alone(c, Some(r), Repeat(now, n) + rest), x, c.Window())
            == n + Admitted(rest, Alone(c, Some(r.(count := r.count + n)), rest), x, c.Window())
    decreases n
  {
    var times := Repeat(now, n) + rest;
    if n == 0 {
      assert times == rest;
    } else {
      var r' := Hit(c, r, now).0;
      assert times[0] == now && times[1..] == Repeat(now, n - 1) + rest;
      Burst(c, r', now, n - 1, rest, x);
    }
  }

  function Requests(key: string, times: seq<int>): (reqs: seq<Req>)
    ensures |reqs| == |times| && forall i :: 0 <= i < |reqs| ==> reqs[i] == Req(key, times[i])
  {
    seq(|times|, i requires 0 <= i < |times| => Req(key, times[i]))
  }

  lemma {:induction false} RequestTimes(key: string, times: seq<int>)
    ensures TimesOf(Requests(key, times), key) == times
    decreases |times|
  {
    if times != [] {
      RequestTimes(key, times[1..]);
      assert Requests(key, times)[1..] == Requests(key, times[1..]);
    }
  }

  /** For every limit and every key, a run reaches the bound of SlidingBound. */
  lemma SlidingBoundIsReached(c: Config, key: string)
    requires c.points >= 1 && c.duration >= 1 && key != CLEANUP_KEY
    ensures exists reqs :: (
      && Monotone(reqs, 0) && Ordinary(reqs)
      && Admitted(TimesOf(reqs, key), DecisionsOf(reqs, Decisions(c, map[], reqs), key), c.Window() - 1, c.Window())
         == 2 * c.points - 1)
  {
    var times := FullTwice(c);
    var reqs := Requests(key, times);
    RequestTimes(key, times);
    OwnRequestsOnly(c, reqs, 0, key);
    assert Monotone(reqs, 0) && Ordinary(reqs);
  }

  /** A full window's tail, then the next window's head. */
  lemma FullTwice(c: Config) returns (times: seq<int>)
    requires c.points >= 1 && c.duration >= 1
    ensures Rising(times, 0) && Admitted(times, Alone(c, None, times), c.Window() - 1, c.Window()) == 2 * c.points - 1
  {
    var w := c.Window();
    var tail := Repeat(w, c.points);
    var mid := Repeat(w - 1, c.points - 1) + tail;
    times := [0] + mid;
    assert Rising(times, 0);
    var r1 := Rec(1, w, None);
    var r2 := Rec(c.points, w, None);
    assert times[1..] == mid;
    Burst(c, r1, w - 1, c.points - 1, tail, w - 1);
    assert Alone(c, None, times)[1..] == Alone(c, Some(r1), mid);
    var rest := Repeat(w, c.points - 1);
    assert tail[0] == w && tail[1..] == rest;
    assert Hit(c, r2, w) == (Rec(1, w + w, None), true);
    assert Alone(c, Some(r2), tail)[1..] == Alone(c, Some(Rec(1, w + w, None)), rest);
    assert rest + [] == rest;
    Burst(c, Rec(1, w + w, None), w, c.points - 1, [], w - 1);
  }

  // ---------------------------------------------------------------------------------------------
  // Blocking
  // ---------------------------------------------------------------------------------------------

  /** The record after a sequence of requests. */
  function After(c: Config, r: Option<Rec>, times: seq<int>): Option<Rec>
    decreases |times|
  {
    if times == [] then r
    else After(c, Some(Hit(c, if r.Some? then r.value else NewRec(c, times[0]), times[0]).0), times[1..])
  }

  /** Rejecting now, having not been blocked before, is what starts a block. */
  ghost predicate BlocksAt(c: Config, r: Rec, now: int) {
    !Blocked(r, now) && !Hit(c, r, now).1
  }

  /** From the request that starts a block on, for the whole block, requests are rejected and change nothing. */
  lemma BlockHolds(c: Config, r: Rec, t: int, now: int)
    requires 0 <= t && BlocksAt(c, r, t)
    requires t <= now < t + if c.blockDuration in {None, Some(0)} then 300000 else c.blockDuration.value * 1000
    ensures Hit(c, Hit(c, r, t).0, now) == (Hit(c, r, t).0, false)
  {
  }

  ghost predicate RecoversAfterBlock(c: Config) {
    forall times, t, now ::
      Rising(times, 0) && (times != [] ==> times[|times| - 1] <= t) && 0 <= t && t + c.Block() <= now
      && BlocksAt(c, RecAfter(c, times, t), t)
      ==> Hit(c, Hit(c, RecAfter(c, times, t), t).0, now).1
  }

  function RecAfter(c: Config, times: seq<int>, now: int): Rec {
    var r := After(c, None, times);
    if r.Some? then r.value else NewRec(c, now)
  }

  /** No window ends later than a window's length after the last request. */
  lemma {:induction false} WindowsEnd(c: Config, r: Option<Rec>, times: seq<int>, t: int, last: int)
    requires Rising(times, t) && t <= last && (times != [] ==> times[|times| - 1] <= last)
    requires r.Some? ==> r.value.resetTime <= t + c.Window()
    ensures After(c, r, times).Some? ==> After(c, r, times).value.resetTime <= last + c.Window()
    decreases |times|
  {
    if times != [] {
      var r' := Hit(c, if r.Some? then r.value else NewRec(c, times[0]), times[0]).0;
      WindowsEnd(c, Some(r'), times[1..], times[0], last);
    }
  }

  /** points requests at time 0 leave a full window behind. */
  lemma {:induction false} Filled(c: Config, r: Rec, n: nat)
    requires 0 < r.resetTime && r.count + n <= c.points && r.blockedUntil.None?
    ensures After(c, Some(r), Repeat(0, n)) == Some(r.(count := r.count + n))
    decreases n
  {
    if n != 0 {
      assert Repeat(0, n)[1..] == Repeat(0, n - 1);
      Filled(c, Hit(c, r, 0).0, n - 1);
    }
  }

  /** A block ends with an admission exactly when the limit is positive and a block lasts as long as a window. */
  lemma RecoversIff(c: Config)
    ensures RecoversAfterBlock(c) <==> c.points >= 1 && c.Block() >= c.Window()
  {
    if c.points == 0 {
      assert BlocksAt(c, RecAfter(c, [], 0), 0);
      assert !Hit(c, Hit(c, RecAfter(c, [], 0), 0).0, c.Block()).1;
      assert Rising([], 0);
    } else if c.Block() < c.Window() {
      var w, times := c.Window(), Repeat(0, c.points);
      assert times[0] == 0 && times[1..] == Repeat(0, c.points - 1);
      Filled(c, Rec(1, w, None), c.points - 1);
      assert RecAfter(c, times, 0) == Rec(c.points, w, None);
      assert BlocksAt(c, RecAfter(c, times, 0), 0);
      assert !Hit(c, Hit(c, RecAfter(c, times, 0), 0).0, c.Block()).1;
      assert Rising(times, 0);
    } else {
      forall times, t, now | Rising(times, 0) && (times != [] ==> times[|times| - 1] <= t) && 0 <= t
                             && t + c.Block() <= now && BlocksAt(c, RecAfter(c, times, t), t)
        ensures Hit(c, Hit(c, RecAfter(c, times, t), t).0, now).1 {
        WindowsEnd(c, None, times, 0, t);
      }
    }
  }

  /** When a block lasts as long as a window, a key's count never passes points + 1. */
  lemma {:induction false} CountBound(c: Config, r: Option<Rec>, times: seq<int>, t: int)
    requires Rising(times, t) && 0 <= t && c.Block() >= c.Window()
    requires r.Some? ==> r.value.count <= c.points + 1 && r.value.resetTime <= t + c.Window()
    requires r.Some? && r.value.count == c.points + 1 ==>
      r.value.blockedUntil.Some? && r.value.resetTime <= r.value.blockedUntil.value
    requires r.Some? && r.value.blockedUntil.Some? ==> r.value.blockedUntil.value > 0
    ensures After(c, r, times).Some? ==> After(c, r, times).value.count <= c.points + 1
    decreases |times|
  {
    if times != [] {
      CountBound(c, Some(Hit(c, if r.Some? then r.value else NewRec(c, times[0]), times[0]).0), times[1..], times[0]);
    }
  }
}
