/** The runs in which a timer disagrees with the store or a schedule runs early, and the two exact conditions. */
module SchedulerPunctuality {
  import opened Common
  import opened Scheduler
  import opened SchedulerRuns
  import opened SchedulerTiming

  const SOON: Doc := Doc(Pending, ["x"], 10)
  const FAR: Doc := Doc(Pending, ["x"], MAX_TIMEOUT + 2)

  function To(due: int): Dto {
    Dto(Some(due), None, None)
  }

  /** An activation about to read a schedule that is not due yet passes the status test all the same. */
  lemma PassesEarly(env: Env, db: map<Id, Doc>, n: Id, now: int, s: State, a: nat)
    requires Fresh(db, n) && Reach(env, Boot(db, n, now), s) && Free(env, s)
    requires a in s.acts && s.acts[a] == READER && 0 in s.db && s.db[0].status == Pending && s.db[0].due > s.now
    ensures !Always(env, s => NeverEarly(s))
  {
    var s0 := Boot(db, n, now);
    var s1 := ReachAct(env, s0, s, a, Ok);
    assert s1 == s.(acts := s.acts[a := READER.(phase := Checking(Some(s.db[0])))]);
    var s2 := ReachAct(env, s0, s1, a, Ok);
    assert Passed(s2.acts, a) && s2.acts[a].snap.value.due > s2.acts[a].passedAt;
  }

  lemma Disagrees(env: Env, db: map<Id, Doc>, n: Id, now: int, s: State)
    requires Fresh(db, n) && Reach(env, Boot(db, n, now), s) && !TimersAgree(s)
    ensures !Always(env, s => TimersAgree(s))
  {
  }

  lemma Waits(env: Env, s0: State, s: State, ms: nat) returns (t: State)
    requires Reach(env, s0, s) && Free(env, s)
    ensures Reach(env, s0, t) && t == s.(now := s.now + ms)
  {
    ReachStep(env, s0, s, Tick(ms));
    t := Step(s, Tick(ms));
  }

  /** A timer of schedule 0 fires and starts an activation. */
  lemma Fires(env: Env, s0: State, s: State, t: nat) returns (u: State)
    requires Reach(env, s0, s) && Free(env, s) && t in s.timers && s.timers[t].id == 0 && s.timers[t].at <= s.now
    requires s.processing == {}
    ensures Reach(env, s0, u)
    ensures u == s.(timers := s.timers - {t}, processing := {0}, nextAct := s.nextAct
      + 1, acts := s.acts[s.nextAct := READER])
  {
    ReachStep(env, s0, s, TimerFire(t));
    u := Step(s, TimerFire(t));
  }

  /** An atomic update that moves schedule 0 to a later time; its timer, if any, is deleted and a new one is set. */
  lemma Moves(env: Env, s0: State, s: State, due: int) returns (t: State)
    requires Reach(env, s0, s) && s.calls == map[] && (BeforeTimers(s.init) ==> env.earlyCalls)
    requires 0 in s.db && s.db[0].status == Pending && due > s.now && due - s.now <= MAX_TIMEOUT
    requires MayPostpone(env.postponing, DeleteTimeout(s, 0), 0)
    ensures Reach(env, s0, t)
    ensures var s1 := DeleteTimeout(s, 0);
      t == s1.(db := s.db[0 := s.db[0].(due := due)], nextCall := s.nextCall + 1,
               timers := s1.timers[s.nextTimer := Timer(0, due)], nextTimer := s.nextTimer + 1,
               registry := s1.registry[0 := s.nextTimer])
  {
    var c := s.nextCall;
    var s1 := UpdateBegins(env, s0, s, To(due));
    assert !JobFor(s1.calls, 0);
    var s2 := UpdateLands(env, s0, s1, c, To(due));
    assert s2.db[0] == s.db[0].(due := due);
    t := UpdateEnds(env, s0, s2, c, due);
    assert s2.calls - {c} == map[];
  }

  // ---------------------------------------------------------------------------------------------
  // Timeouts that are clipped
  // ---------------------------------------------------------------------------------------------

  /** Start-up sets a timer for a schedule more than MAX_TIMEOUT ahead: it is due one millisecond later. */
  lemma FarTimerSet(env: Env) returns (t: State)
    requires env.farTimers
    ensures Reach(env, Boot(map[0 := FAR], 1, 0), t)
    ensures t == Boot(map[0 := FAR], 1, 0).(init := Resetting, timers := map[0 := Timer(0, 1)], nextTimer := 1,
        registry := map[0 := 0])
  {
    var s0 := Boot(map[0 := FAR], 1, 0);
    ReachSelf(env, s0);
    var s1 := InitLists(env, s0, s0);
    t := InitActs(env, s0, s1, Job(0, MAX_TIMEOUT + 2));
  }

  lemma FarTimerRunsEarly(env: Env)
    requires env.farTimers
    ensures !Always(env, s => NeverEarly(s))
  {
    var s0 := Boot(map[0 := FAR], 1, 0);
    var s1 := FarTimerSet(env);
    var s2 := Waits(env, s0, s1, 1);
    var s3 := Fires(env, s0, s2, 0);
    PassesEarly(env, map[0 := FAR], 1, 0, s3, 0);
  }

  // ---------------------------------------------------------------------------------------------
  // Postponed while something stands for the schedule
  // ---------------------------------------------------------------------------------------------

  /** An atomic update comes after an activation has started and before it reads. */
  lemma ReaderRunsEarly(env: Env)
    requires env.postponing.readers
    ensures !Always(env, s => NeverEarly(s))
  {
    var db := map[0 := SLOT];
    var s0 := Boot(db, 1, 5);
    var s1 := InitStarts(env, s0);
    assert MayPostpone(env.postponing, s1, 0);
    var s2 := Moves(env, s0, s1, 100);
    PassesEarly(env, db, 1, 5, s2, 0);
  }

  /** Start-up has set the timer of schedule 0. */
  lemma InitSets(env: Env) returns (t: State)
    ensures Reach(env, Boot(map[0 := SOON], 1, 0), t)
    ensures t == Boot(map[0 := SOON], 1, 0).(init := Resetting, timers := map[0 := Timer(0, 10)], nextTimer := 1,
        registry := map[0 := 0])
  {
    var s0 := Boot(map[0 := SOON], 1, 0);
    ReachSelf(env, s0);
    var s1 := InitLists(env, s0, s0);
    t := InitActs(env, s0, s1, Job(0, 10));
  }

  /** An atomic update comes after a tick's query and before its loop. */
  lemma TickRunsEarly(env: Env)
    requires env.postponing.ticks
    ensures !Always(env, s => NeverEarly(s))
  {
    var db := map[0 := SOON];
    var s0 := Boot(db, 1, 0);
    var s1 := InitSets(env);
    var s2 := Waits(env, s0, s1, 10);
    var s3 := TickFinds(env, s0, s2);
    assert DeleteTimeout(s3, 0).timers == map[];
    assert MayPostpone(env.postponing, DeleteTimeout(s3, 0), 0);
    var s4 := Moves(env, s0, s3, 100);
    var s5 := TickStarts(env, s0, s4);
    PassesEarly(env, db, 1, 0, s5, 0);
  }

  /** An atomic update comes after start-up has listed an overdue schedule and before it starts it. */
  lemma ListingRunsEarly(env: Env)
    requires env.postponing.listing && env.earlyCalls
    ensures !Always(env, s => NeverEarly(s))
  {
    var db := map[0 := SLOT];
    var s0 := Boot(db, 1, 5);
    ReachSelf(env, s0);
    var s1 := InitLists(env, s0, s0);
    assert MayPostpone(env.postponing, s1, 0);
    var s2 := Moves(env, s0, s1, 100);
    var s3 := InitActs(env, s0, s2, Job(0, 0));
    PassesEarly(env, db, 1, 5, s3, 0);
  }

  /** Two updates: both have deleted the timer, and the first has written but not set a new one. */
  lemma TwoUpdates(env: Env, first: int, second: int) returns (t: State)
    requires env.openCalls && 0 < first <= 1000 && 0 < second <= 1000
    ensures Reach(env, Boot(map[0 := SOON], 1, 0), t)
    ensures t == Boot(map[0 := SOON.(due := first)], 1, 0).(
      init := Resetting, nextTimer := 1, nextCall := 2, calls := map[0 := UpdateWritten(0, first),
          1 := UpdateWriting(0, To(second))])
  {
    var s0 := Boot(map[0 := SOON], 1, 0);
    var s1 := TwoBegun(env, first, second);
    assert MayPostpone(env.postponing, s1, 0);
    t := UpdateLands(env, s0, s1, 0, To(first));
    assert t.db == map[0 := SOON.(due := first)];
    assert t.calls == map[0 := UpdateWritten(0, first), 1 := UpdateWriting(0, To(second))];
  }

  lemma TwoBegun(env: Env, first: int, second: int) returns (t: State)
    requires env.openCalls && 0 < first <= 1000 && 0 < second <= 1000
    ensures Reach(env, Boot(map[0 := SOON], 1, 0), t)
    ensures t == Boot(map[0 := SOON], 1, 0).(
      init := Resetting, nextTimer := 1, nextCall := 2, calls := map[0 := UpdateWriting(0, To(first)),
          1 := UpdateWriting(0, To(second))])
  {
    var s0 := Boot(map[0 := SOON], 1, 0);
    var s1 := InitSets(env);
    var s2 := UpdateBegins(env, s0, s1, To(first));
    assert s2 == s0.(init := Resetting, nextTimer := 1, nextCall := 1, calls := map[0 := UpdateWriting(0, To(first))]);
    t := UpdateBegins(env, s0, s2, To(second));
    assert t.calls == map[0 := UpdateWriting(0, To(first)), 1 := UpdateWriting(0, To(second))];
  }

  /** The second update writes before the first has set its timer, which then starts the schedule. */
  lemma JobRunsEarly(env: Env)
    requires env.postponing.jobs && env.openCalls
    ensures !Always(env, s => NeverEarly(s))
  {
    var db := map[0 := SOON];
    var s0 := Boot(db, 1, 0);
    var s1 := TwoUpdates(env, 100, 200);
    assert s1.calls[1] == UpdateWriting(0, To(200));
    assert MayPostpone(env.postponing, s1, 0);
    var s2 := UpdateLands(env, s0, s1, 1, To(200));
    var s3 := Waits(env, s0, s2, 100);
    assert s3.calls[0] == UpdateWritten(0, 100);
    var s4 := UpdateEnds(env, s0, s3, 0, 100);
    PassesEarly(env, db, 1, 0, s4, 0);
  }

  /** The first update sets its timer; the second update does not delete it again. */
  lemma TimerLeft(env: Env, first: int, second: int) returns (t: State)
    requires env.openCalls && 0 < first <= 1000 && 0 < second <= 1000 && (second > first ==> env.postponing.timers)
    ensures Reach(env, Boot(map[0 := SOON], 1, 0), t)
    ensures t == Boot(map[0 := SOON.(due := second)], 1, 0).(
      init := Resetting, timers := map[1 := Timer(0, first)], nextTimer := 2, registry := map[0 := 1], nextCall := 2,
      calls := map[1 := UpdateWritten(0, second)])
  {
    var s0 := Boot(map[0 := SOON], 1, 0);
    var s1 := TwoUpdates(env, first, second);
    assert s1.calls[0] == UpdateWritten(0, first);
    var s2 := UpdateEnds(env, s0, s1, 0, first);
    assert s2.calls == map[1 := UpdateWriting(0, To(second))];
    assert second > first ==> MayPostpone(env.postponing, s2, 0);
    t := UpdateLands(env, s0, s2, 1, To(second));
    assert t.db == map[0 := SOON.(due := second)] && t.calls == map[1 := UpdateWritten(0, second)];
  }

  lemma OpenTimerRunsEarly(env: Env)
    requires env.postponing.timers && env.openCalls
    ensures !Always(env, s => NeverEarly(s))
  {
    var db := map[0 := SOON];
    var s0 := Boot(db, 1, 0);
    var s1 := TimerLeft(env, 100, 200);
    var s2 := Waits(env, s0, s1, 100);
    var s3 := Fires(env, s0, s2, 1);
    PassesEarly(env, db, 1, 0, s3, 0);
  }

  /** A schedule created before start-up lists it gets two timers, and only the first is registered. */
  lemma TwoTimers(env: Env) returns (t: State)
    requires env.earlyCalls
    ensures Reach(env, Boot(map[], 0, 0), t)
    ensures t == Boot(map[0 := SOON], 1, 0).(
      init := Resetting, timers := map[0 := Timer(0, 10), 1 := Timer(0, 10)], nextTimer := 2,
          registry := map[0 := 0], nextCall := 1)
  {
    var s0 := Boot(map[], 0, 0);
    var s1 := CreatesSoon(env);
    var s2 := InitLists(env, s0, s1);
    t := InitActs(env, s0, s2, Job(0, 10));
    assert t.timers == map[0 := Timer(0, 10), 1 := Timer(0, 10)];
  }

  lemma CreatesSoon(env: Env) returns (t: State)
    requires env.earlyCalls
    ensures Reach(env, Boot(map[], 0, 0), t)
    ensures t == Boot(map[0 := SOON], 1, 0).(timers := map[0 := Timer(0, 10)], nextTimer := 1,
        registry := map[0 := 0], nextCall := 1)
  {
    var s0 := Boot(map[], 0, 0);
    ReachSelf(env, s0);
    ReachStep(env, s0, s0, Create(SOON));
    var s1 := Step(s0, Create(SOON));
    assert s1 == s0.(calls := map[0 := Creating(SOON)], nextCall := 1);
    ReachStep(env, s0, s1, CallStep(0, Ok));
    var s2 := Step(s1, CallStep(0, Ok));
    assert s2 == s0.(calls := map[0 := Created(0, 10)], nextCall := 1, db := map[0 := SOON], nextId := 1);
    ReachStep(env, s0, s2, CallStep(0, Ok));
    t := Step(s2, CallStep(0, Ok));
    assert t == CreateJob(s2.(calls := map[]), Job(0, 10));
  }

  /** A later update deletes the registered timer only. */
  lemma EarlyTimerRunsEarly(env: Env)
    requires env.postponing.timers && env.earlyCalls
    ensures !Always(env, s => NeverEarly(s))
  {
    var s0 := Boot(map[], 0, 0);
    var s1 := TwoTimers(env);
    assert MayPostpone(env.postponing, DeleteTimeout(s1, 0), 0);
    var s2 := Moves(env, s0, s1, 100);
    var s3 := Waits(env, s0, s2, 10);
    assert s3.timers[1] == Timer(0, 10);
    var s4 := Fires(env, s0, s3, 1);
    PassesEarly(env, map[], 0, 0, s4, 0);
  }

  // ---------------------------------------------------------------------------------------------
  // The exact conditions
  // ---------------------------------------------------------------------------------------------

  /**
   Every live timer is registered and set to the stored time, over all runs, exactly when HTTP calls
   are atomic and come after start-up recovery has set its timers, and no timeout is clipped.
   */
  lemma TimersAgreeIff(env: Env)
    ensures Always(env, s => TimersAgree(s)) <==> !env.openCalls && !env.earlyCalls && !env.farTimers
  {
    if env.farTimers {
      var s := FarTimerSet(env);
      assert 0 in s.timers;
      Disagrees(env, map[0 := FAR], 1, 0, s);
    } else if env.openCalls {
      var s := TimerLeft(env, 100, 50);
      assert 1 in s.timers;
      Disagrees(env, map[0 := SOON], 1, 0, s);
    } else if env.earlyCalls {
      var s := TwoTimers(env);
      assert 1 in s.timers;
      Disagrees(env, map[], 0, 0, s);
    } else {
      forall db, n, now, es | Fresh(db, n) && Valid(env, Boot(db, n, now), es)
        ensures TimersAgree(Run(Boot(db, n, now), es)) {
        BootIsTimely(env, db, n, now);
        RunKeepsOrdered(env, Boot(db, n, now), es);
      }
    }
  }

  /**
   No schedule passes the PENDING check before the time it carries, over all runs, exactly when no
   timeout is clipped and no update postpones a schedule while something stands for it: an activation
   that has yet to read it, the list of a tick, and, if HTTP calls come before start-up recovery has set
   its timers, its list; if they are not atomic, another call; if either, a timer.
   */
  lemma NeverEarlyIff(env: Env)
    ensures Always(env, s => NeverEarly(s)) <==> PunctualEnv(env)
  {
    if env.farTimers {
      FarTimerRunsEarly(env);
    } else if env.postponing.readers {
      ReaderRunsEarly(env);
    } else if env.postponing.ticks {
      TickRunsEarly(env);
    } else if env.postponing.listing && env.earlyCalls {
      ListingRunsEarly(env);
    } else if env.postponing.jobs && env.openCalls {
      JobRunsEarly(env);
    } else if env.postponing.timers && env.openCalls {
      OpenTimerRunsEarly(env);
    } else if env.postponing.timers && env.earlyCalls {
      EarlyTimerRunsEarly(env);
    } else {
      forall db, n, now, es | Fresh(db, n) && Valid(env, Boot(db, n, now), es)
        ensures NeverEarly(Run(Boot(db, n, now), es)) {
        RunIsPunctual(env, db, n, now, es);
      }
    }
  }

  lemma RunIsPunctual(env: Env, db: map<Id, Doc>, n: Id, now: int, es: seq<Event>)
    requires PunctualEnv(env) && Fresh(db, n) && Valid(env, Boot(db, n, now), es)
    ensures NeverEarly(Run(Boot(db, n, now), es))
  {
    BootIsTimely(env, db, n, now);
    RunKeepsTimely(env, Boot(db, n, now), es);
    var s := Run(Boot(db, n, now), es);
    forall a | Passed(s.acts, a) ensures s.acts[a].snap.value.due <= s.acts[a].passedAt {
      assert ActTimely(s.acts[a], s.db, s.nextId, s.now);
    }
  }
}
