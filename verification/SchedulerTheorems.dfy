/** What the scheduling service guarantees over whole runs, and exactly when. */
module SchedulerTheorems {
  import opened Common
  import opened Scheduler
  import opened SchedulerSafety
  import opened SchedulerRuns

  lemma BootIsSafe(db: map<Id, Doc>, n: Id, now: int)
    requires Fresh(db, n)
    ensures Safe(Boot(db, n, now))
  {
  }

  /** In every reachable state, whatever fails, sends are in order and COMPLETED means all of them returned. */
  lemma SendsAreOrdered(env: Env, db: map<Id, Doc>, n: Id, now: int, es: seq<Event>, a: nat)
    requires Fresh(db, n) && Valid(env, Boot(db, n, now), es)
    requires a in Run(Boot(db, n, now), es).acts
    ensures var act := Run(Boot(db, n, now), es).acts[a];
      && act.attempts <= Recipients(act)
      && (act.attempts != [] ==> act.snap.Some? && act.snap.value.status == Pending)
      && (act.wrote == Some(Completed) ==> act.attempts == Recipients(act) && !act.threw)
      && (act.wrote == Some(Failed) ==> act.threw || act.tripped)
  {
    BootIsSafe(db, n, now);
    RunKeepsBase(env, Boot(db, n, now), es);
  }

  /** After a send has thrown, the activation sends nothing more, whatever happens next. */
  lemma {:induction false} NothingAfterThrow(env: Env, s: State, es: seq<Event>, a: nat)
    requires Base(s) && Valid(env, s, es) && a in s.acts && s.acts[a].threw
    ensures var t := Run(s, es);
      a in t.acts && t.acts[a].threw && t.acts[a].attempts == s.acts[a].attempts && t.acts[a].snap == s.acts[a].snap
    decreases |es|
  {
    if es != [] {
      StepKeepsBase(s, es[0]);
      StepFreezes(s, es[0], a);
      NothingAfterThrow(env, Step(s, es[0]), es[1..], a);
    }
  }

  lemma AdvanceFreezes(s: State, a: nat, io: Io)
    requires Base(s) && a in s.acts && s.acts[a].threw
    ensures var t := Advance(s, a, io);
      a in t.acts && t.acts[a].threw && t.acts[a].attempts == s.acts[a].attempts && t.acts[a].snap == s.acts[a].snap
  {
    assert ActOk(s.acts[a]);
  }

  lemma StepFreezes(s: State, e: Event, a: nat)
    requires Base(s) && Possible(s, e) && a in s.acts && s.acts[a].threw
    ensures var t := Step(s, e);
      a in t.acts && t.acts[a].threw && t.acts[a].attempts == s.acts[a].attempts && t.acts[a].snap == s.acts[a].snap
  {
    if e.ActStep? && e.a == a {
      AdvanceFreezes(s, a, e.io);
    } else {
      StepKeepsAct(s, e, a);
    }
  }

  /** Each cron tick leaves every schedule that its query returned in `processingSchedules`. */
  lemma CronTickCovers(s: State, k: nat)
    requires Base(s) && k < |s.ticks|
    ensures var t := Step(s, CronRun(k));
      forall id :: id in s.ticks[k] ==> id in t.processing && exists a :: Live(t.acts, a) && t.acts[a].sid == id
  {
    var s1 := s.(ticks := s.ticks[..k] + s.ticks[k + 1..]);
    var t := StartAll(s1, s.ticks[k]);
    StartAllKeepsBase(s1, s.ticks[k]);
    forall id | id in s.ticks[k] ensures id in t.processing && exists a :: Live(t.acts, a) && t.acts[a].sid == id {
      assert id in t.processing;
    }
  }

  // ---------------------------------------------------------------------------------------------
  // A settled schedule that nobody works on stays silent
  // ---------------------------------------------------------------------------------------------

  /** The schedule is completed, failed, cancelled or gone, and no activation is sending for it or about to. */
  ghost predicate AtRest(s: State, id: Id) {
    id < s.nextId && Settled(s.db, id) && Restful(s.acts, id)
  }

  ghost predicate Inert(act: Act) {
    !AboutToPass(act) && (act.snap.Some? ==> Over(act))
  }

  ghost predicate Restful(acts: map<nat, Act>, id: Id) {
    forall a :: a in acts && acts[a].sid == id ==> Inert(acts[a])
  }

  ghost predicate Rests(s: State, t: State, id: Id) {
    AtRest(t, id) && Sent(t.sends, id) == Sent(s.sends, id)
  }

  lemma {:induction false} StartAllRests(s: State, ids: seq<Id>, id: Id)
    requires AtRest(s, id)
    ensures Rests(s, StartAll(s, ids), id)
    decreases |ids|
  {
    if ids != [] { StartAllRests(Start(s, ids[0]), ids[1..], id); }
  }

  lemma {:induction false} CreateJobsRests(s: State, jobs: seq<Job>, id: Id)
    requires AtRest(s, id)
    ensures Rests(s, CreateJobs(s, jobs), id)
    decreases |jobs|
  {
    if jobs != [] { CreateJobsRests(CreateJob(s, jobs[0]), jobs[1..], id); }
  }

  lemma NextRests(act: Act, db: map<Id, Doc>, now: int, io: Io)
    requires ActOk(act) && Settled(db, act.sid) && Inert(act)
    ensures var next := NextAct(act, Find(db, act.sid), now, io);
      Inert(next) && next.attempts == act.attempts && Settled(DbAfter(db, act, io), act.sid)
  {
  }

  /** What an activation does leaves other schedules alone. */
  lemma OthersRest(s: State, a: nat, io: Io, id: Id)
    requires Live(s.acts, a) && s.acts[a].sid != id
      && NextAct(s.acts[a], Find(s.db, s.acts[a].sid), s.now, io).sid != id
    requires AtRest(s, id)
    ensures Rests(s, Advance(s, a, io), id)
  {
  }

  lemma AdvanceRests(s: State, a: nat, io: Io, id: Id)
    requires Base(s) && Live(s.acts, a) && AtRest(s, id)
    ensures Rests(s, Advance(s, a, io), id)
  {
    var act := s.acts[a];
    assert ActOk(act);
    NextPasses(act, s.db, s.now, io);
    if act.sid == id {
      NextRests(act, s.db, s.now, io);
    } else {
      OthersRest(s, a, io, id);
    }
  }

  lemma DbMoveRests(db: map<Id, Doc>, n: Id, db': map<Id, Doc>, n': Id, id: Id)
    requires DbMove(db, n, db', n') && id < n && Settled(db, id)
    ensures id < n' && Settled(db', id)
  {
  }

  lemma CreateJobRests(s: State, job: Job, id: Id)
    requires AtRest(s, id)
    ensures Rests(s, CreateJob(s, job), id)
  {
  }

  lemma ContinueRests(s: State, c: nat, io: Io, id: Id)
    requires Calm(s) && c in s.calls && AtRest(s, id)
    ensures Rests(s, Continue(s, c, io), id)
  {
    var call, t := s.calls[c], Settle(s, c, io);
    assert CallOk(call);
    CallMoves(call, s.db, s.nextId, io);
    DbMoveRests(s.db, s.nextId, t.db, t.nextId, id);
    if call.Created? || call.UpdateWritten? {
      CreateJobRests(t, Job(call.id, call.due), id);
    }
  }

  lemma StepRests(s: State, e: Event, id: Id)
    requires Calm(s) && Possible(s, e) && AtRest(s, id)
    ensures Rests(s, Step(s, e), id)
  {
    match e
    case CallStep(c, io) => ContinueRests(s, c, io, id);
    case CronRun(k) => StartAllRests(s.(ticks := s.ticks[..k] + s.ticks[k + 1..]), s.ticks[k], id);
    case InitRun => CreateJobsRests(s.(init := Resetting), s.init.jobs, id);
    case ActStep(a, io) => AdvanceRests(s, a, io, id);
    case TimerFire(t) => StartAllRests(s.(timers := s.timers - {t}), [s.timers[t].id], id);
    case InitReset(io) => assert Settled(ResetDb(s.db), id);
    case _ =>
  }

  /** Unless an update carries a status, nothing is sent any more for a schedule at rest, and it is never revived. */
  lemma {:induction false} StaysAtRest(env: Env, s: State, es: seq<Event>, id: Id)
    requires !env.statusUpdates && Calm(s) && Valid(env, s, es) && AtRest(s, id)
    ensures Rests(s, Run(s, es), id)
    decreases |es|
  {
    if es != [] {
      StepKeepsCalm(env, s, es[0]);
      StepRests(s, es[0], id);
      StaysAtRest(env, Step(s, es[0]), es[1..], id);
    }
  }

  /** In particular a cancellation that takes effect while no activation holds the schedule silences it for good. */
  lemma IdleCancelSilences(env: Env, db: map<Id, Doc>, n: Id, now: int, before: seq<Event>, c: nat, after: seq<Event>)
    requires !env.statusUpdates && Fresh(db, n) && Valid(env, Boot(db, n, now), before)
    requires var s := Run(Boot(db, n, now), before);
      && c in s.calls && s.calls[c].CancelWriting? && s.calls[c].id in s.db && s.calls[c].id !in s.processing
      && Enabled(env, s, CallStep(c, Ok)) && Valid(env, Step(s, CallStep(c, Ok)), after)
    ensures var s := Run(Boot(db, n, now), before); var id := s.calls[c].id;
      var t := Run(Step(s, CallStep(c, Ok)), after);
      Sent(t.sends, id) == Sent(s.sends, id) && Settled(t.db, id)
  {
    RunKeepsCalm(env, Boot(db, n, now), before);
    var s := Run(Boot(db, n, now), before);
    var id, t := s.calls[c].id, Continue(s, c, Ok);
    StepKeepsCalm(env, s, CallStep(c, Ok));
    assert t.acts == s.acts && t.sends == s.sends && t.db[id].status == Cancelled;
    assert forall a :: a in s.acts && s.acts[a].sid == id ==> !Live(s.acts, a);
    StaysAtRest(env, t, after, id);
  }

  // ---------------------------------------------------------------------------------------------
  // At most once, and exactly when
  // ---------------------------------------------------------------------------------------------

  /** A passed activation finds the account missing, and its FAILED write is issued. */
  lemma PasserTrips(env: Env, s0: State, s: State, marked: Io) returns (t: State)
    requires Reach(env, s0, s) && s.calls == map[] && s.db == map[0 := SLOT] && 0 in s.acts && s.acts[0] == PASSER
    ensures Reach(env, s0, t)
    ensures t == s.(acts := s.acts[0 := PASSER.(phase := Rescuing, tripped := true)],
                    db := if marked.Lost? then s.db else map[0 := SLOT.(status := Processing)])
  {
    var s1 := ReachAct(env, s0, s, 0, marked);
    if marked.Ok? {
      assert s1 == s.(acts := s.acts[0 := PASSER.(phase := Locating)], db := map[0 := SLOT.(status := Processing)]);
      t := ReachAct(env, s0, s1, 0, Lost);
      assert t.acts == s.acts[0 := PASSER.(phase := Rescuing, tripped := true)];
    } else {
      t := s1;
    }
  }

  /** The catch block's write and the finally block. */
  lemma RescuerLeaves(env: Env, s0: State, s: State, io: Io) returns (t: State)
    requires Reach(env, s0, s) && s.calls == map[] && s.processing == {0} && s.db.Keys == {0}
    requires 0 in s.acts && s.acts[0].phase.Rescuing? && s.acts[0].sid == 0 && (io.Lost? ==> env.rescueFails)
    ensures Reach(env, s0, t) && 0 in t.acts
    ensures t == s.(processing := {}, acts := s.acts[0 := t.acts[0]],
                    db := if io.Lost? then s.db else map[0 := s.db[0].(status := Failed)])
    ensures t.acts[0].phase.Done? && t.acts[0].snap == s.acts[0].snap && t.acts[0].sid == 0
    ensures t.acts[0].tripped == s.acts[0].tripped && (io.Lost? ==> t.acts[0].wrote == s.acts[0].wrote)
  {
    var s1 := ReachAct(env, s0, s, 0, io);
    var act := s1.acts[0];
    assert s1 == s.(acts := s.acts[0 := act], db := if io.Lost? then s.db else map[0 := s.db[0].(status := Failed)]);
    t := ReachAct(env, s0, s1, 0, Ok);
    assert t.acts == s.acts[0 := act.(phase := Done)];
  }

  /** PROCESSING and FAILED writes both throw; the schedule stays PENDING and the next tick runs it again. */
  lemma LostRescueRepeats(env: Env)
    requires env.rescueFails
    ensures !Always(env, s => AtMostOnce(s))
  {
    var s0 := Boot(map[0 := SLOT], 1, 5);
    ReachSelf(env, s0);
    var s1 := CronStarts(env, s0, s0);
    var s2 := ReaderPasses(env, s0, s1, 0);
    var s3 := PasserTrips(env, s0, s2, Lost);
    var s4 := RescuerLeaves(env, s0, s3, Lost);
    var s5 := CronStarts(env, s0, s4);
    var s6 := ReaderPasses(env, s0, s5, 1);
    assert Passed(s6.acts, 0) && Passed(s6.acts, 1);
  }

  function StatusOnly(status: Status): Dto {
    Dto(None, None, Some(status))
  }

  /** An update that carries a status sets it. */
  lemma Overwrites(env: Env, s0: State, s: State, status: Status) returns (t: State)
    requires env.statusUpdates && Reach(env, s0, s) && s.calls == map[] && !BeforeTimers(s.init)
    requires s.db.Keys == {0} && s.db[0].status in {Pending, Failed}
    ensures Reach(env, s0, t) && t == s.(db := map[0 := s.db[0].(status := status)], nextCall := s.nextCall + 1)
  {
    var c, dto := s.nextCall, StatusOnly(status);
    var s1 := UpdateBegins(env, s0, s, dto);
    t := UpdateLands(env, s0, s1, c, dto);
    assert t.calls == map[];
  }

  /** Start-up runs overdue schedule 0 into FAILED and then ends. */
  lemma InitRunsIntoFailure(env: Env, s0: State) returns (t: State)
    requires s0 == Boot(map[0 := SLOT], 1, 5)
    ensures Reach(env, s0, t) && t.calls == map[] && t.ticks == [] && t.init.Ready? && t.now == 5
    ensures t.db == map[0 := SLOT.(status := Failed)] && t.nextId == 1 && t.processing == {} && t.nextAct == 1
    ensures t.acts.Keys == {0} && t.acts[0].phase.Done? && t.acts[0].snap.Some? && t.acts[0].sid == 0
  {
    var s1 := InitStarts(env, s0);
    var s2 := ReaderPasses(env, s0, s1, 0);
    var s3 := PasserTrips(env, s0, s2, Lost);
    var s4 := RescuerLeaves(env, s0, s3, Ok);
    t := InitEnds(env, s0, s4);
    assert t.db == s4.db;
  }

  lemma InitEnds(env: Env, s0: State, s: State) returns (t: State)
    requires Reach(env, s0, s) && s.calls == map[] && s.init.Resetting?
    ensures Reach(env, s0, t) && t == s.(init := Ready, db := ResetDb(s.db))
  {
    ReachStep(env, s0, s, InitReset(Ok));
    t := Step(s, InitReset(Ok));
  }

  lemma StatusUpdateRepeats(env: Env)
    requires env.statusUpdates
    ensures !Always(env, s => AtMostOnce(s))
  {
    var s0 := Boot(map[0 := SLOT], 1, 5);
    var s1 := InitRunsIntoFailure(env, s0);
    var s2 := Overwrites(env, s0, s1, Pending);
    assert s2.db == map[0 := SLOT];
    var s3 := CronStarts(env, s0, s2);
    var s4 := ReaderPasses(env, s0, s3, 1);
    assert Passed(s4.acts, 0) && Passed(s4.acts, 1);
  }

  /**
   Over all interleavings of timers, ticks, start-up recovery and HTTP calls, a schedule passes the
   PENDING check at most once per process lifetime, exactly in the environments where no update
   carries a status and the catch block's own write is never lost.
   */
  lemma AtMostOnceIff(env: Env)
    ensures Always(env, s => AtMostOnce(s)) <==> !env.statusUpdates && !env.rescueFails
  {
    if env.statusUpdates {
      StatusUpdateRepeats(env);
    } else if env.rescueFails {
      LostRescueRepeats(env);
    } else {
      forall db, n, now, es | Fresh(db, n) && Valid(env, Boot(db, n, now), es)
        ensures AtMostOnce(Run(Boot(db, n, now), es)) {
        BootIsSafe(db, n, now);
        RunKeepsSafe(env, Boot(db, n, now), es);
      }
    }
  }

  // ---------------------------------------------------------------------------------------------
  // No schedule stuck in PROCESSING, and exactly when
  // ---------------------------------------------------------------------------------------------

  /** Once start-up recovery has finished, a PROCESSING schedule is held by a live activation that passed. */
  ghost predicate NotStuck(s: State) {
    s.init.Ready? ==>
      forall id :: id in s.db && s.db[id].status == Processing ==>
        id in s.processing && exists a :: Live(s.acts, a) && Passed(s.acts, a) && s.acts[a].sid == id
  }

  /** The catch block's write throws after the PROCESSING write took effect. */
  lemma LostRescueSticks(env: Env)
    requires env.rescueFails
    ensures !Always(env, s => NotStuck(s))
  {
    var s0 := Boot(map[0 := SLOT], 1, 5);
    var s1 := InitStarts(env, s0);
    var s2 := InitEnds(env, s0, s1);
    assert s2.db == map[0 := SLOT];
    var s3 := ReaderPasses(env, s0, s2, 0);
    var s4 := PasserTrips(env, s0, s3, Ok);
    var s5 := RescuerLeaves(env, s0, s4, Lost);
    assert s5.init.Ready? && s5.db[0].status == Processing && 0 !in s5.processing;
  }

  /** An update sets PROCESSING on a schedule that nobody works on. */
  lemma StatusUpdateSticks(env: Env)
    requires env.statusUpdates
    ensures !Always(env, s => NotStuck(s))
  {
    var s0 := Boot(map[0 := SLOT], 1, 5);
    var s1 := InitRunsIntoFailure(env, s0);
    var s2 := Overwrites(env, s0, s1, Processing);
    assert s2.init.Ready? && s2.db[0].status == Processing && 0 !in s2.processing;
  }

  lemma NoScheduleIsStuckIff(env: Env)
    ensures Always(env, s => NotStuck(s)) <==> !env.statusUpdates && !env.rescueFails
  {
    if env.statusUpdates {
      StatusUpdateSticks(env);
    } else if env.rescueFails {
      LostRescueSticks(env);
    } else {
      forall db, n, now, es | Fresh(db, n) && Valid(env, Boot(db, n, now), es)
        ensures NotStuck(Run(Boot(db, n, now), es)) {
        BootIsSafe(db, n, now);
        RunKeepsSafe(env, Boot(db, n, now), es);
      }
    }
  }

  // ---------------------------------------------------------------------------------------------
  // The verdict of a finished activation, and exactly when it is recorded
  // ---------------------------------------------------------------------------------------------

  lemma LostRescueLeavesNoVerdict(env: Env)
    requires env.rescueFails
    ensures !Always(env, (s: State) => Recorded(s.acts))
  {
    var s0 := Boot(map[0 := SLOT], 1, 5);
    ReachSelf(env, s0);
    var s1 := CronStarts(env, s0, s0);
    var s2 := ReaderPasses(env, s0, s1, 0);
    var s3 := PasserTrips(env, s0, s2, Lost);
    var s4 := RescuerLeaves(env, s0, s3, Lost);
    assert Passed(s4.acts, 0) && s4.acts[0].wrote == None;
  }

  /**
   Every finished activation that passed recorded FAILED if a send or an awaited call threw, and
   COMPLETED otherwise, over all runs, exactly when the catch block's own write is never lost.
   */
  lemma FinishedVerdictIff(env: Env)
    ensures Always(env, (s: State) => Recorded(s.acts)) <==> !env.rescueFails
  {
    if env.rescueFails {
      LostRescueLeavesNoVerdict(env);
    } else {
      forall db, n, now, es | Fresh(db, n) && Valid(env, Boot(db, n, now), es)
        ensures Recorded(Run(Boot(db, n, now), es).acts) {
        RunKeepsRecorded(env, Boot(db, n, now), es);
      }
    }
  }

  // ---------------------------------------------------------------------------------------------
  // Rest, and exactly when it is final
  // ---------------------------------------------------------------------------------------------

  /** In all runs, a schedule that is at rest stays so, and nothing is sent for it any more. */
  ghost predicate RestIsFinal(env: Env) {
    forall db, n, now, before, after, id ::
      Fresh(db, n) && Valid(env, Boot(db, n, now), before) && AtRest(Run(Boot(db, n, now), before), id)
      && Valid(env, Run(Boot(db, n, now), before), after)
      ==> Rests(Run(Boot(db, n, now), before), Run(Run(Boot(db, n, now), before), after), id)
  }

  lemma StatusUpdateWakes(env: Env)
    requires env.statusUpdates
    ensures !RestIsFinal(env)
  {
    var db := map[0 := SLOT];
    var s0 := Boot(db, 1, 5);
    var s1 := InitRunsIntoFailure(env, s0);
    ReachSelf(env, s1);
    var s2 := Overwrites(env, s1, s1, Pending);
    var before :| Valid(env, s0, before) && Run(s0, before) == s1;
    var after :| Valid(env, s1, after) && Run(s1, after) == s2;
    assert AtRest(s1, 0) && !Settled(s2.db, 0);
    assert !Rests(Run(Boot(db, 1, 5), before), Run(Run(Boot(db, 1, 5), before), after), 0);
  }

  /**
   A completed, failed, cancelled or deleted schedule that nobody works on stays silent exactly if no update
   carries a status.
   */
  lemma RestIsFinalIff(env: Env)
    ensures RestIsFinal(env) <==> !env.statusUpdates
  {
    if env.statusUpdates {
      StatusUpdateWakes(env);
    } else {
      forall db, n, now, before, after, id |
        Fresh(db, n) && Valid(env, Boot(db, n, now), before) && AtRest(Run(Boot(db, n, now), before), id)
        && Valid(env, Run(Boot(db, n, now), before), after)
        ensures Rests(Run(Boot(db, n, now), before), Run(Run(Boot(db, n, now), before), after), id) {
        RunKeepsCalm(env, Boot(db, n, now), before);
        StaysAtRest(env, Run(Boot(db, n, now), before), after, id);
      }
    }
  }

  // ---------------------------------------------------------------------------------------------
  // What is sent for a schedule, and exactly when it is sent once
  // ---------------------------------------------------------------------------------------------

  /** All that was ever sent for a schedule is a prefix, in order, of the recipients in one snapshot that passed. */
  ghost predicate SentOnce(s: State) {
    forall id :: Sent(s.sends, id) != [] ==>
      exists a :: Passed(s.acts, a) && s.acts[a].sid == id && Sent(s.sends, id) <= s.acts[a].snap.value.recipients
  }

  lemma SafeSendsOnce(s: State)
    requires Safe(s)
    ensures SentOnce(s)
  {
    forall id | Sent(s.sends, id) != []
      ensures exists a :: (
        Passed(s.acts, a) && s.acts[a].sid == id && Sent(s.sends, id) <= s.acts[a].snap.value.recipients) {
      var a :| Passed(s.acts, a) && s.acts[a].sid == id;
      assert ActOk(s.acts[a]);
    }
  }

  const SENDER: Act := PASSER.(phase := Sending(0), attempts := ["x"])
  const BUSY: Doc := SLOT.(status := Processing)

  /** A passed activation marks the schedule, finds the account, and issues its send. */
  lemma PasserSends(env: Env, s0: State, s: State, a: nat) returns (t: State)
    requires Reach(env, s0, s) && s.calls == map[] && s.db == map[0 := SLOT] && a in s.acts && s.acts[a] == PASSER
    ensures Reach(env, s0, t)
    ensures t == s.(acts := s.acts[a := SENDER], db := map[0 := BUSY], sends := s.sends[0 := Sent(s.sends, 0) + ["x"]])
  {
    var s1 := ReachAct(env, s0, s, a, Ok);
    assert s1 == s.(acts := s.acts[a := PASSER.(phase := Locating)], db := map[0 := BUSY]);
    t := ReachAct(env, s0, s1, a, Ok);
    assert SENDER.attempts[0..] == ["x"];
    assert t.acts == s.acts[a := SENDER];
  }

  /** The send of activation 0 returns or throws. */
  lemma SenderReturns(env: Env, s0: State, s: State, io: Io) returns (t: State)
    requires Reach(env, s0, s) && s.calls == map[] && 0 in s.acts && s.acts[0] == SENDER
    ensures Reach(env, s0, t)
    ensures t == s.(acts := s.acts[0 := SENDER.(phase := Closing, threw := !io.Ok?)])
  {
    t := ReachAct(env, s0, s, 0, io);
  }

  /** The final write fails without effect, and so does that of the catch block: the schedule stays PROCESSING. */
  lemma CloserLoses(env: Env, s0: State, s: State) returns (t: State)
    requires env.rescueFails && Reach(env, s0, s) && s.calls == map[] && s.processing == {0} && s.db == map[0 := BUSY]
    requires 0 in s.acts && s.acts[0] == SENDER.(phase := Closing)
    ensures Reach(env, s0, t) && 0 in t.acts
    ensures t == s.(processing := {}, acts := s.acts[0 := t.acts[0]])
    ensures t.acts[0].sid == 0 && t.acts[0].snap == Some(SLOT)
  {
    var s1 := ReachAct(env, s0, s, 0, Lost);
    assert s1 == s.(acts := s.acts[0 := SENDER.(phase := Rescuing, tripped := true)]);
    t := RescuerLeaves(env, s0, s1, Lost);
  }

  /** The final write records FAILED. */
  lemma CloserFails(env: Env, s0: State, s: State) returns (t: State)
    requires Reach(env, s0, s) && s.calls == map[] && s.processing == {0} && s.db == map[0 := BUSY]
    requires 0 in s.acts && s.acts[0] == SENDER.(phase := Closing, threw := true)
    ensures Reach(env, s0, t) && 0 in t.acts
    ensures t == s.(processing := {}, acts := s.acts[0 := t.acts[0]], db := map[0 := SLOT.(status := Failed)])
    ensures t.acts[0].sid == 0 && t.acts[0].snap == Some(SLOT)
  {
    var s1 := ReachAct(env, s0, s, 0, Ok);
    var act := SENDER.(phase := Leaving, threw := true, wrote := Some(Failed));
    assert s1 == s.(acts := s.acts[0 := act], db := map[0 := SLOT.(status := Failed)]);
    t := ReachAct(env, s0, s1, 0, Ok);
    assert t.acts == s.acts[0 := act.(phase := Done)];
  }

  /** Start-up sends to x, and is not over yet. */
  lemma InitSends(env: Env, s0: State) returns (t: State)
    requires s0 == Boot(map[0 := SLOT], 1, 5)
    ensures Reach(env, s0, t)
    ensures t == s0.(init := Resetting, processing := {0}, nextAct := 1, acts := map[0 := SENDER], db := map[0 := BUSY],
                     sends := map[0 := ["x"]])
  {
    var s1 := InitStarts(env, s0);
    var s2 := ReaderPasses(env, s0, s1, 0);
    t := PasserSends(env, s0, s2, 0);
    assert Sent(s2.sends, 0) + ["x"] == ["x"];
    assert t.acts == map[0 := SENDER];
  }

  /** A schedule that is PENDING again is sent again by the next tick. */
  lemma SendsAgain(env: Env, s: State)
    requires Reach(env, Boot(map[0 := SLOT], 1, 5), s) && s.calls == map[] && s.ticks == [] && s.processing == {}
    requires s.db == map[0 := SLOT] && s.now == 5 && s.nextAct == 1 && s.acts.Keys == {0} && s.sends == map[0 := ["x"]]
    requires s.acts[0].sid == 0 && s.acts[0].snap == Some(SLOT)
    ensures !Always(env, s => SentOnce(s))
  {
    var s0 := Boot(map[0 := SLOT], 1, 5);
    var s1 := CronStarts(env, s0, s);
    var s2 := ReaderPasses(env, s0, s1, 1);
    var s3 := PasserSends(env, s0, s2, 1);
    assert Sent(s3.sends, 0) == ["x", "x"];
    assert forall a :: Passed(s3.acts, a) ==> |s3.acts[a].snap.value.recipients| == 1;
  }

  /** The final write and that of the catch block are lost; the reset of start-up then makes the schedule PENDING. */
  lemma LostRescueSendsTwice(env: Env)
    requires env.rescueFails
    ensures !Always(env, s => SentOnce(s))
  {
    var s0 := Boot(map[0 := SLOT], 1, 5);
    var s1 := InitSends(env, s0);
    var s2 := SenderReturns(env, s0, s1, Ok);
    var s3 := CloserLoses(env, s0, s2);
    var s4 := InitEnds(env, s0, s3);
    assert s4.db == map[0 := SLOT];
    SendsAgain(env, s4);
  }

  /** The send throws, and an update makes the FAILED schedule PENDING. */
  lemma StatusUpdateSendsTwice(env: Env)
    requires env.statusUpdates
    ensures !Always(env, s => SentOnce(s))
  {
    var s0 := Boot(map[0 := SLOT], 1, 5);
    var s1 := InitSends(env, s0);
    var s2 := SenderReturns(env, s0, s1, Lost);
    var s3 := CloserFails(env, s0, s2);
    var s4 := Overwrites(env, s0, s3, Pending);
    assert s4.db == map[0 := SLOT];
    SendsAgain(env, s4);
  }

  lemma SentOnceIff(env: Env)
    ensures Always(env, s => SentOnce(s)) <==> !env.statusUpdates && !env.rescueFails
  {
    if env.statusUpdates {
      StatusUpdateSendsTwice(env);
    } else if env.rescueFails {
      LostRescueSendsTwice(env);
    } else {
      forall db, n, now, es | Fresh(db, n) && Valid(env, Boot(db, n, now), es)
        ensures SentOnce(Run(Boot(db, n, now), es)) {
        BootIsSafe(db, n, now);
        RunKeepsSafe(env, Boot(db, n, now), es);
        SafeSendsOnce(Run(Boot(db, n, now), es));
      }
    }
  }
}
