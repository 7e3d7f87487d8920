/**
 Invariants of the scheduling step system: mutual exclusion, ordered sends, at most one pass of the
 PENDING check per schedule, and no schedule left PROCESSING without an activation.
 */
module SchedulerSafety {
  import opened Common
  import opened Scheduler

  // ---------------------------------------------------------------------------------------------
  // Any environment: one live activation per schedule, sends in order
  // ---------------------------------------------------------------------------------------------

  /** What one activation has done is a prefix of its snapshot's recipients, as far as its phase says. */
  ghost predicate ActOk(act: Act) {
    var rs := Recipients(act);
    && (act.snap.Some? ==> act.snap.value.status == Pending)
    && act.attempts <= rs
    && (act.threw ==> act.attempts != [] && act.phase in {Closing, Rescuing, Leaving, Done})
    && (act.tripped ==> act.phase in {Rescuing, Leaving, Done})
    && (act.wrote.Some? ==> act.phase in {Rescuing, Leaving, Done} && act.wrote.value in {Completed, Failed})
    && (act.wrote == Some(Completed) ==> act.snap.Some? && act.attempts == rs && !act.threw)
    && (act.wrote == Some(Failed) ==> act.threw || act.tripped)
    && match act.phase
       case Reading => act.snap.None?
       case Checking(_) => act.snap.None?
       case Marking => act.snap.Some? && act.attempts == []
       case Locating => act.snap.Some? && act.attempts == []
       case Sending(i) => act.snap.Some? && i < |rs| && act.attempts == rs[..i + 1]
       case Waiting(i) => act.snap.Some? && i + 1 < |rs| && act.attempts == rs[..i + 1]
       case Closing => act.snap.Some? && (!act.threw ==> act.attempts == rs)
       case Rescuing => act.tripped
       case Leaving => true
       case Done => true
  }

  ghost predicate Exclusive(acts: map<nat, Act>, nextAct: nat, processing: set<Id>) {
    && (forall a :: a in acts ==> a < nextAct)
    && (forall a :: Live(acts, a) ==> acts[a].sid in processing)
    && (forall a, b :: Live(acts, a) && Live(acts, b) && acts[a].sid == acts[b].sid ==> a == b)
    && (forall id :: id in processing ==> exists a :: Live(acts, a) && acts[a].sid == id)
  }

  ghost predicate ActsOk(acts: map<nat, Act>) {
    forall a :: a in acts ==> ActOk(acts[a])
  }

  ghost predicate Base(s: State) {
    Exclusive(s.acts, s.nextAct, s.processing) && ActsOk(s.acts)
  }

  lemma AddLive(acts: map<nat, Act>, n: nat, p: set<Id>, act: Act)
    requires Exclusive(acts, n, p) && act.sid !in p && act.phase != Done
    ensures Exclusive(acts[n := act], n + 1, p + {act.sid})
  {
    var acts' := acts[n := act];
    assert forall a :: Live(acts', a) <==> Live(acts, a) || a == n;
    assert Live(acts', n);
    forall i | i in p ensures exists a :: Live(acts', a) && acts'[a].sid == i {
      var a :| Live(acts, a) && acts[a].sid == i;
      assert Live(acts', a);
    }
  }

  lemma KeepOwner(acts: map<nat, Act>, a: nat, act: Act, acts': map<nat, Act>, id: Id)
    requires Live(acts, a) && act.sid == acts[a].sid && acts' == acts[a := act]
    requires exists b :: Live(acts, b) && acts[b].sid == id
    requires act.phase.Done? ==> id != act.sid
    ensures exists b :: Live(acts', b) && acts'[b].sid == id
  {
    var b :| Live(acts, b) && acts[b].sid == id;
    assert Live(acts', b) && acts'[b].sid == id;
  }

  lemma ChangeLive(acts: map<nat, Act>, n: nat, p: set<Id>, a: nat, act: Act)
    requires Exclusive(acts, n, p) && Live(acts, a) && act.sid == acts[a].sid
    ensures Exclusive(acts[a := act], n, if act.phase.Done? then p - {act.sid} else p)
  {
    var acts' := acts[a := act];
    var p' := if act.phase.Done? then p - {act.sid} else p;
    forall b | Live(acts', b) ensures Live(acts, b) && acts'[b].sid == acts[b].sid {}
    forall i | i in p' ensures exists b :: Live(acts', b) && acts'[b].sid == i {
      KeepOwner(acts, a, act, acts', i);
    }
  }

  lemma StartKeepsBase(s: State, id: Id)
    requires Base(s)
    ensures Base(Start(s, id))
    ensures Start(s, id).processing == s.processing + {id}
  {
    if id !in s.processing { AddLive(s.acts, s.nextAct, s.processing, Begun(id)); }
  }

  lemma NextActOk(act: Act, found: Option<Doc>, now: int, io: Io)
    requires ActOk(act)
    ensures ActOk(NextAct(act, found, now, io))
  {
    var rs := Recipients(act);
    match act.phase
    case Sending(i) => assert i + 1 == |rs| ==> rs[..i + 1] == rs;
    case Waiting(i) => assert rs[..i + 1] + [rs[i + 1]] == rs[..i + 2];
    case _ =>
  }

  lemma AdvanceKeepsBase(s: State, a: nat, io: Io)
    requires Base(s) && Live(s.acts, a)
    ensures Base(Advance(s, a, io))
  {
    var act := s.acts[a];
    var next := NextAct(act, Find(s.db, act.sid), s.now, io);
    NextActOk(act, Find(s.db, act.sid), s.now, io);
    ChangeLive(s.acts, s.nextAct, s.processing, a, next);
  }

  lemma {:induction false} StartAllKeepsBase(s: State, ids: seq<Id>)
    requires Base(s)
    ensures Base(StartAll(s, ids))
    ensures StartAll(s, ids).processing == s.processing + set id | id in ids
    decreases |ids|
  {
    if ids != [] {
      StartKeepsBase(s, ids[0]);
      StartAllKeepsBase(Start(s, ids[0]), ids[1..]);
      assert forall id :: id in ids <==> id == ids[0] || id in ids[1..];
    }
  }

  lemma CreateJobKeepsBase(s: State, job: Job)
    requires Base(s)
    ensures Base(CreateJob(s, job))
  {
    if job.due <= s.now { StartKeepsBase(s, job.id); }
  }

  lemma {:induction false} CreateJobsKeepsBase(s: State, jobs: seq<Job>)
    requires Base(s)
    ensures Base(CreateJobs(s, jobs))
    decreases |jobs|
  {
    if jobs != [] {
      CreateJobKeepsBase(s, jobs[0]);
      CreateJobsKeepsBase(CreateJob(s, jobs[0]), jobs[1..]);
    }
  }

  lemma ContinueKeepsBase(s: State, c: nat, io: Io)
    requires Base(s) && c in s.calls
    ensures Base(Continue(s, c, io))
  {
    var call := s.calls[c];
    if call.Created? || call.UpdateWritten? {
      CreateJobKeepsBase(Settle(s, c, io), Job(call.id, call.due));
    }
  }

  lemma StepKeepsBase(s: State, e: Event)
    requires Base(s) && Possible(s, e)
    ensures Base(Step(s, e))
  {
    match e
    case CallStep(c, io) => ContinueKeepsBase(s, c, io);
    case CronRun(k) => StartAllKeepsBase(s.(ticks := s.ticks[..k] + s.ticks[k + 1..]), s.ticks[k]);
    case InitRun => CreateJobsKeepsBase(s.(init := Resetting), s.init.jobs);
    case TimerFire(t) => StartKeepsBase(s.(timers := s.timers - {t}), s.timers[t].id);
    case ActStep(a, io) => AdvanceKeepsBase(s, a, io);
    case _ =>
  }

  lemma {:induction false} RunKeepsBase(env: Env, s: State, es: seq<Event>)
    requires Base(s) && Valid(env, s, es)
    ensures Base(Run(s, es))
    decreases |es|
  {
    if es != [] {
      StepKeepsBase(s, es[0]);
      RunKeepsBase(env, Step(s, es[0]), es[1..]);
    }
  }

  // ---------------------------------------------------------------------------------------------
  // The catch block's write is never lost: every finished activation recorded its verdict
  // ---------------------------------------------------------------------------------------------

  ghost predicate Over(act: Act) {
    act.phase in {Leaving, Done}
  }

  /** What a finished activation recorded. */
  function Verdict(act: Act): Status {
    if act.threw || act.tripped then Failed else Completed
  }

  ghost predicate Recorded(acts: map<nat, Act>) {
    forall a :: Passed(acts, a) && Over(acts[a]) ==> acts[a].wrote == Some(Verdict(acts[a]))
  }

  lemma NextRecords(act: Act, found: Option<Doc>, now: int, io: Io)
    requires ActOk(act) && (act.phase.Rescuing? ==> !io.Lost?)
    requires act.snap.Some? && Over(act) ==> act.wrote == Some(Verdict(act))
    ensures var next := NextAct(act, found, now, io);
      next.snap.Some? && Over(next) ==> next.wrote == Some(Verdict(next))
  {
  }

  lemma AdvanceKeepsRecorded(s: State, a: nat, io: Io)
    requires Base(s) && Recorded(s.acts) && a in s.acts && (s.acts[a].phase.Rescuing? ==> !io.Lost?)
    ensures Recorded(Advance(s, a, io).acts)
  {
    assert ActOk(s.acts[a]);
    NextRecords(s.acts[a], Find(s.db, s.acts[a].sid), s.now, io);
    assert s.acts[a].snap.Some? ==> Passed(s.acts, a);
  }

  lemma {:induction false} StartAllKeepsRecorded(s: State, ids: seq<Id>)
    requires Recorded(s.acts)
    ensures Recorded(StartAll(s, ids).acts)
    decreases |ids|
  {
    if ids != [] { StartAllKeepsRecorded(Start(s, ids[0]), ids[1..]); }
  }

  lemma {:induction false} CreateJobsKeepsRecorded(s: State, jobs: seq<Job>)
    requires Recorded(s.acts)
    ensures Recorded(CreateJobs(s, jobs).acts)
    decreases |jobs|
  {
    if jobs != [] { CreateJobsKeepsRecorded(CreateJob(s, jobs[0]), jobs[1..]); }
  }

  lemma ContinueKeepsRecorded(s: State, c: nat, io: Io)
    requires Recorded(s.acts) && c in s.calls
    ensures Recorded(Continue(s, c, io).acts)
  {
    assert Settle(s, c, io).acts == s.acts;
  }

  lemma StepKeepsRecorded(env: Env, s: State, e: Event)
    requires !env.rescueFails && Base(s) && Recorded(s.acts) && Enabled(env, s, e)
    ensures Recorded(Step(s, e).acts)
  {
    match e
    case CallStep(c, io) => ContinueKeepsRecorded(s, c, io);
    case CronRun(k) => StartAllKeepsRecorded(s.(ticks := s.ticks[..k] + s.ticks[k + 1..]), s.ticks[k]);
    case InitRun => CreateJobsKeepsRecorded(s.(init := Resetting), s.init.jobs);
    case TimerFire(t) => StartAllKeepsRecorded(s.(timers := s.timers - {t}), [s.timers[t].id]);
    case ActStep(a, io) => AdvanceKeepsRecorded(s, a, io);
    case _ =>
  }

  lemma {:induction false} RunKeepsRecorded(env: Env, s: State, es: seq<Event>)
    requires !env.rescueFails && Base(s) && Recorded(s.acts) && Valid(env, s, es)
    ensures Recorded(Run(s, es).acts)
    decreases |es|
  {
    if es != [] {
      StepKeepsBase(s, es[0]);
      StepKeepsRecorded(env, s, es[0]);
      RunKeepsRecorded(env, Step(s, es[0]), es[1..]);
    }
  }

  // ---------------------------------------------------------------------------------------------
  // No update carries a status: no call revives a settled schedule
  // ---------------------------------------------------------------------------------------------

  ghost predicate CallOk(call: Call) {
    match call
    case Creating(doc) => doc.status == Pending
    case UpdateGot(_, dto, _) => dto.status.None?
    case UpdateWriting(_, dto) => dto.status.None?
    case _ => true
  }

  ghost predicate CallsOk(calls: map<nat, Call>) {
    forall c :: c in calls ==> CallOk(calls[c])
  }

  ghost predicate Calm(s: State) {
    Base(s) && Fresh(s.db, s.nextId) && CallsOk(s.calls)
  }

  lemma SettleKeepsCalm(s: State, c: nat, io: Io)
    requires Calm(s) && c in s.calls
    ensures var t := Settle(s, c, io); Fresh(t.db, t.nextId) && CallsOk(t.calls)
  {
    assert CallOk(s.calls[c]);
  }

  lemma ContinueKeepsCalm(s: State, c: nat, io: Io)
    requires Calm(s) && c in s.calls
    ensures var t := Continue(s, c, io); Fresh(t.db, t.nextId) && CallsOk(t.calls)
  {
    var call, t := s.calls[c], Settle(s, c, io);
    SettleKeepsCalm(s, c, io);
    if call.Created? || call.UpdateWritten? { CreateJobKeeps(t, Job(call.id, call.due)); }
  }

  lemma StepKeepsCalm(env: Env, s: State, e: Event)
    requires !env.statusUpdates && Calm(s) && Enabled(env, s, e)
    ensures Calm(Step(s, e))
  {
    StepKeepsBase(s, e);
    match e
    case CallStep(c, io) => ContinueKeepsCalm(s, c, io);
    case CronRun(k) => StartAllKeeps(s.(ticks := s.ticks[..k] + s.ticks[k + 1..]), s.ticks[k]);
    case InitRun => CreateJobsKeeps(s.(init := Resetting), s.init.jobs);
    case _ =>
  }

  lemma {:induction false} RunKeepsCalm(env: Env, s: State, es: seq<Event>)
    requires !env.statusUpdates && Calm(s) && Valid(env, s, es)
    ensures Calm(Run(s, es))
    decreases |es|
  {
    if es != [] {
      StepKeepsCalm(env, s, es[0]);
      RunKeepsCalm(env, Step(s, es[0]), es[1..]);
    }
  }

  // ---------------------------------------------------------------------------------------------
  // Both: at most one pass per schedule
  // ---------------------------------------------------------------------------------------------

  ghost predicate Settled(db: map<Id, Doc>, id: Id) {
    id in db ==> db[id].status in {Completed, Failed, Cancelled}
  }

  ghost predicate AboutToPass(act: Act) {
    act.phase.Checking? && act.phase.found.Some? && act.phase.found.value.status == Pending
  }

  ghost predicate Once(acts: map<nat, Act>, db: map<Id, Doc>, n: Id) {
    && Fresh(db, n)
    && (forall a :: a in acts && (Passed(acts, a) || AboutToPass(acts[a])) ==> acts[a].sid < n)
    && (forall a, b :: Passed(acts, a) && b in acts && b != a && acts[a].sid == acts[b].sid
          ==> !Passed(acts, b) && !AboutToPass(acts[b]))
    && (forall a :: Passed(acts, a) && Over(acts[a])
          ==> Settled(db, acts[a].sid) && acts[a].wrote == Some(Verdict(acts[a])))
  }

  /** A PROCESSING schedule is being worked on. */
  ghost predicate StuckFree(acts: map<nat, Act>, db: map<Id, Doc>) {
    forall id :: id in db && db[id].status == Processing
      ==> exists a :: Live(acts, a) && Passed(acts, a) && acts[a].sid == id
  }

  /** Everything sent for a schedule was sent by the one activation that passed. */
  ghost predicate SendsOk(acts: map<nat, Act>, sends: map<Id, seq<string>>) {
    && (forall a :: Passed(acts, a) ==> Sent(sends, acts[a].sid) == acts[a].attempts)
    && (forall id :: Sent(sends, id) != [] ==> exists a :: Passed(acts, a) && acts[a].sid == id)
  }

  ghost predicate Safe(s: State) {
    && Base(s)
    && Once(s.acts, s.db, s.nextId)
    && (s.init.Ready? ==> StuckFree(s.acts, s.db))
    && SendsOk(s.acts, s.sends)
    && CallsOk(s.calls)
  }

  ghost predicate SafeEnv(env: Env) {
    !env.statusUpdates && !env.rescueFails
  }

  /** A change of the database that revives no settled schedule and puts none into PROCESSING. */
  ghost predicate DbMove(db: map<Id, Doc>, n: Id, db': map<Id, Doc>, n': Id) {
    && n <= n'
    && Fresh(db', n')
    && (forall id :: id in db' && id < n ==>
          && id in db
          && (Settled(db, id) ==> Settled(db', id))
          && (db'[id].status == Processing ==> db[id].status == Processing))
    && (forall id :: id in db' && id >= n ==> db'[id].status == Pending)
  }

  lemma DbMoveKeeps(acts: map<nat, Act>, db: map<Id, Doc>, n: Id, db': map<Id, Doc>, n': Id)
    requires Once(acts, db, n) && DbMove(db, n, db', n')
    ensures Once(acts, db', n')
    ensures StuckFree(acts, db) ==> StuckFree(acts, db')
  {
  }

  lemma CallMoves(call: Call, db: map<Id, Doc>, n: Id, io: Io)
    requires Fresh(db, n) && CallOk(call)
    ensures DbMove(db, n, DbCall(call, db, n, io), if call.Creating? && !io.Lost? then n + 1 else n)
  {
  }

  /** Adding activations, or changing one that has not passed, keeps what speaks of those that have. */
  lemma KeepPassers(acts: map<nat, Act>, acts': map<nat, Act>, db: map<Id, Doc>, sends: map<Id, seq<string>>)
    requires forall a :: Passed(acts', a) <==> Passed(acts, a)
    requires forall a :: Passed(acts, a) ==> a in acts' && acts'[a] == acts[a]
    ensures StuckFree(acts, db) ==> StuckFree(acts', db)
    ensures SendsOk(acts, sends) ==> SendsOk(acts', sends)
  {
    forall id | StuckFree(acts, db) && id in db && db[id].status == Processing
      ensures exists a :: Live(acts', a) && Passed(acts', a) && acts'[a].sid == id {
      var a :| Live(acts, a) && Passed(acts, a) && acts[a].sid == id;
      assert Live(acts', a);
    }
    forall id | SendsOk(acts, sends) && Sent(sends, id) != []
      ensures exists a :: Passed(acts', a) && acts'[a].sid == id {
      var a :| Passed(acts, a) && acts[a].sid == id;
      assert Passed(acts', a);
    }
  }

  lemma AddKeepsOnce(acts: map<nat, Act>, db: map<Id, Doc>, n: Id, a: nat, act: Act, acts': map<nat, Act>)
    requires Once(acts, db, n) && a !in acts && act.phase.Reading? && act.snap.None? && acts' == acts[a := act]
    ensures Once(acts', db, n)
    ensures forall b :: Passed(acts', b) <==> Passed(acts, b)
  {
  }

  lemma StartKeepsSafe(s: State, id: Id)
    requires Safe(s)
    ensures Safe(Start(s, id))
  {
    StartKeepsBase(s, id);
    if id !in s.processing {
      var t := Start(s, id);
      AddKeepsOnce(s.acts, s.db, s.nextId, s.nextAct, t.acts[s.nextAct], t.acts);
      KeepPassers(s.acts, t.acts, s.db, s.sends);
    }
  }

  /** Beside a live activation, any other one of its schedule is over, and if it passed the schedule is settled. */
  lemma NoRival(s: State, a: nat, b: nat)
    requires Base(s) && Once(s.acts, s.db, s.nextId) && Live(s.acts, a)
    requires b in s.acts && b != a && s.acts[b].sid == s.acts[a].sid
    ensures !Live(s.acts, b) && !AboutToPass(s.acts[b])
    ensures Passed(s.acts, b) ==> Settled(s.db, s.acts[a].sid) && s.acts[a].snap.None? && !AboutToPass(s.acts[a])
  {
  }

  lemma NextPasses(act: Act, db: map<Id, Doc>, now: int, io: Io)
    requires ActOk(act)
    ensures var next := NextAct(act, Find(db, act.sid), now, io);
      && next.sid == act.sid
      && (next.snap.Some? <==> act.snap.Some? || AboutToPass(act))
      && (AboutToPass(next) ==> act.snap.None? && act.sid in db && db[act.sid].status == Pending)
      && (act.snap.Some? ==> next.snap == act.snap)
  {
  }

  /** An activation that is over recorded its verdict, unless the catch block's write was lost. */
  lemma NextSettles(act: Act, db: map<Id, Doc>, now: int, io: Io)
    requires ActOk(act) && act.snap.Some? && (act.phase.Rescuing? ==> !io.Lost?)
    requires Over(act) ==> Settled(db, act.sid) && act.wrote == Some(Verdict(act))
    ensures var next := NextAct(act, Find(db, act.sid), now, io);
      Over(next) ==> Settled(DbAfter(db, act, io), act.sid) && next.wrote == Some(Verdict(next))
  {
  }

  /** An activation that has not passed only ever writes FAILED. */
  lemma UnpassedSettles(act: Act, db: map<Id, Doc>, io: Io)
    requires ActOk(act) && act.snap.None?
    ensures Settled(db, act.sid) ==> Settled(DbAfter(db, act, io), act.sid)
  {
  }

  lemma AdvanceKeepsRest(s: State, a: nat, io: Io, b: nat)
    requires Base(s) && Once(s.acts, s.db, s.nextId) && Live(s.acts, a)
    requires s.acts[a].phase.Rescuing? ==> !io.Lost?
    requires Passed(Advance(s, a, io).acts, b) && Over(Advance(s, a, io).acts[b])
    ensures var t := Advance(s, a, io);
      Settled(t.db, t.acts[b].sid) && t.acts[b].wrote == Some(Verdict(t.acts[b]))
  {
    var act := s.acts[a];
    assert ActOk(act);
    NextPasses(act, s.db, s.now, io);
    if b == a {
      if act.snap.Some? { NextSettles(act, s.db, s.now, io); }
    } else if s.acts[b].sid == act.sid {
      NoRival(s, a, b);
      UnpassedSettles(act, s.db, io);
    }
  }

  lemma AdvanceKeepsOnce(s: State, a: nat, io: Io)
    requires Base(s) && Once(s.acts, s.db, s.nextId) && Live(s.acts, a)
    requires s.acts[a].phase.Rescuing? ==> !io.Lost?
    ensures Once(Advance(s, a, io).acts, Advance(s, a, io).db, s.nextId)
  {
    var act, t := s.acts[a], Advance(s, a, io);
    assert ActOk(act);
    NextPasses(act, s.db, s.now, io);
    forall x, y | Passed(t.acts, x) && y in t.acts && x != y && t.acts[x].sid == t.acts[y].sid
      ensures !Passed(t.acts, y) && !AboutToPass(t.acts[y]) {
      if x == a { NoRival(s, a, y); }
      if y == a { NoRival(s, a, x); }
    }
    forall b | Passed(t.acts, b) && Over(t.acts[b])
      ensures Settled(t.db, t.acts[b].sid) && t.acts[b].wrote == Some(Verdict(t.acts[b])) {
      AdvanceKeepsRest(s, a, io, b);
    }
  }

  lemma AdvanceKeepsStuckFree(s: State, a: nat, io: Io)
    requires Base(s) && Once(s.acts, s.db, s.nextId) && Live(s.acts, a) && StuckFree(s.acts, s.db)
    ensures StuckFree(Advance(s, a, io).acts, Advance(s, a, io).db)
  {
    var act, t := s.acts[a], Advance(s, a, io);
    assert ActOk(act);
    forall id | id in t.db && t.db[id].status == Processing
      ensures exists b :: Live(t.acts, b) && Passed(t.acts, b) && t.acts[b].sid == id {
      if act.phase.Marking? && id == act.sid {
        assert Live(t.acts, a) && Passed(t.acts, a);
      } else {
        var b :| Live(s.acts, b) && Passed(s.acts, b) && s.acts[b].sid == id;
        assert Live(t.acts, b) && Passed(t.acts, b);
      }
    }
  }

  lemma NextExtends(act: Act, found: Option<Doc>, now: int, io: Io)
    requires ActOk(act)
    ensures var next := NextAct(act, found, now, io);
      && act.attempts <= next.attempts
      && (next.snap.None? ==> next.attempts == [])
      && act.attempts + next.attempts[|act.attempts|..] == next.attempts
      && (next.snap.Some? && act.snap.None? ==> next.attempts == [])
  {
  }

  lemma NothingSentYet(s: State, a: nat)
    requires Once(s.acts, s.db, s.nextId) && SendsOk(s.acts, s.sends)
    requires a in s.acts && AboutToPass(s.acts[a]) && s.acts[a].snap.None?
    ensures Sent(s.sends, s.acts[a].sid) == []
  {
  }

  /** The send log of a passed activation's schedule follows that activation. */
  lemma AdvanceKeepsLog(s: State, a: nat, io: Io, b: nat)
    requires Base(s) && Once(s.acts, s.db, s.nextId) && Live(s.acts, a) && SendsOk(s.acts, s.sends)
    requires Passed(Advance(s, a, io).acts, b)
    ensures var t := Advance(s, a, io); Sent(t.sends, t.acts[b].sid) == t.acts[b].attempts
  {
    var act := s.acts[a];
    assert ActOk(act);
    NextPasses(act, s.db, s.now, io);
    NextExtends(act, Find(s.db, act.sid), s.now, io);
    if b == a {
      if AboutToPass(act) { NothingSentYet(s, a); }
    } else if s.acts[b].sid == act.sid {
      NoRival(s, a, b);
    }
  }

  lemma AdvanceKeepsSends(s: State, a: nat, io: Io)
    requires Base(s) && Once(s.acts, s.db, s.nextId) && Live(s.acts, a) && SendsOk(s.acts, s.sends)
    ensures SendsOk(Advance(s, a, io).acts, Advance(s, a, io).sends)
  {
    var act, t := s.acts[a], Advance(s, a, io);
    assert ActOk(act);
    NextPasses(act, s.db, s.now, io);
    NextExtends(act, Find(s.db, act.sid), s.now, io);
    forall b | Passed(t.acts, b) ensures Sent(t.sends, t.acts[b].sid) == t.acts[b].attempts {
      AdvanceKeepsLog(s, a, io, b);
    }
    forall i | Sent(t.sends, i) != [] ensures exists b :: Passed(t.acts, b) && t.acts[b].sid == i {
      if Sent(s.sends, i) != [] {
        var b :| Passed(s.acts, b) && s.acts[b].sid == i;
        assert Passed(t.acts, b) && t.acts[b].sid == i;
      } else {
        assert Passed(t.acts, a);
      }
    }
  }

  lemma AdvanceKeepsSafe(s: State, a: nat, io: Io)
    requires Safe(s) && Live(s.acts, a)
    requires s.acts[a].phase.Rescuing? ==> !io.Lost?
    ensures Safe(Advance(s, a, io))
  {
    AdvanceKeepsBase(s, a, io);
    AdvanceKeepsOnce(s, a, io);
    if s.init.Ready? { AdvanceKeepsStuckFree(s, a, io); }
    AdvanceKeepsSends(s, a, io);
  }

  lemma {:induction false} StartAllKeepsSafe(s: State, ids: seq<Id>)
    requires Safe(s)
    ensures Safe(StartAll(s, ids))
    decreases |ids|
  {
    if ids != [] {
      StartKeepsSafe(s, ids[0]);
      StartAllKeepsSafe(Start(s, ids[0]), ids[1..]);
    }
  }

  lemma CreateJobKeepsSafe(s: State, job: Job)
    requires Safe(s)
    ensures Safe(CreateJob(s, job))
  {
    if job.due <= s.now { StartKeepsSafe(s, job.id); }
  }

  lemma {:induction false} CreateJobsKeepsSafe(s: State, jobs: seq<Job>)
    requires Safe(s)
    ensures Safe(CreateJobs(s, jobs))
    decreases |jobs|
  {
    if jobs != [] {
      CreateJobKeepsSafe(s, jobs[0]);
      CreateJobsKeepsSafe(CreateJob(s, jobs[0]), jobs[1..]);
    }
  }

  lemma SettleKeepsSafe(s: State, c: nat, io: Io)
    requires Safe(s) && c in s.calls
    ensures Safe(Settle(s, c, io))
  {
    var t := Settle(s, c, io);
    CallMoves(s.calls[c], s.db, s.nextId, io);
    DbMoveKeeps(s.acts, s.db, s.nextId, t.db, t.nextId);
  }

  lemma ContinueKeepsSafe(s: State, c: nat, io: Io)
    requires Safe(s) && c in s.calls
    ensures Safe(Continue(s, c, io))
  {
    var call, t := s.calls[c], Settle(s, c, io);
    SettleKeepsSafe(s, c, io);
    if call.Created? || call.UpdateWritten? {
      CreateJobKeepsSafe(t, Job(call.id, call.due));
    }
  }

  lemma ResetKeepsSafe(s: State, io: Io)
    requires Safe(s)
    ensures Safe(Step(s, InitReset(io)))
  {
    var t := Step(s, InitReset(io));
    assert DbMove(s.db, s.nextId, t.db, s.nextId);
    DbMoveKeeps(s.acts, s.db, s.nextId, t.db, s.nextId);
  }

  lemma StepKeepsSafe(env: Env, s: State, e: Event)
    requires SafeEnv(env) && Safe(s) && Enabled(env, s, e)
    ensures Safe(Step(s, e))
  {
    match e
    case CallStep(c, io) => ContinueKeepsSafe(s, c, io);
    case CronRun(k) => StartAllKeepsSafe(s.(ticks := s.ticks[..k] + s.ticks[k + 1..]), s.ticks[k]);
    case InitRun => CreateJobsKeepsSafe(s.(init := Resetting), s.init.jobs);
    case InitReset(io) => ResetKeepsSafe(s, io);
    case TimerFire(t) => StartKeepsSafe(s.(timers := s.timers - {t}), s.timers[t].id);
    case ActStep(a, io) => AdvanceKeepsSafe(s, a, io);
    case _ => OthersKeepSafe(s, e);
  }

  /** Reads and the clock. */
  lemma OthersKeepSafe(s: State, e: Event)
    requires Safe(s) && Possible(s, e) && (Opens(e) || e.Tick? || e.CronQuery? || e.InitQuery?)
    requires e.Update? ==> e.dto.status.None?
    ensures Safe(Step(s, e))
  {
  }

  lemma {:induction false} RunKeepsSafe(env: Env, s: State, es: seq<Event>)
    requires SafeEnv(env) && Safe(s) && Valid(env, s, es)
    ensures Safe(Run(s, es))
    decreases |es|
  {
    if es != [] {
      StepKeepsSafe(env, s, es[0]);
      RunKeepsSafe(env, Step(s, es[0]), es[1..]);
    }
  }
}
