/** When timers agree with the store, when a schedule can run before its time, and exactly what decides it. */
module SchedulerTiming {
  import opened Common
  import opened Scheduler

  // ---------------------------------------------------------------------------------------------
  // Timers and the store: atomic calls, made after start-up
  // ---------------------------------------------------------------------------------------------

  /** Every live timer is registered under its schedule's name and set to the stored time. */
  ghost predicate TimersAgree(s: State) {
    forall t :: t in s.timers ==>
      var id := s.timers[t].id;
      && id in s.registry && s.registry[id] == t
      && (id in s.db ==> s.db[id].due == s.timers[t].at)
  }

  ghost predicate DueIs(db: map<Id, Doc>, n: Id, id: Id, due: int) {
    id < n && (id in db ==> db[id].due == due)
  }

  ghost predicate TimersMatch(timers: map<nat, Timer>, next: nat, registry: map<Id, nat>, db: map<Id, Doc>, n: Id) {
    && (forall t :: t in timers ==>
          && timers[t].id in registry && registry[timers[t].id] == t
          && DueIs(db, n, timers[t].id, timers[t].at))
    && (forall id :: id in registry ==> id < n && registry[id] < next)
  }

  /** A timer may be set for j: none is registered, and it will not be clipped. */
  ghost predicate JobMatches(j: Job, registry: map<Id, nat>, db: map<Id, Doc>, n: Id, now: int) {
    j.id !in registry && DueIs(db, n, j.id, j.due) && j.due - now <= MAX_TIMEOUT
  }

  ghost predicate JobsMatch(jobs: seq<Job>, registry: map<Id, nat>, db: map<Id, Doc>, n: Id, now: int) {
    && (forall j :: j in jobs ==> JobMatches(j, registry, db, n, now))
    && (forall i, j :: 0 <= i < j < |jobs| ==> jobs[i].id != jobs[j].id)
  }

  ghost predicate CallMatches(call: Call, registry: map<Id, nat>, db: map<Id, Doc>, n: Id, now: int) {
    match call
    case Creating(doc) => doc.due - now <= MAX_TIMEOUT
    case Created(id, due) => JobMatches(Job(id, due), registry, db, n, now)
    case UpdateGot(id, dto, _) => id < n && (dto.due.Some? ==> dto.due.value - now <= MAX_TIMEOUT)
    case UpdateWriting(id, dto) => id < n && (dto.due.Some? ==> id !in registry && dto.due.value - now <= MAX_TIMEOUT)
    case UpdateWritten(id, due) => JobMatches(Job(id, due), registry, db, n, now)
    case _ => true
  }

  ghost predicate Matched(s: State) {
    && Fresh(s.db, s.nextId)
    && TimersMatch(s.timers, s.nextTimer, s.registry, s.db, s.nextId)
    && (BeforeTimers(s.init) ==> s.registry == map[] && s.calls == map[])
    && (s.init.Listed? ==> JobsMatch(s.init.jobs, s.registry, s.db, s.nextId, s.now))
    && (forall c :: c in s.calls ==> CallMatches(s.calls[c], s.registry, s.db, s.nextId, s.now) && s.calls.Keys == {c})
  }

  /** HTTP calls are atomic and come after start-up recovery has set its timers; no timeout is clipped. */
  ghost predicate OrderlyEnv(env: Env) {
    !env.openCalls && !env.earlyCalls && !env.farTimers
  }

  lemma CreateJobMatches(s: State, j: Job)
    requires Fresh(s.db, s.nextId) && TimersMatch(s.timers, s.nextTimer, s.registry, s.db, s.nextId)
    requires JobMatches(j, s.registry, s.db, s.nextId, s.now)
    ensures var t := CreateJob(s, j);
      && TimersMatch(t.timers, t.nextTimer, t.registry, t.db, t.nextId)
      && t == s.(processing := t.processing, acts := t.acts, nextAct := t.nextAct,
                 timers := t.timers, nextTimer := t.nextTimer, registry := t.registry)
      && t.registry.Keys <= s.registry.Keys + {j.id}
  {
  }

  lemma {:induction false} CreateJobsMatch(s: State, jobs: seq<Job>)
    requires Fresh(s.db, s.nextId) && TimersMatch(s.timers, s.nextTimer, s.registry, s.db, s.nextId)
    requires JobsMatch(jobs, s.registry, s.db, s.nextId, s.now)
    ensures var t := CreateJobs(s, jobs);
      && TimersMatch(t.timers, t.nextTimer, t.registry, t.db, t.nextId)
      && t == s.(processing := t.processing, acts := t.acts, nextAct := t.nextAct,
                 timers := t.timers, nextTimer := t.nextTimer, registry := t.registry)
    decreases |jobs|
  {
    if jobs != [] {
      assert jobs[0] in jobs;
      CreateJobMatches(s, jobs[0]);
      var s1 := CreateJob(s, jobs[0]);
      forall j | j in jobs[1..] ensures JobMatches(j, s1.registry, s1.db, s1.nextId, s1.now) {
        var i :| 0 <= i < |jobs[1..]| && jobs[1..][i] == j;
        assert jobs[i + 1] == j && jobs[i + 1] in jobs && jobs[0].id != jobs[i + 1].id;
        assert JobMatches(j, s.registry, s.db, s.nextId, s.now);
      }
      CreateJobsMatch(s1, jobs[1..]);
    }
  }

  /** HTTP calls up to `createScheduleJob`. */
  lemma SettleMatches(s: State, c: nat, io: Io)
    requires Matched(s) && c in s.calls
    ensures var t := Settle(s, c, io);
      && Fresh(t.db, t.nextId) && TimersMatch(t.timers, t.nextTimer, t.registry, t.db, t.nextId)
      && (forall d :: d in t.calls ==> d == c && CallMatches(t.calls[d], t.registry, t.db, t.nextId, t.now))
  {
    assert CallMatches(s.calls[c], s.registry, s.db, s.nextId, s.now);
  }

  lemma ContinueKeepsMatched(s: State, c: nat, io: Io)
    requires Matched(s) && c in s.calls
    ensures Matched(Continue(s, c, io))
  {
    var call, t := s.calls[c], Settle(s, c, io);
    SettleMatches(s, c, io);
    if call.Created? || call.UpdateWritten? {
      assert CallMatches(call, s.registry, s.db, s.nextId, s.now);
      CreateJobMatches(t, Job(call.id, call.due));
      assert t.calls == map[];
    }
  }

  lemma InitQueryMatches(env: Env, s: State, jobs: seq<Job>)
    requires OrderlyEnv(env) && Matched(s) && Enabled(env, s, InitQuery(jobs))
    ensures Matched(Step(s, InitQuery(jobs)))
  {
    forall j | j in jobs ensures JobMatches(j, s.registry, s.db, s.nextId, s.now) {
      assert Near(env, s.now, j.due);
    }
  }

  lemma CronRunMatches(s: State, k: nat)
    requires Matched(s) && k < |s.ticks|
    ensures Matched(Step(s, CronRun(k)))
  {
    StartAllKeeps(s.(ticks := s.ticks[..k] + s.ticks[k + 1..]), s.ticks[k]);
  }

  lemma AdvanceMatches(s: State, a: nat, io: Io)
    requires Matched(s) && a in s.acts
    ensures Matched(Advance(s, a, io))
  {
    assert forall id :: id in DbAfter(s.db, s.acts[a], io) ==>
      id in s.db && DbAfter(s.db, s.acts[a], io)[id].due == s.db[id].due;
    assert DbAfter(s.db, s.acts[a], io).Keys == s.db.Keys;
  }

  lemma ResetMatches(s: State, io: Io)
    requires Matched(s) && s.init.Resetting?
    ensures Matched(Step(s, InitReset(io)))
  {
  }

  lemma StepKeepsMatched(env: Env, s: State, e: Event)
    requires OrderlyEnv(env) && Matched(s) && Enabled(env, s, e)
    ensures Matched(Step(s, e))
  {
    match e
    case CallStep(c, io) => ContinueKeepsMatched(s, c, io);
    case CronRun(k) => CronRunMatches(s, k);
    case InitRun => CreateJobsMatch(s.(init := Resetting), s.init.jobs);
    case InitReset(io) => ResetMatches(s, io);
    case ActStep(a, io) => AdvanceMatches(s, a, io);
    case InitQuery(jobs) => InitQueryMatches(env, s, jobs);
    case _ =>
  }

  // ---------------------------------------------------------------------------------------------
  // Never early: whatever stands for a schedule does so for no earlier a time than the stored one
  // ---------------------------------------------------------------------------------------------

  /** A schedule that is started at time t is due then. */
  ghost predicate DueBy(db: map<Id, Doc>, n: Id, id: Id, t: int) {
    id < n && (id in db ==> db[id].due <= t)
  }

  ghost predicate TimersTimely(timers: map<nat, Timer>, db: map<Id, Doc>, n: Id) {
    forall t :: t in timers ==> DueBy(db, n, timers[t].id, timers[t].at)
  }

  ghost predicate ActTimely(act: Act, db: map<Id, Doc>, n: Id, now: int) {
    && (act.phase.Reading? ==> DueBy(db, n, act.sid, now))
    && (act.phase.Checking? && act.phase.found.Some? ==> act.phase.found.value.due <= now)
    && (act.snap.Some? ==> act.snap.value.due <= act.passedAt)
  }

  ghost predicate ActsTimely(acts: map<nat, Act>, db: map<Id, Doc>, n: Id, now: int) {
    forall a :: a in acts ==> ActTimely(acts[a], db, n, now)
  }

  ghost predicate TicksTimely(ticks: seq<seq<Id>>, db: map<Id, Doc>, n: Id, now: int) {
    forall k :: 0 <= k < |ticks| ==> IdsTimely(ticks[k], db, n, now)
  }

  ghost predicate IdsTimely(ids: seq<Id>, db: map<Id, Doc>, n: Id, now: int) {
    forall id :: id in ids ==> DueBy(db, n, id, now)
  }

  ghost predicate JobTimely(j: Job, db: map<Id, Doc>, n: Id, now: int) {
    DueBy(db, n, j.id, j.due) && j.due - now <= MAX_TIMEOUT
  }

  ghost predicate JobsTimely(jobs: seq<Job>, db: map<Id, Doc>, n: Id, now: int) {
    forall j :: j in jobs ==> JobTimely(j, db, n, now)
  }

  ghost predicate CallTimely(call: Call, db: map<Id, Doc>, n: Id, now: int) {
    match call
    case Creating(doc) => doc.due - now <= MAX_TIMEOUT
    case Created(id, due) => JobTimely(Job(id, due), db, n, now)
    case UpdateGot(id, dto, _) => id < n && (dto.due.Some? ==> dto.due.value - now <= MAX_TIMEOUT)
    case UpdateWriting(id, dto) => id < n && (dto.due.Some? ==> dto.due.value - now <= MAX_TIMEOUT)
    case UpdateWritten(id, due) => JobTimely(Job(id, due), db, n, now)
    case _ => true
  }

  ghost predicate CallsTimely(calls: map<nat, Call>, db: map<Id, Doc>, n: Id, now: int) {
    forall c :: c in calls ==> CallTimely(calls[c], db, n, now)
  }

  ghost predicate Timely(s: State) {
    && Fresh(s.db, s.nextId)
    && TimersTimely(s.timers, s.db, s.nextId)
    && ActsTimely(s.acts, s.db, s.nextId, s.now)
    && TicksTimely(s.ticks, s.db, s.nextId, s.now)
    && (s.init.Listed? ==> JobsTimely(s.init.jobs, s.db, s.nextId, s.now))
    && CallsTimely(s.calls, s.db, s.nextId, s.now)
  }

  /** No time in the store grows, except that of one schedule. */
  ghost predicate Eases(db: map<Id, Doc>, n: Id, db': map<Id, Doc>, n': Id, late: Option<Id>) {
    && n <= n' && Fresh(db', n')
    && forall id :: id in db' && id < n && late != Some(id) ==> id in db && db'[id].due <= db[id].due
  }

  /** Nothing that was set up for an earlier time stands for the schedule. */
  ghost predicate Unattended(s: State, id: Id) {
    && !ReaderFor(s.acts, id) && !TickFor(s.ticks, id) && !ListingFor(s.init, id)
    && !JobFor(s.calls, id) && !TimerFor(s.timers, id)
  }

  /** Postponing is harmless when nothing stands for the schedule. */
  lemma EaseKeepsTimely(s: State, db': map<Id, Doc>, n': Id, late: Option<Id>)
    requires Timely(s) && Eases(s.db, s.nextId, db', n', late)
    requires late.Some? ==> Unattended(s, late.value)
    ensures Timely(s.(db := db', nextId := n'))
  {
    forall id: Id, t | DueBy(s.db, s.nextId, id, t) && late != Some(id) ensures DueBy(db', n', id, t) {}
    forall a | a in s.acts ensures ActTimely(s.acts[a], db', n', s.now) {
      assert ActTimely(s.acts[a], s.db, s.nextId, s.now);
    }
    forall k | 0 <= k < |s.ticks| ensures IdsTimely(s.ticks[k], db', n', s.now) {
      assert IdsTimely(s.ticks[k], s.db, s.nextId, s.now);
    }
    forall c | c in s.calls ensures CallTimely(s.calls[c], db', n', s.now) {
      assert CallTimely(s.calls[c], s.db, s.nextId, s.now);
    }
  }

  lemma StartKeepsTimely(s: State, id: Id)
    requires Timely(s) && DueBy(s.db, s.nextId, id, s.now)
    ensures Timely(Start(s, id))
  {
  }

  lemma {:induction false} StartAllKeepsTimely(s: State, ids: seq<Id>)
    requires Timely(s) && IdsTimely(ids, s.db, s.nextId, s.now)
    ensures Timely(StartAll(s, ids))
    decreases |ids|
  {
    if ids != [] {
      StartKeepsTimely(s, ids[0]);
      StartAllKeepsTimely(Start(s, ids[0]), ids[1..]);
    }
  }

  lemma CreateJobKeepsTimely(s: State, j: Job)
    requires Timely(s) && JobTimely(j, s.db, s.nextId, s.now)
    ensures Timely(CreateJob(s, j))
    ensures var t := CreateJob(s, j); t.db == s.db && t.nextId == s.nextId && t.now == s.now
  {
    if j.due <= s.now { StartKeepsTimely(s, j.id); }
  }

  lemma {:induction false} CreateJobsKeepsTimely(s: State, jobs: seq<Job>)
    requires Timely(s) && JobsTimely(jobs, s.db, s.nextId, s.now)
    ensures Timely(CreateJobs(s, jobs))
    decreases |jobs|
  {
    if jobs != [] {
      assert jobs[0] in jobs;
      CreateJobKeepsTimely(s, jobs[0]);
      CreateJobsKeepsTimely(CreateJob(s, jobs[0]), jobs[1..]);
    }
  }

  lemma DropKeepsTimely(s: State, id: Id)
    requires Timely(s)
    ensures Timely(DeleteTimeout(s, id))
  {
  }

  /** What a call's database operation does to the stored times. */
  lemma CallEases(s: State, c: nat, io: Io)
    requires Fresh(s.db, s.nextId) && c in s.calls
    ensures var call := s.calls[c];
      Eases(s.db, s.nextId, DbCall(call, s.db, s.nextId, io), if call.Creating?
        && !io.Lost? then s.nextId + 1 else s.nextId,
            Postponed(s, CallStep(c, io)))
  {
  }

  /** Settle, with the database operation put first. */
  lemma SettleShape(s: State, c: nat, io: Io)
    requires c in s.calls
    ensures var call, t := s.calls[c], Settle(s, c, io);
      var s1 := s.(db := DbCall(call, s.db, s.nextId, io), nextId := if call.Creating?
        && !io.Lost? then s.nextId + 1 else s.nextId);
      var drop := Drops(call, NextCall(call, s.db, s.nextId, s.now, io));
      t == (if drop.Some? then DeleteTimeout(s1, drop.value) else s1).(calls := t.calls)
  {
  }

  lemma CallsAfter(s: State, c: nat, io: Io)
    requires c in s.calls && CallTimely(s.calls[c], s.db, s.nextId, s.now) && Fresh(s.db, s.nextId)
    requires var t := Settle(s, c, io); CallsTimely(s.calls, t.db, t.nextId, t.now)
    ensures var t := Settle(s, c, io); CallsTimely(t.calls, t.db, t.nextId, t.now)
  {
    var call, t := s.calls[c], Settle(s, c, io);
    var next := NextCall(call, s.db, s.nextId, s.now, io);
    if next.Some? { NextCallTimely(call, s, io); }
    assert t.calls == if next.Some? then s.calls[c := next.value] else s.calls - {c};
  }

  lemma SettleKeepsTimely(s: State, c: nat, io: Io)
    requires Timely(s) && c in s.calls
    requires var p := Postponed(s, CallStep(c, io)); p.Some? ==> Unattended(s, p.value)
    ensures Timely(Settle(s, c, io))
  {
    var call := s.calls[c];
    assert CallTimely(call, s.db, s.nextId, s.now);
    var s1 := s.(db := DbCall(call, s.db, s.nextId, io), nextId := if call.Creating?
      && !io.Lost? then s.nextId + 1 else s.nextId);
    CallEases(s, c, io);
    EaseKeepsTimely(s, s1.db, s1.nextId, Postponed(s, CallStep(c, io)));
    SettleShape(s, c, io);
    var drop := Drops(call, NextCall(call, s.db, s.nextId, s.now, io));
    if drop.Some? { DropKeepsTimely(s1, drop.value); }
    CallsAfter(s, c, io);
    WithCalls(if drop.Some? then DeleteTimeout(s1, drop.value) else s1, Settle(s, c, io).calls);
  }

  lemma WithCalls(s: State, calls: map<nat, Call>)
    requires Timely(s) && CallsTimely(calls, s.db, s.nextId, s.now)
    ensures Timely(s.(calls := calls))
  {
  }

  lemma NextCallTimely(call: Call, s: State, io: Io)
    requires Fresh(s.db, s.nextId) && CallTimely(call, s.db, s.nextId, s.now)
    requires NextCall(call, s.db, s.nextId, s.now, io).Some?
    ensures CallTimely(NextCall(call, s.db, s.nextId, s.now, io).value, DbCall(call, s.db, s.nextId, io),
                       if call.Creating? && !io.Lost? then s.nextId + 1 else s.nextId, s.now)
  {
  }

  lemma ContinueKeepsTimely(s: State, c: nat, io: Io)
    requires Timely(s) && c in s.calls
    requires var p := Postponed(s, CallStep(c, io)); p.Some? ==> Unattended(s, p.value)
    ensures Timely(Continue(s, c, io))
  {
    SettleKeepsTimely(s, c, io);
    if s.calls[c].Created? || s.calls[c].UpdateWritten? {
      assert CallTimely(s.calls[c], s.db, s.nextId, s.now);
      CreateJobKeepsTimely(Settle(s, c, io), Job(s.calls[c].id, s.calls[c].due));
    }
  }

  lemma NextActTimely(act: Act, db: map<Id, Doc>, n: Id, now: int, io: Io)
    requires ActTimely(act, db, n, now)
    ensures ActTimely(NextAct(act, Find(db, act.sid), now, io), db, n, now)
  {
  }

  lemma AdvanceKeepsTimely(s: State, a: nat, io: Io)
    requires Timely(s) && a in s.acts
    ensures Timely(Advance(s, a, io))
  {
    var act := s.acts[a];
    var db' := DbAfter(s.db, act, io);
    var next := NextAct(act, Find(s.db, act.sid), s.now, io);
    NextActTimely(act, s.db, s.nextId, s.now, io);
    var s1 := s.(acts := s.acts[a := next]);
    assert ActsTimely(s1.acts, s.db, s.nextId, s.now);
    EaseKeepsTimely(s1, db', s.nextId, None);
    var t := Advance(s, a, io);
    assert t == s1.(db := db', processing := t.processing, sends := t.sends);
  }

  lemma CronRunKeepsTimely(s: State, k: nat)
    requires Timely(s) && k < |s.ticks|
    ensures Timely(Step(s, CronRun(k)))
  {
    var s1 := s.(ticks := s.ticks[..k] + s.ticks[k + 1..]);
    forall i | 0 <= i < |s1.ticks| ensures IdsTimely(s1.ticks[i], s.db, s.nextId, s.now) {
      assert s1.ticks[i] == s.ticks[if i < k then i else i + 1];
    }
    StartAllKeepsTimely(s1, s.ticks[k]);
  }

  lemma ClockKeepsTimely(s: State, ms: nat)
    requires Timely(s)
    ensures Timely(Step(s, Tick(ms)))
  {
    var t := Step(s, Tick(ms));
    forall a | a in t.acts ensures ActTimely(t.acts[a], t.db, t.nextId, t.now) {
      assert ActTimely(s.acts[a], s.db, s.nextId, s.now);
    }
    forall k | 0 <= k < |t.ticks| ensures IdsTimely(t.ticks[k], t.db, t.nextId, t.now) {
      assert IdsTimely(s.ticks[k], s.db, s.nextId, s.now);
    }
    forall c | c in t.calls ensures CallTimely(t.calls[c], t.db, t.nextId, t.now) {
      assert CallTimely(s.calls[c], s.db, s.nextId, s.now);
    }
  }

  lemma InitQueryKeepsTimely(env: Env, s: State, jobs: seq<Job>)
    requires !env.farTimers && Timely(s) && Enabled(env, s, InitQuery(jobs))
    ensures Timely(Step(s, InitQuery(jobs)))
  {
    forall j | j in jobs ensures JobTimely(j, s.db, s.nextId, s.now) {
      assert Near(env, s.now, j.due);
    }
  }

  lemma StepKeepsTimely(env: Env, s: State, e: Event)
    requires !env.farTimers && Timely(s) && Enabled(env, s, e)
    requires Postponed(s, e).Some? ==> Unattended(s, Postponed(s, e).value)
    ensures Timely(Step(s, e))
  {
    match e
    case CallStep(c, io) => ContinueKeepsTimely(s, c, io);
    case CronRun(k) => CronRunKeepsTimely(s, k);
    case InitRun => CreateJobsKeepsTimely(s.(init := Resetting), s.init.jobs);
    case InitReset(io) => EaseKeepsTimely(s, ResetDb(s.db), s.nextId, None);
    case Tick(ms) => ClockKeepsTimely(s, ms);
    case TimerFire(t) => StartKeepsTimely(s.(timers := s.timers - {t}), s.timers[t].id);
    case ActStep(a, io) => AdvanceKeepsTimely(s, a, io);
    case InitQuery(jobs) => InitQueryKeepsTimely(env, s, jobs);
    case CronQuery(ids) => assert IdsTimely(ids, s.db, s.nextId, s.now);
    case _ =>
  }

  // ---------------------------------------------------------------------------------------------
  // What the order of events rules out by itself
  // ---------------------------------------------------------------------------------------------

  ghost predicate Ordered(env: Env, s: State) {
    && (!env.earlyCalls && s.calls != map[] ==> !BeforeTimers(s.init))
    && (!env.openCalls ==> forall c, d :: c in s.calls && d in s.calls ==> c == d)
    && (OrderlyEnv(env) ==> Matched(s))
  }

  /** Only the events that open a call add one, and start-up goes one way. */
  lemma StepMovesOn(s: State, e: Event)
    requires Possible(s, e)
    ensures var t := Step(s, e);
      && (Opens(e) ==> t.init == s.init && t.calls.Keys == s.calls.Keys + {s.nextCall})
      && (!Opens(e) ==> t.calls.Keys <= s.calls.Keys)
      && (!BeforeTimers(s.init) ==> !BeforeTimers(t.init))
  {
    match e
    case CronRun(k) => StartAllKeeps(s.(ticks := s.ticks[..k] + s.ticks[k + 1..]), s.ticks[k]);
    case InitRun => CreateJobsKeeps(s.(init := Resetting), s.init.jobs);
    case _ =>
  }

  lemma StepKeepsOrdered(env: Env, s: State, e: Event)
    requires Ordered(env, s) && Enabled(env, s, e)
    ensures Ordered(env, Step(s, e))
  {
    StepMovesOn(s, e);
    if OrderlyEnv(env) { StepKeepsMatched(env, s, e); }
  }

  // ---------------------------------------------------------------------------------------------
  // The exact condition, one way
  // ---------------------------------------------------------------------------------------------

  /**
   Nothing that may stand for a schedule while it is postponed: an activation, a tick, and, as far as
   the order of events allows them to, the list of start-up recovery, another call, or a timer.
   */
  predicate PunctualEnv(env: Env) {
    && !env.farTimers
    && !env.postponing.readers
    && !env.postponing.ticks
    && !(env.postponing.listing && env.earlyCalls)
    && !(env.postponing.jobs && env.openCalls)
    && !(env.postponing.timers && (env.openCalls || env.earlyCalls))
  }

  lemma NothingStands(env: Env, s: State, e: Event)
    requires PunctualEnv(env) && Ordered(env, s) && Enabled(env, s, e) && Postponed(s, e).Some?
    ensures Unattended(s, Postponed(s, e).value)
  {
    var id := Postponed(s, e).value;
    assert s.calls[e.c].UpdateWriting? && s.calls[e.c].id == id;
    if env.postponing.timers {
      assert CallMatches(s.calls[e.c], s.registry, s.db, s.nextId, s.now);
    }
  }

  lemma {:induction false} RunKeepsTimely(env: Env, s: State, es: seq<Event>)
    requires PunctualEnv(env) && Timely(s) && Ordered(env, s) && Valid(env, s, es)
    ensures Timely(Run(s, es))
    decreases |es|
  {
    if es != [] {
      if Postponed(s, es[0]).Some? { NothingStands(env, s, es[0]); }
      StepKeepsTimely(env, s, es[0]);
      StepKeepsOrdered(env, s, es[0]);
      RunKeepsTimely(env, Step(s, es[0]), es[1..]);
    }
  }

  lemma {:induction false} RunKeepsOrdered(env: Env, s: State, es: seq<Event>)
    requires Ordered(env, s) && Valid(env, s, es)
    ensures Ordered(env, Run(s, es))
    decreases |es|
  {
    if es != [] {
      StepKeepsOrdered(env, s, es[0]);
      RunKeepsOrdered(env, Step(s, es[0]), es[1..]);
    }
  }

  lemma BootIsTimely(env: Env, db: map<Id, Doc>, n: Id, now: int)
    requires Fresh(db, n)
    ensures Timely(Boot(db, n, now)) && Ordered(env, Boot(db, n, now))
  {
  }
}
