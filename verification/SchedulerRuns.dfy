/** Reaching a state step by step: the pieces from which the runs that show a guarantee fails are put together. */
module SchedulerRuns {
  import opened Common
  import opened Scheduler

  ghost predicate Reach(env: Env, s: State, t: State) {
    exists es :: Valid(env, s, es) && Run(s, es) == t
  }

  lemma {:induction false} ValidAppend(env: Env, s: State, es: seq<Event>, e: Event)
    requires Valid(env, s, es) && Enabled(env, Run(s, es), e)
    ensures Valid(env, s, es + [e]) && Run(s, es + [e]) == Step(Run(s, es), e)
    decreases |es|
  {
    if es == [] {
      assert es + [e] == [e] && [e][1..] == [];
    } else {
      ValidAppend(env, Step(s, es[0]), es[1..], e);
      assert (es + [e])[1..] == es[1..] + [e];
    }
  }

  lemma ReachSelf(env: Env, s: State)
    ensures Reach(env, s, s)
  {
    assert Valid(env, s, []) && Run(s, []) == s;
  }

  lemma ReachStep(env: Env, s: State, t: State, e: Event)
    requires Reach(env, s, t) && Enabled(env, t, e)
    ensures Reach(env, s, Step(t, e))
  {
    var es :| Valid(env, s, es) && Run(s, es) == t;
    ValidAppend(env, s, es, e);
  }

  lemma ReachRun(env: Env, s: State, t: State, fs: seq<Event>)
    requires Reach(env, s, t) && Valid(env, t, fs)
    ensures Reach(env, s, Run(t, fs))
  {
    var es :| Valid(env, s, es) && Run(s, es) == t;
    ValidConcat(env, s, es, fs);
    RunConcat(s, es, fs);
  }

  /** What always holds holds of every reachable state. */
  lemma ReachableHolds(env: Env, p: State -> bool, db: map<Id, Doc>, nextId: Id, now: int, s: State)
    requires Always(env, p) && Fresh(db, nextId) && Reach(env, Boot(db, nextId, now), s)
    ensures p(s)
  {
  }

  /** No HTTP call is under way, or it need not be finished first. */
  ghost predicate Free(env: Env, s: State) {
    s.calls == map[] || env.openCalls
  }

  /** Overdue since long ago, and about to be sent to x. */
  const SLOT: Doc := Doc(Pending, ["x"], 0)
  const READER: Act := Begun(0)
  const PASSER: Act := READER.(phase := Marking, snap := Some(SLOT), passedAt := 5)

  lemma ReachAct(env: Env, s0: State, s: State, a: nat, io: Io) returns (t: State)
    requires Reach(env, s0, s) && Free(env, s) && Live(s.acts, a)
    requires s.acts[a].phase.Rescuing? && io.Lost? ==> env.rescueFails
    ensures Reach(env, s0, t) && t == Advance(s, a, io)
  {
    ReachStep(env, s0, s, ActStep(a, io));
    t := Step(s, ActStep(a, io));
  }

  /** Activation a reads schedule 0 and passes the status test. */
  lemma ReaderPasses(env: Env, s0: State, s: State, a: nat) returns (t: State)
    requires Reach(env, s0, s) && Free(env, s) && a in s.acts && s.acts[a] == READER
    requires 0 in s.db && s.db[0] == SLOT && s.now == 5
    ensures Reach(env, s0, t)
    ensures t == s.(acts := s.acts[a := PASSER])
  {
    var s1 := ReachAct(env, s0, s, a, Ok);
    assert s1 == s.(acts := s.acts[a := READER.(phase := Checking(Some(SLOT)))]);
    t := ReachAct(env, s0, s1, a, Ok);
    assert t.acts == s.acts[a := PASSER];
  }

  /** A cron tick lists schedule 0, the only one, which is due. */
  lemma TickFinds(env: Env, s0: State, s: State) returns (t: State)
    requires Reach(env, s0, s) && Free(env, s) && s.ticks == []
    requires s.db.Keys == {0} && s.db[0].status == Pending && s.db[0].due <= s.now
    ensures Reach(env, s0, t) && t == s.(ticks := [[0]])
  {
    ReachStep(env, s0, s, CronQuery([0]));
    t := Step(s, CronQuery([0]));
  }

  /** The tick starts an activation on schedule 0. */
  lemma TickStarts(env: Env, s0: State, s: State) returns (t: State)
    requires Reach(env, s0, s) && Free(env, s) && s.ticks == [[0]] && s.processing == {}
    ensures Reach(env, s0, t)
    ensures t == s.(ticks := [], processing := {0}, nextAct := s.nextAct + 1, acts := s.acts[s.nextAct := READER])
  {
    ReachStep(env, s0, s, CronRun(0));
    t := Step(s, CronRun(0));
    assert s.ticks[..0] + s.ticks[1..] == [];
    assert [0][1..] == [];
  }

  lemma CronStarts(env: Env, s0: State, s: State) returns (t: State)
    requires Reach(env, s0, s) && Free(env, s) && s.ticks == [] && s.db == map[0 := SLOT] && s.now == 5
      && s.processing == {}
    ensures Reach(env, s0, t)
    ensures t == s.(processing := {0}, nextAct := s.nextAct + 1, acts := s.acts[s.nextAct := READER])
  {
    var s1 := TickFinds(env, s0, s);
    t := TickStarts(env, s0, s1);
  }

  /** Start-up lists the one schedule there is. */
  lemma InitLists(env: Env, s0: State, s: State) returns (t: State)
    requires Reach(env, s0, s) && Free(env, s) && s.init.NotStarted? && s.db.Keys == {0} && s.db[0].status == Pending
    requires Near(env, s.now, s.db[0].due)
    ensures Reach(env, s0, t) && t == s.(init := Listed([Job(0, s.db[0].due)]))
  {
    var jobs := [Job(0, s.db[0].due)];
    assert jobs[0] in jobs;
    ReachStep(env, s0, s, InitQuery(jobs));
    t := Step(s, InitQuery(jobs));
  }

  /** Start-up starts the schedule or sets its timer. */
  lemma InitActs(env: Env, s0: State, s: State, job: Job) returns (t: State)
    requires Reach(env, s0, s) && Free(env, s) && s.init == Listed([job])
    ensures Reach(env, s0, t) && t == CreateJob(s.(init := Resetting), job)
  {
    ReachStep(env, s0, s, InitRun);
    t := Step(s, InitRun);
    assert [job][1..] == [];
    assert t == CreateJobs(CreateJob(s.(init := Resetting), job), []);
  }

  /** Start-up finds schedule 0 overdue and starts it at once. */
  lemma InitStarts(env: Env, s0: State) returns (t: State)
    requires s0 == Boot(map[0 := SLOT], 1, 5)
    ensures Reach(env, s0, t)
    ensures t == s0.(init := Resetting, processing := {0}, nextAct := 1, acts := map[0 := READER])
  {
    ReachSelf(env, s0);
    var s1 := InitLists(env, s0, s0);
    t := InitActs(env, s0, s1, Job(0, 0));
  }

  /** The checks of the update, and the timer deleted. */
  lemma UpdateDecides(env: Env, s0: State, s: State, c: nat, dto: Dto) returns (t: State)
    requires Reach(env, s0, s) && c in s.calls && s.calls[c].UpdateGot? && s.calls[c].id == 0 && s.calls[c].dto == dto
    requires s.calls[c].doc.status in {Pending, Failed} && (dto.due.Some? ==> dto.due.value > s.now)
    ensures Reach(env, s0, t)
    ensures t == (if dto.due.Some? then DeleteTimeout(s, 0) else s).(calls := s.calls[c := UpdateWriting(0, dto)])
  {
    ReachStep(env, s0, s, CallStep(c, Ok));
    t := Step(s, CallStep(c, Ok));
  }

  /** An update of schedule 0, up to the moment its write is issued. */
  lemma UpdateBegins(env: Env, s0: State, s: State, dto: Dto) returns (t: State)
    requires Reach(env, s0, s) && Free(env, s) && (BeforeTimers(s.init) ==> env.earlyCalls)
    requires 0 in s.db && s.db[0].status in {Pending, Failed}
    requires dto.due.Some? ==> dto.due.value > s.now && Near(env, s.now, dto.due.value)
    requires dto.status.Some? ==> env.statusUpdates
    ensures Reach(env, s0, t)
    ensures var s1 := if dto.due.Some? then DeleteTimeout(s, 0) else s;
      t == s1.(calls := s.calls[s.nextCall := UpdateWriting(0, dto)], nextCall := s.nextCall + 1)
  {
    var c := s.nextCall;
    ReachStep(env, s0, s, Update(0, dto));
    var s1 := Step(s, Update(0, dto));
    t := UpdateDecides(env, s0, s1, c, dto);
    assert s1.calls[c := UpdateWriting(0, dto)] == s.calls[c := UpdateWriting(0, dto)];
  }

  lemma UpdateLands(env: Env, s0: State, s: State, c: nat, dto: Dto) returns (t: State)
    requires Reach(env, s0, s) && c in s.calls && s.calls[c] == UpdateWriting(0, dto) && 0 in s.db
    requires dto.due.Some? && dto.due.value > s.db[0].due ==> MayPostpone(env.postponing, s, 0)
    ensures Reach(env, s0, t)
    ensures t == s.(db := s.db[0 := ApplyDto(dto, s.db[0])],
                    calls := if dto.due.Some? then s.calls[c := UpdateWritten(0, dto.due.value)] else s.calls - {c})
  {
    ReachStep(env, s0, s, CallStep(c, Ok));
    t := Step(s, CallStep(c, Ok));
  }

  /** The update sets its timer and answers. */
  lemma UpdateEnds(env: Env, s0: State, s: State, c: nat, due: int) returns (t: State)
    requires Reach(env, s0, s) && c in s.calls && s.calls[c] == UpdateWritten(0, due)
    ensures Reach(env, s0, t) && t == CreateJob(s.(calls := s.calls - {c}), Job(0, due))
  {
    ReachStep(env, s0, s, CallStep(c, Ok));
    t := Step(s, CallStep(c, Ok));
  }
}
