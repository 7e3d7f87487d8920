/**
 Jobs that run at most once per key at a time: later callers join the job in flight and get its result.
 Reconnection, rebuild from stored authentication, and QR reconnect all follow this protocol; the QR
 reconnect also routes the job's events to the caller that came last.
 */
module SingleFlight {
  import opened Common

  type Key = string
  type Result = Option<bool>   // None: the job was rejected

  /** Running, then settled, then cleared: the finally callback has deleted the entry. */
  datatype Stage = Running | Settled | Cleared

  datatype Job = Job(key: Key, stage: Stage, result: Result, firstCaller: nat)

  datatype Caller = Caller(key: Key, job: nat, answer: Option<Result>)

  /** `latest` remembers, for each key, who called last. */
  datatype State = State(
    inFlight: map<Key, nat>, jobs: seq<Job>, callers: seq<Caller>,
    emitters: map<Key, nat>, latest: map<Key, nat>)

  datatype Event =
    | Call(key: Key)
    | Settle(job: nat, result: Result)
    | Clear(job: nat)
    | Answer(caller: nat)

  const IDLE: State := State(map[], [], [], map[], map[])

  function Enter(s: State, key: Key): State {
    var me := |s.callers|;
    var s1 := s.(emitters := s.emitters[key := me], latest := s.latest[key := me]);
    if key in s.inFlight then s1.(callers := s.callers + [Caller(key, s.inFlight[key], None)])
    else
      s1.(inFlight := s.inFlight[key := |s.jobs|],
          jobs := s.jobs + [Job(key, Running, None, me)],
          callers := s.callers + [Caller(key, |s.jobs|, None)])
  }

  ghost predicate Enabled(s: State, e: Event) {
    match e
    case Call(_) => true
    case Settle(j, _) => j < |s.jobs| && s.jobs[j].stage.Running?
    case Clear(j) => j < |s.jobs| && s.jobs[j].stage.Settled?
    case Answer(c) => c < |s.callers| && s.callers[c].job < |s.jobs| && s.jobs[s.callers[c].job].stage.Cleared?
  }

  function Step(s: State, e: Event): State {
    match e
    case Call(key) => Enter(s, key)
    case Settle(j, r) => if j < |s.jobs| then s.(jobs := s.jobs[j := s.jobs[j].(stage := Settled, result := r)]) else s
    case Clear(j) =>
      if j < |s.jobs| then
        s.(jobs := s.jobs[j := s.jobs[j].(stage := Cleared)],
           inFlight := s.inFlight - {s.jobs[j].key}, emitters := s.emitters - {s.jobs[j].key})
      else s
    case Answer(c) =>
      if c < |s.callers| && s.callers[c].job < |s.jobs| then
        s.(callers := s.callers[c := s.callers[c].(answer := Some(s.jobs[s.callers[c].job].result))])
      else s
  }

  ghost predicate Valid(s: State, es: seq<Event>)
    decreases |es|
  {
    es == [] || (Enabled(s, es[0]) && Valid(Step(s, es[0]), es[1..]))
  }

  function Run(s: State, es: seq<Event>): State
    decreases |es|
  {
    if es == [] then s else Run(Step(s, es[0]), es[1..])
  }

  /** Where an event of job j is sent: to the registered emitter, or to the job's first caller. */
  function Target(s: State, j: nat): nat
    requires j < |s.jobs|
  {
    if s.jobs[j].key in s.emitters then s.emitters[s.jobs[j].key] else s.jobs[j].firstCaller
  }

  // ---------------------------------------------------------------------------------------------
  // The service object
  // ---------------------------------------------------------------------------------------------

  class Flights {
    var inFlight: map<Key, nat>
    var jobs: seq<Job>
    var callers: seq<Caller>
    var emitters: map<Key, nat>
    ghost var latest: map<Key, nat>

    ghost function Abs(): State
      reads this
    {
      State(inFlight, jobs, callers, emitters, latest)
    }

    constructor ()
      ensures Abs() == IDLE
    {
      inFlight, jobs, callers, emitters, latest := map[], [], [], map[], map[];
    }

    /** `handleReconnection`, `recreateClientFromAuth`, and the end of `reconnectAccountWithQr`. */
    method Reconnect(key: Key) returns (job: nat)
      modifies this
      ensures Abs() == Enter(old(Abs()), key)
      ensures |callers| == |old(callers)| + 1 && callers[|old(callers)|].job == job
    {
      var me := |callers|;
      emitters, latest := emitters[key := me], latest[key := me];
      if key in inFlight {
        job := inFlight[key];
      } else {
        job := |jobs|;
        jobs := jobs + [Job(key, Running, None, me)];
        inFlight := inFlight[key := job];
      }
      callers := callers + [Caller(key, job, None)];
    }

    /** The finally callback of a job. */
    method Finally(job: nat)
      requires job < |jobs|
      modifies this
      ensures Abs() == Step(old(Abs()), Clear(job))
    {
      inFlight := inFlight - {jobs[job].key};
      emitters := emitters - {jobs[job].key};
      jobs := jobs[job := jobs[job].(stage := Cleared)];
    }
  }

  // ---------------------------------------------------------------------------------------------
  // Properties of every run
  // ---------------------------------------------------------------------------------------------

  /** The entry of a key is its one job that is not cleared. */
  ghost predicate FlightsOk(inFlight: map<Key, nat>, jobs: seq<Job>) {
    && (forall k :: k in inFlight ==>
          inFlight[k] < |jobs| && jobs[inFlight[k]].key == k && !jobs[inFlight[k]].stage.Cleared?)
    && (forall j :: 0 <= j < |jobs| && !jobs[j].stage.Cleared? ==>
          jobs[j].key in inFlight && inFlight[jobs[j].key] == j)
  }

  /** An emitter is registered exactly while a job is in flight, and it is the last caller's. */
  ghost predicate EmittersOk(inFlight: map<Key, nat>, emitters: map<Key, nat>, latest: map<Key, nat>) {
    && emitters.Keys == inFlight.Keys
    && (forall k :: k in emitters ==> k in latest && emitters[k] == latest[k])
  }

  ghost predicate CallerOk(caller: Caller, jobs: seq<Job>) {
    && caller.job < |jobs| && jobs[caller.job].key == caller.key
    && (caller.answer.Some? ==>
          jobs[caller.job].stage.Cleared? && caller.answer.value == jobs[caller.job].result)
  }

  ghost predicate CallersOk(callers: seq<Caller>, jobs: seq<Job>) {
    forall c :: 0 <= c < |callers| ==> CallerOk(callers[c], jobs)
  }

  ghost predicate IsLatest(callers: seq<Caller>, k: Key, c: nat) {
    c < |callers| && callers[c].key == k && forall d :: c < d < |callers| ==> callers[d].key != k
  }

  ghost predicate LatestOk(latest: map<Key, nat>, callers: seq<Caller>) {
    forall k :: k in latest ==> IsLatest(callers, k, latest[k])
  }

  ghost predicate Inv(s: State) {
    && FlightsOk(s.inFlight, s.jobs)
    && EmittersOk(s.inFlight, s.emitters, s.latest)
    && CallersOk(s.callers, s.jobs)
    && LatestOk(s.latest, s.callers)
  }

  lemma OpensFlight(inFlight: map<Key, nat>, jobs: seq<Job>, job: Job)
    requires FlightsOk(inFlight, jobs) && job.key !in inFlight && job.stage.Running?
    ensures FlightsOk(inFlight[job.key := |jobs|], jobs + [job])
  {
  }

  lemma ClosesFlight(inFlight: map<Key, nat>, jobs: seq<Job>, j: nat)
    requires FlightsOk(inFlight, jobs) && j < |jobs| && jobs[j].stage.Settled?
    ensures FlightsOk(inFlight - {jobs[j].key}, jobs[j := jobs[j].(stage := Cleared)])
  {
  }

  lemma StepKeepsFlights(s: State, e: Event)
    requires Inv(s) && Enabled(s, e)
    ensures FlightsOk(Step(s, e).inFlight, Step(s, e).jobs)
  {
    match e
    case Call(key) => if key !in s.inFlight { OpensFlight(s.inFlight, s.jobs, Job(key, Running, None, |s.callers|)); }
    case Clear(j) => ClosesFlight(s.inFlight, s.jobs, j);
    case _ =>
  }

  /** Jobs are only added, and a cleared one does not change. */
  ghost predicate JobsGrow(jobs: seq<Job>, jobs': seq<Job>) {
    && |jobs| <= |jobs'|
    && forall j :: 0 <= j < |jobs| ==> jobs'[j].key == jobs[j].key && (jobs[j].stage.Cleared? ==> jobs'[j] == jobs[j])
  }

  lemma StepGrowsJobs(s: State, e: Event)
    requires Enabled(s, e)
    ensures JobsGrow(s.jobs, Step(s, e).jobs)
  {
  }

  lemma CallersKeep(callers: seq<Caller>, jobs: seq<Job>, jobs': seq<Job>)
    requires CallersOk(callers, jobs) && JobsGrow(jobs, jobs')
    ensures CallersOk(callers, jobs')
  {
    forall c | 0 <= c < |callers| ensures CallerOk(callers[c], jobs') { assert CallerOk(callers[c], jobs); }
  }

  lemma EnterKeepsCallers(s: State, key: Key)
    requires Inv(s)
    ensures CallersOk(Enter(s, key).callers, Enter(s, key).jobs)
  {
    StepGrowsJobs(s, Call(key));
    CallersKeep(s.callers, s.jobs, Enter(s, key).jobs);
  }

  lemma StepKeepsCallers(s: State, e: Event)
    requires Inv(s) && Enabled(s, e)
    ensures CallersOk(Step(s, e).callers, Step(s, e).jobs)
  {
    match e
    case Call(key) => EnterKeepsCallers(s, key);
    case Answer(c) => assert CallerOk(s.callers[c], s.jobs);
    case _ =>
      StepGrowsJobs(s, e);
      CallersKeep(s.callers, s.jobs, Step(s, e).jobs);
  }

  lemma LatestMoves(latest: map<Key, nat>, callers: seq<Caller>, me: Caller)
    requires LatestOk(latest, callers)
    ensures LatestOk(latest[me.key := |callers|], callers + [me])
  {
    var latest' := latest[me.key := |callers|];
    forall k | k in latest' ensures IsLatest(callers + [me], k, latest'[k]) {
      if k != me.key { assert IsLatest(callers, k, latest[k]); }
    }
  }

  lemma EnterKeepsLatest(s: State, key: Key)
    requires Inv(s)
    ensures LatestOk(Enter(s, key).latest, Enter(s, key).callers)
    ensures EmittersOk(Enter(s, key).inFlight, Enter(s, key).emitters, Enter(s, key).latest)
  {
    LatestMoves(s.latest, s.callers, Caller(key, if key in s.inFlight then s.inFlight[key] else |s.jobs|, None));
  }

  lemma StepKeepsLatest(s: State, e: Event)
    requires Inv(s) && Enabled(s, e)
    ensures LatestOk(Step(s, e).latest, Step(s, e).callers)
    ensures EmittersOk(Step(s, e).inFlight, Step(s, e).emitters, Step(s, e).latest)
  {
    match e
    case Call(key) => EnterKeepsLatest(s, key);
    case Answer(c) =>
      var t := Step(s, e);
      forall k | k in t.latest ensures IsLatest(t.callers, k, t.latest[k]) {
        assert IsLatest(s.callers, k, s.latest[k]);
      }
    case _ =>
  }

  lemma StepKeepsInv(s: State, e: Event)
    requires Inv(s) && Enabled(s, e)
    ensures Inv(Step(s, e))
  {
    StepKeepsFlights(s, e);
    StepKeepsCallers(s, e);
    StepKeepsLatest(s, e);
  }

  lemma {:induction false} RunKeepsInv(s: State, es: seq<Event>)
    requires Inv(s) && Valid(s, es)
    ensures Inv(Run(s, es))
    decreases |es|
  {
    if es != [] {
      StepKeepsInv(s, es[0]);
      RunKeepsInv(Step(s, es[0]), es[1..]);
    }
  }

  /** Under any interleaving a key has at most one job that has not ended, and an entry only while it has one. */
  lemma OneJobPerKey(es: seq<Event>, i: nat, j: nat)
    requires Valid(IDLE, es)
    requires i < |Run(IDLE, es).jobs| && j < |Run(IDLE, es).jobs|
    ensures var s := Run(IDLE, es);
      s.jobs[i].key == s.jobs[j].key && !s.jobs[i].stage.Cleared? && !s.jobs[j].stage.Cleared? ==> i == j
    ensures var s := Run(IDLE, es);
      forall k :: k in s.inFlight <==> exists m :: 0 <= m < |s.jobs| && s.jobs[m].key == k && !s.jobs[m].stage.Cleared?
  {
    RunKeepsInv(IDLE, es);
  }

  /** A settled job keeps its result for good. */
  lemma {:induction false} ResultStays(s: State, es: seq<Event>, j: nat)
    requires Valid(s, es) && j < |s.jobs| && !s.jobs[j].stage.Running?
    ensures j < |Run(s, es).jobs| && Run(s, es).jobs[j].result == s.jobs[j].result
    ensures !Run(s, es).jobs[j].stage.Running?
    decreases |es|
  {
    if es != [] { ResultStays(Step(s, es[0]), es[1..], j); }
  }

  /** All callers that joined one job are answered alike, with that job's result. */
  lemma JoinersAgree(es: seq<Event>, c: nat, d: nat)
    requires Valid(IDLE, es) && c < |Run(IDLE, es).callers| && d < |Run(IDLE, es).callers|
    ensures var s := Run(IDLE, es); var a, b := s.callers[c], s.callers[d];
      && (a.answer.Some? ==> a.job < |s.jobs| && s.jobs[a.job].key == a.key && a.answer.value == s.jobs[a.job].result)
      && (a.job == b.job && a.answer.Some? && b.answer.Some? ==> a.answer == b.answer)
  {
    RunKeepsInv(IDLE, es);
  }

  /** A job that has settled did so with the result it holds, in this run or before it. */
  lemma {:induction false} SettledBy(s: State, es: seq<Event>, j: nat)
    requires Valid(s, es) && j < |Run(s, es).jobs| && !Run(s, es).jobs[j].stage.Running?
    ensures || Settle(j, Run(s, es).jobs[j].result) in es
            || (j < |s.jobs| && !s.jobs[j].stage.Running? && s.jobs[j].result == Run(s, es).jobs[j].result)
    decreases |es|
  {
    if es != [] {
      var s1 := Step(s, es[0]);
      SettledBy(s1, es[1..], j);
      if Settle(j, Run(s, es).jobs[j].result) !in es[1..] { StepSettles(s, es[0], j); }
    }
  }

  /** One event settles a job only with the result it brings. */
  lemma StepSettles(s: State, e: Event, j: nat)
    requires Enabled(s, e) && j < |Step(s, e).jobs| && !Step(s, e).jobs[j].stage.Running?
    ensures || e == Settle(j, Step(s, e).jobs[j].result)
            || (j < |s.jobs| && !s.jobs[j].stage.Running? && s.jobs[j].result == Step(s, e).jobs[j].result)
  {
  }

  /** Over all runs, a caller is told exactly what the job it joined ended with. */
  lemma AnsweredWithOutcome(es: seq<Event>, c: nat)
    requires Valid(IDLE, es) && c < |Run(IDLE, es).callers| && Run(IDLE, es).callers[c].answer.Some?
    ensures var caller := Run(IDLE, es).callers[c]; Settle(caller.job, caller.answer.value) in es
  {
    RunKeepsInv(IDLE, es);
    var s := Run(IDLE, es);
    assert CallerOk(s.callers[c], s.jobs);
    SettledBy(IDLE, es, s.callers[c].job);
  }

  /** A job that has settled does not settle again. */
  lemma {:induction false} NoSecondSettle(s: State, es: seq<Event>, j: nat, r: Result)
    requires Valid(s, es) && j < |s.jobs| && !s.jobs[j].stage.Running?
    ensures Settle(j, r) !in es
    decreases |es|
  {
    if es != [] { NoSecondSettle(Step(s, es[0]), es[1..], j, r); }
  }

  /** A job ends once: the outcome that its callers are told is the only one. */
  lemma {:induction false} OneOutcome(s: State, es: seq<Event>, i: nat, k: nat)
    requires Valid(s, es) && i < |es| && k < |es| && es[i].Settle? && es[k].Settle? && es[i].job == es[k].job
    ensures i == k
    decreases |es|
  {
    if i == 0 && k != 0 {
      assert es[1..][k - 1] == es[k];
      NoSecondSettle(Step(s, es[0]), es[1..], es[0].job, es[k].result);
    } else if k == 0 && i != 0 {
      assert es[1..][i - 1] == es[i];
      NoSecondSettle(Step(s, es[0]), es[1..], es[0].job, es[i].result);
    } else if i != 0 {
      OneOutcome(Step(s, es[0]), es[1..], i - 1, k - 1);
    }
  }

  /** A caller whose job has been cleared can be answered, and then is. */
  lemma AnswerAnswers(s: State, c: nat)
    requires Enabled(s, Answer(c))
    ensures Step(s, Answer(c)).callers[c].answer == Some(s.jobs[s.callers[c].job].result)
  {
  }

  /** Until a job is cleared its events go to whoever called last for its key. */
  lemma EventsFollowLatest(es: seq<Event>, j: nat)
    requires Valid(IDLE, es) && j < |Run(IDLE, es).jobs| && !Run(IDLE, es).jobs[j].stage.Cleared?
    ensures IsLatest(Run(IDLE, es).callers, Run(IDLE, es).jobs[j].key, Target(Run(IDLE, es), j))
  {
    RunKeepsInv(IDLE, es);
  }

  /**
   Handlers stay on the client after the job was cleared: what they then emit goes to the latest caller
   only if another job of the key is in flight, and otherwise to the caller that started this one.
   */
  lemma LateEvents(es: seq<Event>, j: nat)
    requires Valid(IDLE, es) && j < |Run(IDLE, es).jobs| && Run(IDLE, es).jobs[j].stage.Cleared?
    ensures var s := Run(IDLE, es); var job := s.jobs[j];
      if exists m :: 0 <= m < |s.jobs| && s.jobs[m].key == job.key && !s.jobs[m].stage.Cleared?
      then IsLatest(s.callers, job.key, Target(s, j))
      else Target(s, j) == job.firstCaller
  {
    RunKeepsInv(IDLE, es);
  }

  /** Two callers share a job; what its client emits after the job was cleared goes to the first, not to the last. */
  lemma LateEventsGoToFirst()
    ensures exists es :: (
      var s := Run(IDLE, es);
      Valid(IDLE, es) && |s.jobs| == 1 && Target(s, 0) == 0 && IsLatest(s.callers, s.jobs[0].key, 1))
  {
    var es := [Call("k"), Call("k"), Settle(0, None), Clear(0)];
    var s1 := Step(IDLE, es[0]);
    var s2 := Step(s1, es[1]);
    var s3 := Step(s2, es[2]);
    var s4 := Step(s3, es[3]);
    var es3, es2, es1 := [es[3]], [es[2], es[3]], [es[1], es[2], es[3]];
    assert [es[3]] + [] == es3 && [es[2]] + es3 == es2 && [es[1]] + es2 == es1 && [es[0]] + es1 == es;
    FirstEvent(s3, es[3], []);
    FirstEvent(s2, es[2], es3);
    FirstEvent(s1, es[1], es2);
    FirstEvent(IDLE, es[0], es1);
    assert s4.callers == [Caller("k", 0, None), Caller("k", 0, None)];
  }

  lemma FirstEvent(s: State, e: Event, es: seq<Event>)
    ensures Run(s, [e] + es) == Run(Step(s, e), es)
    ensures Enabled(s, e) && Valid(Step(s, e), es) ==> Valid(s, [e] + es)
  {
    assert ([e] + es)[1..] == es;
  }
}
