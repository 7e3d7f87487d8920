/**
 What the operations of the scheduler come to, said in the fields of the state alone: start-up recovery and the
 cron tick reach every schedule they should, and a call writes what it was given and nothing else.
 */
module SchedulerEffects {
  import opened Common
  import opened Scheduler
  import opened SchedulerSafety
  import opened SchedulerTheorems

  // ---------------------------------------------------------------------------------------------
  // Start-up recovery serves every schedule it lists
  // ---------------------------------------------------------------------------------------------

  /** Timers are numbered, and start-up recovery lists no schedule twice. */
  ghost predicate Numbered(s: State) {
    && (forall t :: t in s.timers ==> t < s.nextTimer)
    && (s.init.Listed? ==> DistinctIds(s.init.jobs))
  }

  ghost predicate DistinctIds(jobs: seq<Job>) {
    forall i, j :: 0 <= i < j < |jobs| ==> jobs[i].id != jobs[j].id
  }

  /** When a timeout that is set now for due will fire: at that time, or after 1 ms if it is too long. */
  ghost predicate FiresAt(now: int, due: int, at: int) {
    at == if due - now <= 2147483647 then due else now + 1
  }

  /**
   What job j has come to between s and t: its schedule is held in `processingSchedules` if it is due;
   otherwise its name is registered, and if the name was free, for a timer of that schedule and time.
   */
  ghost predicate Served(s: State, t: State, j: Job) {
    if j.due <= s.now then j.id in t.processing
    else
      && j.id in t.registry
      && (j.id !in s.registry ==> (
            && t.registry[j.id] in t.timers && t.registry[j.id] !in s.timers
            && t.timers[t.registry[j.id]].id == j.id && FiresAt(s.now, j.due, t.timers[t.registry[j.id]].at)))
  }

  /** Nothing that stood before is given up. */
  ghost predicate Grows(s: State, t: State) {
    && s.processing <= t.processing && s.nextTimer <= t.nextTimer && t.now == s.now
    && (forall k :: k in s.timers ==> k in t.timers && t.timers[k] == s.timers[k])
    && (forall id :: id in s.registry ==> id in t.registry && t.registry[id] == s.registry[id])
  }

  lemma OneJobServed(s: State, j: Job)
    requires forall k :: k in s.timers ==> k < s.nextTimer
    ensures var t := CreateJob(s, j);
      && Served(s, t, j) && Grows(s, t)
      && (forall k :: k in t.timers ==> k < t.nextTimer)
      && (forall id :: id in t.registry ==> id in s.registry || id == j.id)
  {
  }

  lemma StaysServed(s: State, t: State, u: State, j: Job)
    requires Served(s, t, j) && Grows(t, u)
    ensures Served(s, u, j)
  {
  }

  /** A job of another schedule does not count as the one before it. */
  lemma ServedLater(s: State, t: State, u: State, i: Job, j: Job)
    requires Grows(s, t) && Served(t, u, j) && i.id != j.id
    requires forall id :: id in t.registry ==> id in s.registry || id == i.id
    ensures Served(s, u, j)
  {
  }

  /** The loop of start-up recovery. */
  lemma {:induction false} AllJobsServed(s: State, jobs: seq<Job>)
    requires DistinctIds(jobs) && forall k :: k in s.timers ==> k < s.nextTimer
    ensures var t := CreateJobs(s, jobs); Grows(s, t) && forall j :: j in jobs ==> Served(s, t, j)
    decreases |jobs|
  {
    if jobs != [] {
      var s1, u := CreateJob(s, jobs[0]), CreateJobs(s, jobs);
      OneJobServed(s, jobs[0]);
      AllJobsServed(s1, jobs[1..]);
      forall j | j in jobs ensures Served(s, u, j) {
        if j == jobs[0] {
          StaysServed(s, s1, u, j);
        } else {
          var i :| 0 <= i < |jobs| && jobs[i] == j;
          assert jobs[1..][i - 1] == j && jobs[0].id != jobs[i].id;
          ServedLater(s, s1, u, jobs[0], j);
        }
      }
    }
  }

  lemma CreateJobKeepsNumbered(s: State, job: Job)
    requires Numbered(s)
    ensures Numbered(CreateJob(s, job))
  {
  }

  lemma {:induction false} StartAllKeepsNumbered(s: State, ids: seq<Id>)
    requires Numbered(s)
    ensures Numbered(StartAll(s, ids))
  {
    StartAllKeeps(s, ids);
  }

  lemma {:induction false} CreateJobsKeepsNumbered(s: State, jobs: seq<Job>)
    requires Numbered(s)
    ensures Numbered(CreateJobs(s, jobs))
    decreases |jobs|
  {
    if jobs != [] {
      CreateJobKeepsNumbered(s, jobs[0]);
      CreateJobsKeepsNumbered(CreateJob(s, jobs[0]), jobs[1..]);
    }
  }

  lemma ContinueKeepsNumbered(s: State, c: nat, io: Io)
    requires Numbered(s) && c in s.calls
    ensures Numbered(Continue(s, c, io))
  {
    var call, t := s.calls[c], Settle(s, c, io);
    assert Numbered(t);
    if call.Created? || call.UpdateWritten? { CreateJobKeepsNumbered(t, Job(call.id, call.due)); }
  }

  lemma StepKeepsNumbered(s: State, e: Event)
    requires Numbered(s) && Possible(s, e)
    ensures Numbered(Step(s, e))
  {
    match e
    case CallStep(c, io) => ContinueKeepsNumbered(s, c, io);
    case CronRun(k) => StartAllKeepsNumbered(s.(ticks := s.ticks[..k] + s.ticks[k + 1..]), s.ticks[k]);
    case InitRun => CreateJobsKeepsNumbered(s.(init := Resetting), s.init.jobs);
    case _ =>
  }

  lemma {:induction false} RunKeepsNumbered(env: Env, s: State, es: seq<Event>)
    requires Numbered(s) && Valid(env, s, es)
    ensures Numbered(Run(s, es))
    decreases |es|
  {
    if es != [] {
      StepKeepsNumbered(s, es[0]);
      RunKeepsNumbered(env, Step(s, es[0]), es[1..]);
    }
  }

  /**
   In every reachable state, when the loop of start-up recovery comes, every listed schedule that is due
   gets a live activation, and every other one a timer for its own time, unless its name was taken.
   */
  lemma InitServesAll(env: Env, db: map<Id, Doc>, n: Id, now: int, es: seq<Event>, j: Job)
    requires Fresh(db, n) && Valid(env, Boot(db, n, now), es)
    requires Run(Boot(db, n, now), es).init.Listed? && j in Run(Boot(db, n, now), es).init.jobs
    ensures var s := Run(Boot(db, n, now), es); var t := Step(s, InitRun);
      && Served(s, t, j)
      && (j.due <= s.now ==> exists a :: Live(t.acts, a) && t.acts[a].sid == j.id)
  {
    var s := Run(Boot(db, n, now), es);
    RunKeepsNumbered(env, Boot(db, n, now), es);
    RunKeepsBase(env, Boot(db, n, now), es);
    AllJobsServed(s.(init := Resetting), s.init.jobs);
    StepKeepsBase(s, InitRun);
  }

  /** Every schedule that is PENDING when start-up recovery looks is listed, with its time. */
  lemma PendingIsListed(s: State, jobs: seq<Job>, id: Id)
    requires Possible(s, InitQuery(jobs)) && id in s.db && s.db[id].status == Pending
    ensures Step(s, InitQuery(jobs)).init.Listed? && Job(id, s.db[id].due) in Step(s, InitQuery(jobs)).init.jobs
  {
  }

  /** Every schedule that is PENDING and due when a tick looks is held by a live activation once the tick has run. */
  lemma DueIsPickedUp(env: Env, db: map<Id, Doc>, n: Id, now: int, es: seq<Event>, ids: seq<Id>, id: Id)
    requires Fresh(db, n) && Valid(env, Boot(db, n, now), es)
    requires var s := Run(Boot(db, n, now), es);
      Possible(s, CronQuery(ids)) && id in s.db && s.db[id].status == Pending && s.db[id].due <= s.now
    ensures var s := Run(Boot(db, n, now), es); var t := Step(Step(s, CronQuery(ids)), CronRun(|s.ticks|));
      id in t.processing && exists a :: Live(t.acts, a) && t.acts[a].sid == id
  {
    var s := Run(Boot(db, n, now), es);
    RunKeepsBase(env, Boot(db, n, now), es);
    TickPicksUp(s, ids, id);
  }

  lemma TickPicksUp(s: State, ids: seq<Id>, id: Id)
    requires Base(s) && Possible(s, CronQuery(ids)) && id in s.db && s.db[id].status == Pending && s.db[id].due <= s.now
    ensures var t := Step(Step(s, CronQuery(ids)), CronRun(|s.ticks|));
      id in t.processing && exists a :: Live(t.acts, a) && t.acts[a].sid == id
  {
    var s1 := s.(ticks := s.ticks + [ids]);
    assert Step(s, CronQuery(ids)) == s1 && s1.ticks[|s.ticks|] == ids && id in ids;
    assert Base(s1);
    CronTickCovers(s1, |s.ticks|);
  }

  // ---------------------------------------------------------------------------------------------
  // What a call writes
  // ---------------------------------------------------------------------------------------------

  /** Every other document is as it was. */
  ghost predicate OthersSame(db: map<Id, Doc>, db': map<Id, Doc>, id: Id) {
    forall i :: i != id ==> (i in db' <==> i in db) && (i in db ==> db'[i] == db[i])
  }

  /** A call whose write takes effect. */
  ghost predicate Writes(s: State, c: nat, io: Io) {
    c in s.calls && !io.Lost?
  }

  lemma CreateJobKeepsDb(s: State, j: Job)
    ensures CreateJob(s, j).db == s.db && CreateJob(s, j).nextId == s.nextId
  {
    CreateJobKeeps(s, j);
  }

  lemma CallDb(s: State, c: nat, io: Io)
    requires c in s.calls
    ensures Step(s, CallStep(c, io)).db == DbCall(s.calls[c], s.db, s.nextId, io)
  {
    var call, t := s.calls[c], Settle(s, c, io);
    if call.Created? || call.UpdateWritten? { CreateJobKeepsDb(t, Job(call.id, call.due)); }
  }

  /** An update writes every field it carries, and keeps the others. */
  lemma UpdateWrites(s: State, c: nat, io: Io)
    requires Writes(s, c, io) && s.calls[c].UpdateWriting? && s.calls[c].id in s.db
    ensures var id, dto, t := s.calls[c].id, s.calls[c].dto, Step(s, CallStep(c, io));
      && id in t.db && OthersSame(s.db, t.db, id)
      && t.db[id].status == (if dto.status.Some? then dto.status.value else s.db[id].status)
      && t.db[id].recipients == (if dto.recipients.Some? then dto.recipients.value else s.db[id].recipients)
      && t.db[id].due == (if dto.due.Some? then dto.due.value else s.db[id].due)
  {
  }

  /** A creation adds the document under a new id. */
  lemma CreateWrites(s: State, c: nat, io: Io)
    requires Writes(s, c, io) && s.calls[c].Creating? && Fresh(s.db, s.nextId)
    ensures var doc, t := s.calls[c].doc, Step(s, CallStep(c, io));
      && s.nextId !in s.db && s.nextId in t.db && OthersSame(s.db, t.db, s.nextId) && t.nextId > s.nextId
      && t.db[s.nextId].status == doc.status && t.db[s.nextId].recipients == doc.recipients
      && t.db[s.nextId].due == doc.due
  {
  }

  /** A cancellation sets the status and nothing else. */
  lemma CancelWrites(s: State, c: nat, io: Io)
    requires Writes(s, c, io) && s.calls[c].CancelWriting? && s.calls[c].id in s.db
    ensures var id, t := s.calls[c].id, Step(s, CallStep(c, io));
      && id in t.db && OthersSame(s.db, t.db, id) && t.db[id].status == Cancelled
      && t.db[id].recipients == s.db[id].recipients && t.db[id].due == s.db[id].due
  {
  }

  /** A removal removes the document. */
  lemma RemoveWrites(s: State, c: nat, io: Io)
    requires Writes(s, c, io) && s.calls[c].RemoveWriting?
    ensures var id, t := s.calls[c].id, Step(s, CallStep(c, io)); id !in t.db && OthersSame(s.db, t.db, id)
  {
  }

  /** A call that is not at its write, or whose write is lost or finds nothing, leaves the database alone. */
  lemma NothingElseWrites(s: State, c: nat, io: Io)
    requires c in s.calls
    requires io.Lost? || !(s.calls[c].Creating? || s.calls[c].UpdateWriting? || s.calls[c].CancelWriting?
                           || s.calls[c].RemoveWriting?)
             || (!s.calls[c].Creating? && s.calls[c].id !in s.db)
    ensures Step(s, CallStep(c, io)).db == s.db
  {
    CallDb(s, c, io);
  }

  /** The reset of start-up recovery touches the status of PROCESSING schedules, and nothing else. */
  lemma ResetWrites(s: State, io: Io, id: Id)
    requires id in s.db
    ensures var t := Step(s, InitReset(io));
      && t.db.Keys == s.db.Keys
      && t.db[id].recipients == s.db[id].recipients && t.db[id].due == s.db[id].due
      && t.db[id].status == (if s.db[id].status == Processing && !io.Lost? then Pending else s.db[id].status)
  {
  }

  /** An activation writes the status of its own schedule, and nothing else. */
  lemma ActWrites(s: State, a: nat, io: Io, id: Id)
    requires a in s.acts && id in s.db
    ensures var t := Step(s, ActStep(a, io));
      && t.db.Keys == s.db.Keys
      && t.db[id].recipients == s.db[id].recipients && t.db[id].due == s.db[id].due
      && (id != s.acts[a].sid ==> t.db[id] == s.db[id])
  {
  }

  /** Deleting a timeout frees the name and kills the timer registered under it, and no other. */
  lemma DeletesOne(s: State, id: Id)
    ensures var t := DeleteTimeout(s, id);
      && t.registry == s.registry - {id}
      && (forall k :: k in t.timers <==> k in s.timers && !(id in s.registry && s.registry[id] == k))
      && (forall k :: k in t.timers ==> t.timers[k] == s.timers[k])
  {
    if id !in s.registry { assert s.registry - {id} == s.registry; }
  }

  // ---------------------------------------------------------------------------------------------
  // An update reaches whoever reads after it
  // ---------------------------------------------------------------------------------------------

  /** No event writes the recipients of the schedule. */
  ghost predicate LeavesRecipients(s: State, e: Event, id: Id) {
    !(e.CallStep? && !e.io.Lost? && e.c in s.calls && s.calls[e.c].UpdateWriting? && s.calls[e.c].id == id
      && s.calls[e.c].dto.recipients.Some?)
  }

  ghost predicate AllLeaveRecipients(s: State, es: seq<Event>, id: Id)
    decreases |es|
  {
    es == [] || (LeavesRecipients(s, es[0], id) && AllLeaveRecipients(Step(s, es[0]), es[1..], id))
  }

  /** Activation a, if it is one of the schedule, has read nothing but these recipients. */
  ghost predicate ReadsOnly(act: Act, id: Id, rs: seq<string>) {
    act.sid == id ==>
      && (act.phase.Checking? && act.phase.found.Some? ==> act.phase.found.value.recipients == rs)
      && (act.snap.Some? ==> act.snap.value.recipients == rs)
  }

  /** Those that had read before are among older. */
  ghost predicate Holding(s: State, id: Id, rs: seq<string>, older: set<nat>) {
    && id < s.nextId && Fresh(s.db, s.nextId) && (id in s.db ==> s.db[id].recipients == rs)
    && (forall a :: a in older ==> a < s.nextAct)
    && (forall a :: a in s.acts && a !in older ==> ReadsOnly(s.acts[a], id, rs))
  }

  lemma StartHolds(s: State, i: Id, id: Id, rs: seq<string>, older: set<nat>)
    requires Holding(s, id, rs, older)
    ensures Holding(Start(s, i), id, rs, older)
  {
  }

  lemma {:induction false} StartAllHolds(s: State, ids: seq<Id>, id: Id, rs: seq<string>, older: set<nat>)
    requires Holding(s, id, rs, older)
    ensures Holding(StartAll(s, ids), id, rs, older)
    decreases |ids|
  {
    if ids != [] {
      StartHolds(s, ids[0], id, rs, older);
      StartAllHolds(Start(s, ids[0]), ids[1..], id, rs, older);
    }
  }

  lemma CreateJobHolds(s: State, job: Job, id: Id, rs: seq<string>, older: set<nat>)
    requires Holding(s, id, rs, older)
    ensures Holding(CreateJob(s, job), id, rs, older)
  {
    if job.due <= s.now { StartHolds(s, job.id, id, rs, older); }
  }

  lemma {:induction false} CreateJobsHold(s: State, jobs: seq<Job>, id: Id, rs: seq<string>, older: set<nat>)
    requires Holding(s, id, rs, older)
    ensures Holding(CreateJobs(s, jobs), id, rs, older)
    decreases |jobs|
  {
    if jobs != [] {
      CreateJobHolds(s, jobs[0], id, rs, older);
      CreateJobsHold(CreateJob(s, jobs[0]), jobs[1..], id, rs, older);
    }
  }

  lemma SettleHolds(s: State, c: nat, io: Io, id: Id, rs: seq<string>, older: set<nat>)
    requires Holding(s, id, rs, older) && c in s.calls && LeavesRecipients(s, CallStep(c, io), id)
    ensures Holding(Settle(s, c, io), id, rs, older)
  {
    var t := Settle(s, c, io);
    assert t.acts == s.acts && t.nextAct == s.nextAct;
  }

  lemma ContinueHolds(s: State, c: nat, io: Io, id: Id, rs: seq<string>, older: set<nat>)
    requires Holding(s, id, rs, older) && c in s.calls && LeavesRecipients(s, CallStep(c, io), id)
    ensures Holding(Continue(s, c, io), id, rs, older)
  {
    var call := s.calls[c];
    SettleHolds(s, c, io, id, rs, older);
    if call.Created? || call.UpdateWritten? {
      CreateJobHolds(Settle(s, c, io), Job(call.id, call.due), id, rs, older);
    }
  }

  lemma NextReadsOnly(act: Act, db: map<Id, Doc>, now: int, io: Io, id: Id, rs: seq<string>)
    requires ReadsOnly(act, id, rs) && (id in db ==> db[id].recipients == rs)
    ensures ReadsOnly(NextAct(act, Find(db, act.sid), now, io), id, rs)
  {
  }

  lemma AdvanceHolds(s: State, a: nat, io: Io, id: Id, rs: seq<string>, older: set<nat>)
    requires Holding(s, id, rs, older) && a in s.acts
    ensures Holding(Advance(s, a, io), id, rs, older)
  {
    var t := Advance(s, a, io);
    if id in s.db { ActWrites(s, a, io, id); }
    assert t.db.Keys == s.db.Keys;
    if a !in older { NextReadsOnly(s.acts[a], s.db, s.now, io, id, rs); }
  }

  lemma StepHolds(s: State, e: Event, id: Id, rs: seq<string>, older: set<nat>)
    requires Holding(s, id, rs, older) && Possible(s, e) && LeavesRecipients(s, e, id)
    ensures Holding(Step(s, e), id, rs, older)
  {
    match e
    case CallStep(c, io) => ContinueHolds(s, c, io, id, rs, older);
    case CronRun(k) =>
      StartAllHolds(s.(ticks := s.ticks[..k] + s.ticks[k + 1..]), s.ticks[k], id, rs, older);
    case InitRun => CreateJobsHold(s.(init := Resetting), s.init.jobs, id, rs, older);
    case TimerFire(t) => StartHolds(s.(timers := s.timers - {t}), s.timers[t].id, id, rs, older);
    case ActStep(a, io) => AdvanceHolds(s, a, io, id, rs, older);
    case InitReset(io) => if id in s.db { ResetWrites(s, io, id); }
    case _ =>
  }

  lemma {:induction false} RunHolds(env: Env, s: State, es: seq<Event>, id: Id, rs: seq<string>, older: set<nat>)
    requires Holding(s, id, rs, older) && Valid(env, s, es) && AllLeaveRecipients(s, es, id)
    ensures Holding(Run(s, es), id, rs, older)
    decreases |es|
  {
    if es != [] {
      StepHolds(s, es[0], id, rs, older);
      RunHolds(env, Step(s, es[0]), es[1..], id, rs, older);
    }
  }

  /** Activation a has yet to read: it has not started, or its lookup is under way. */
  ghost predicate ReadsLater(s: State, a: nat) {
    a !in s.acts || (s.acts[a].phase.Reading? && s.acts[a].snap.None?)
  }

  /**
   Once an update of a schedule's recipients has taken effect, and until another does, an activation of it
   that has yet to read sends to the new recipients, in order, and to nobody else.
   */
  lemma UpdateReachesReaders(env: Env, db: map<Id, Doc>, n: Id, now: int, before: seq<Event>, c: nat, io: Io,
                             after: seq<Event>, a: nat)
    requires Fresh(db, n) && Valid(env, Boot(db, n, now), before)
    requires var s := Run(Boot(db, n, now), before);
      && Enabled(env, s, CallStep(c, io)) && Writes(s, c, io) && s.calls[c].UpdateWriting?
      && s.calls[c].id in s.db && s.calls[c].dto.recipients.Some?
      && Valid(env, Step(s, CallStep(c, io)), after)
      && AllLeaveRecipients(Step(s, CallStep(c, io)), after, s.calls[c].id)
      && ReadsLater(Step(s, CallStep(c, io)), a)
    ensures var s := Run(Boot(db, n, now), before); var t := Run(Step(s, CallStep(c, io)), after);
      a in t.acts && t.acts[a].sid == s.calls[c].id ==> t.acts[a].attempts <= s.calls[c].dto.recipients.value
  {
    var s0 := Boot(db, n, now);
    var s := Run(s0, before);
    var id, rs, s1 := s.calls[c].id, s.calls[c].dto.recipients.value, Step(s, CallStep(c, io));
    RunKeepsBase(env, s0, before);
    RunKeepsFresh(env, s0, before);
    UpdateWrites(s, c, io);
    StepKeepsBase(s, CallStep(c, io));
    StepKeepsFresh(s, CallStep(c, io));
    var older := set b | b in s1.acts && !ReadsLater(s1, b);
    assert Holding(s1, id, rs, older);
    RunHolds(env, s1, after, id, rs, older);
    RunKeepsBase(env, s1, after);
    var t := Run(s1, after);
    if a in t.acts && t.acts[a].sid == id { assert ActOk(t.acts[a]); }
  }

  lemma StepKeepsFresh(s: State, e: Event)
    requires Fresh(s.db, s.nextId) && Possible(s, e)
    ensures Fresh(Step(s, e).db, Step(s, e).nextId) && s.nextId <= Step(s, e).nextId
  {
    match e
    case CallStep(c, io) => ContinueKeepsFresh(s, c, io);
    case CronRun(k) => StartAllKeeps(s.(ticks := s.ticks[..k] + s.ticks[k + 1..]), s.ticks[k]);
    case InitRun => CreateJobsKeeps(s.(init := Resetting), s.init.jobs);
    case _ =>
  }

  lemma ContinueKeepsFresh(s: State, c: nat, io: Io)
    requires Fresh(s.db, s.nextId) && c in s.calls
    ensures Fresh(Continue(s, c, io).db, Continue(s, c, io).nextId) && s.nextId <= Continue(s, c, io).nextId
  {
    var call, t := s.calls[c], Settle(s, c, io);
    assert Fresh(t.db, t.nextId);
    if call.Created? || call.UpdateWritten? { CreateJobKeepsDb(t, Job(call.id, call.due)); }
  }

  lemma {:induction false} RunKeepsFresh(env: Env, s: State, es: seq<Event>)
    requires Fresh(s.db, s.nextId) && Valid(env, s, es)
    ensures Fresh(Run(s, es).db, Run(s, es).nextId)
    decreases |es|
  {
    if es != [] {
      StepKeepsFresh(s, es[0]);
      RunKeepsFresh(env, Step(s, es[0]), es[1..]);
    }
  }
}
