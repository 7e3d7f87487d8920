/**
 The scheduling service as a step system.

 Between two awaits the service runs without interruption, and everything else may happen at an
 await.  A state therefore holds the database, the in-memory set `processingSchedules`, the live
 timers, the timer registry, and one record for every suspended call: activations of
 `processSchedule`, HTTP calls, cron ticks and the start-up pass.  An event is one uninterrupted
 stretch, or the moment at which one database operation takes effect.
 */
module Scheduler {
  import opened Common

  type Id = nat

  datatype Status = Pending | Processing | Completed | Failed | Cancelled

  datatype Doc = Doc(status: Status, recipients: seq<string>, due: int)

  /** Fields an update may carry; the DTO lets it carry a status. */
  datatype Dto = Dto(due: Option<int>, recipients: Option<seq<string>>, status: Option<Status>)

  /** How an awaited operation ends: it works, it throws without effect, or it throws after taking effect. */
  datatype Io = Ok | Lost | Torn

  /** Where an activation of `processSchedule` is suspended. */
  datatype Phase =
    | Reading                       // findById issued
    | Checking(found: Option<Doc>)  // findById answered, the status not tested yet
    | Marking                       // PROCESSING write issued
    | Locating                      // account lookup issued
    | Sending(i: nat)               // sendMessage to recipient i issued
    | Waiting(i: nat)               // delay after recipient i
    | Closing                       // final status write issued
    | Rescuing                      // FAILED write of the catch block issued
    | Leaving                       // about to run the finally block
    | Done

  /** `attempts`, `threw`, `tripped`, `wrote` and `passedAt` record what the activation did. */
  datatype Act = Act(
    sid: Id, phase: Phase, snap: Option<Doc>,
    attempts: seq<string>, threw: bool, tripped: bool, wrote: Option<Status>, passedAt: int)

  /** Where an HTTP call is suspended. */
  datatype Call =
    | Creating(doc: Doc)
    | Created(id: Id, due: int)
    | UpdateGot(id: Id, dto: Dto, doc: Doc)
    | UpdateWriting(id: Id, dto: Dto)
    | UpdateWritten(id: Id, due: int)
    | CancelGot(id: Id, doc: Doc)
    | CancelWriting(id: Id)
    | RemoveGot(id: Id, doc: Doc)
    | RemoveWriting(id: Id)

  datatype Job = Job(id: Id, due: int)
  datatype Timer = Timer(id: Id, at: int)

  datatype InitPhase = NotStarted | Listed(jobs: seq<Job>) | Resetting | Ready | Aborted

  datatype State = State(
    now: int,
    db: map<Id, Doc>, nextId: Id,
    processing: set<Id>,
    acts: map<nat, Act>, nextAct: nat,
    timers: map<nat, Timer>, nextTimer: nat,
    registry: map<Id, nat>,
    calls: map<nat, Call>, nextCall: nat,
    ticks: seq<seq<Id>>,
    init: InitPhase,
    sends: map<Id, seq<string>>)

  /** A timeout longer than this many milliseconds fires after one millisecond. */
  const MAX_TIMEOUT: int := 0x7FFF_FFFF

  // ---------------------------------------------------------------------------------------------
  // Uninterrupted stretches
  // ---------------------------------------------------------------------------------------------

  function Begun(id: Id): Act {
    Act(id, Reading, None, [], false, false, None, 0)
  }

  /** `processSchedule` up to its first await. */
  function Start(s: State, id: Id): State {
    if id in s.processing then s
    else
      s.(processing := s.processing + {id},
         acts := s.acts[s.nextAct := Begun(id)],
         nextAct := s.nextAct + 1)
  }

  /** The loop of `handleCron`. */
  function StartAll(s: State, ids: seq<Id>): State
    decreases |ids|
  {
    if ids == [] then s else StartAll(Start(s, ids[0]), ids[1..])
  }

  function FireTime(now: int, due: int): int {
    if due - now > MAX_TIMEOUT then now + 1 else due
  }

  /** `createScheduleJob`; a name already registered leaves the new timer running but unregistered. */
  function CreateJob(s: State, job: Job): State {
    if job.due <= s.now then Start(s, job.id)
    else
      var s1 := s.(timers := s.timers[s.nextTimer := Timer(job.id, FireTime(s.now, job.due))],
                   nextTimer := s.nextTimer + 1);
      if job.id in s.registry then s1
      else s1.(registry := s.registry[job.id := s.nextTimer])
  }

  /** The loop of `initSchedules`. */
  function CreateJobs(s: State, jobs: seq<Job>): State
    decreases |jobs|
  {
    if jobs == [] then s else CreateJobs(CreateJob(s, jobs[0]), jobs[1..])
  }

  function DeleteTimeout(s: State, id: Id): State {
    if id in s.registry then
      s.(timers := s.timers - {s.registry[id]}, registry := s.registry - {id})
    else s
  }

  function WriteStatus(db: map<Id, Doc>, id: Id, status: Status): map<Id, Doc> {
    if id in db then db[id := db[id].(status := status)] else db
  }

  function Recipients(act: Act): seq<string> {
    if act.snap.Some? then act.snap.value.recipients else []
  }

  function Sent(sends: map<Id, seq<string>>, id: Id): seq<string> {
    if id in sends then sends[id] else []
  }

  /** The loop head of `processSchedule`: issue send i, or leave the loop. */
  function Issue(act: Act, i: nat): Act {
    var rs := Recipients(act);
    if i < |rs| then act.(phase := Sending(i), attempts := act.attempts + [rs[i]])
    else act.(phase := Closing)
  }

  function Trip(act: Act): Act {
    act.(phase := Rescuing, tripped := true)
  }

  function Outcome(act: Act): Status {
    if act.threw then Failed else Completed
  }

  /** The next record of an activation; found is what findById would answer now. */
  function NextAct(act: Act, found: Option<Doc>, now: int, io: Io): Act {
    match act.phase
    case Reading => if io.Ok? then act.(phase := Checking(found)) else Trip(act)
    case Checking(f) =>
      if f.Some? && f.value.status == Pending
      then act.(phase := Marking, snap := f, passedAt := now)
      else act.(phase := Done)
    case Marking => if io.Ok? then act.(phase := Locating) else Trip(act)
    case Locating => if io.Ok? then Issue(act, 0) else Trip(act)
    case Sending(i) =>
      if !io.Ok? then act.(phase := Closing, threw := true)
      else if i + 1 < |Recipients(act)| then act.(phase := Waiting(i))
      else act.(phase := Closing)
    case Waiting(i) => Issue(act, i + 1)
    case Closing =>
      var act1 := if io.Lost? then act else act.(wrote := Some(Outcome(act)));
      if io.Ok? then act1.(phase := Leaving) else Trip(act1)
    case Rescuing => act.(phase := Leaving, wrote := if io.Lost? then act.wrote else Some(Failed))
    case Leaving => act.(phase := Done)
    case Done => act
  }

  /** The status write that takes effect when an activation is resumed, if any. */
  function StatusWrite(act: Act, io: Io): Option<Status> {
    if io.Lost? then None
    else match act.phase
      case Marking => Some(Processing)
      case Closing => Some(Outcome(act))
      case Rescuing => Some(Failed)
      case _ => None
  }

  function DbAfter(db: map<Id, Doc>, act: Act, io: Io): map<Id, Doc> {
    var w := StatusWrite(act, io);
    if w.Some? then WriteStatus(db, act.sid, w.value) else db
  }

  /** Resumes activation a of `processSchedule`; io says how the awaited operation ended. */
  function Advance(s: State, a: nat, io: Io): State
    requires a in s.acts
  {
    var act := s.acts[a];
    var next := NextAct(act, Find(s.db, act.sid), s.now, io);
    s.(db := DbAfter(s.db, act, io),
       acts := s.acts[a := next],
       processing := if next.phase.Done? then s.processing - {act.sid} else s.processing,
       sends := if |act.attempts| < |next.attempts|
                then s.sends[act.sid := Sent(s.sends, act.sid) + next.attempts[|act.attempts|..]]
                else s.sends)
  }

  function ApplyDto(dto: Dto, doc: Doc): Doc {
    Doc(if dto.status.Some? then dto.status.value else doc.status,
        if dto.recipients.Some? then dto.recipients.value else doc.recipients,
        if dto.due.Some? then dto.due.value else doc.due)
  }

  function OpenCall(s: State, call: Call): State {
    s.(calls := s.calls[s.nextCall := call], nextCall := s.nextCall + 1)
  }

  /** Where an HTTP call goes next, or None when it has answered or thrown. */
  function NextCall(call: Call, db: map<Id, Doc>, nextId: Id, now: int, io: Io): Option<Call> {
    match call
    case Creating(doc) => if io.Ok? then Some(Created(nextId, doc.due)) else None
    case UpdateGot(id, dto, doc) =>
      if doc.status in {Completed, Processing} then None
      else if dto.due.Some? && dto.due.value <= now then None
      else Some(UpdateWriting(id, dto))
    case UpdateWriting(id, dto) =>
      if io.Ok? && id in db && dto.due.Some? then Some(UpdateWritten(id, dto.due.value)) else None
    case CancelGot(id, doc) => if doc.status != Pending then None else Some(CancelWriting(id))
    case RemoveGot(id, doc) => if doc.status == Processing then None else Some(RemoveWriting(id))
    case _ => None
  }

  /** The database after the operation an HTTP call waits for. */
  function DbCall(call: Call, db: map<Id, Doc>, nextId: Id, io: Io): map<Id, Doc> {
    if io.Lost? then db
    else match call
      case Creating(doc) => db[nextId := doc]
      case UpdateWriting(id, dto) => if id in db then db[id := ApplyDto(dto, db[id])] else db
      case CancelWriting(id) => WriteStatus(db, id, Cancelled)
      case RemoveWriting(id) => db - {id}
      case _ => db
  }

  /** The schedule whose timeout the call deletes when it goes on to next. */
  function Drops(call: Call, next: Option<Call>): Option<Id> {
    match call
    case UpdateGot(id, dto, _) => if next.Some? && dto.due.Some? then Some(id) else None
    case CancelGot(id, _) => if next.Some? then Some(id) else None
    case RemoveGot(id, _) => if next.Some? then Some(id) else None
    case _ => None
  }

  /** HTTP call c up to its next await, apart from a final `createScheduleJob`. */
  function Settle(s: State, c: nat, io: Io): State
    requires c in s.calls
  {
    var call := s.calls[c];
    var next := NextCall(call, s.db, s.nextId, s.now, io);
    var drop := Drops(call, next);
    var s1 := if drop.Some? then DeleteTimeout(s, drop.value) else s;
    s1.(db := DbCall(call, s.db, s.nextId, io),
        nextId := if call.Creating? && !io.Lost? then s.nextId + 1 else s.nextId,
        calls := if next.Some? then s.calls[c := next.value] else s.calls - {c})
  }

  /** Resumes HTTP call c. */
  function Continue(s: State, c: nat, io: Io): State
    requires c in s.calls
  {
    var call := s.calls[c];
    var s1 := Settle(s, c, io);
    if call.Created? || call.UpdateWritten? then CreateJob(s1, Job(call.id, call.due)) else s1
  }

  /** The update of `initSchedules` that returns every PROCESSING schedule to PENDING. */
  function ResetDb(db: map<Id, Doc>): (r: map<Id, Doc>)
  {
    map id | id in db :: if db[id].status == Processing then db[id].(status := Pending) else db[id]
  }

  // ---------------------------------------------------------------------------------------------
  // Events, runs
  // ---------------------------------------------------------------------------------------------

  datatype Event =
    | Tick(ms: nat)
    | Create(doc: Doc)
    | Update(id: Id, dto: Dto)
    | Cancel(id: Id)
    | Remove(id: Id)
    | CallStep(c: nat, io: Io)
    | CronQuery(ids: seq<Id>)
    | CronRun(k: nat)
    | InitQuery(jobs: seq<Job>)
    | InitRun
    | InitReset(io: Io)
    | TimerFire(t: nat)
    | ActStep(a: nat, io: Io)

  /** What the environment may do. */
  datatype Env = Env(
    statusUpdates: bool,  // an update may carry a status
    rescueFails: bool,    // the FAILED write of the catch block may throw without effect
    farTimers: bool,      // a schedule may lie more than MAX_TIMEOUT ahead
    openCalls: bool,      // other events may come between the steps of an HTTP call
    earlyCalls: bool,     // HTTP calls may start before start-up recovery has set its timers
    postponing: Postponing)

  /** What may stand for a schedule when an update moves it to a later time. */
  datatype Postponing = Postponing(
    readers: bool,   // an activation that has yet to read it
    ticks: bool,     // the list of a cron tick that has yet to start it
    listing: bool,   // the list of start-up recovery that has yet to set its timer
    jobs: bool,      // another call that has yet to set its timer
    timers: bool)    // a timer

  predicate Near(env: Env, now: int, due: int) {
    env.farTimers || due - now <= MAX_TIMEOUT
  }

  predicate BeforeTimers(init: InitPhase) {
    init.NotStarted? || init.Listed?
  }

  predicate Opens(e: Event) {
    e.Create? || e.Update? || e.Cancel? || e.Remove?
  }

  /** The schedule that the event moves to a later time, if any. */
  function Postponed(s: State, e: Event): Option<Id> {
    if e.CallStep? && !e.io.Lost? && e.c in s.calls && s.calls[e.c].UpdateWriting? then
      var call := s.calls[e.c];
      if call.id in s.db && call.dto.due.Some? && call.dto.due.value > s.db[call.id].due then Some(call.id) else None
    else None
  }

  ghost predicate ReaderFor(acts: map<nat, Act>, id: Id) {
    exists a :: a in acts && acts[a].phase.Reading? && acts[a].sid == id
  }

  ghost predicate TickFor(ticks: seq<seq<Id>>, id: Id) {
    exists k :: 0 <= k < |ticks| && id in ticks[k]
  }

  ghost predicate ListingFor(init: InitPhase, id: Id) {
    init.Listed? && exists j :: j in init.jobs && j.id == id
  }

  ghost predicate JobFor(calls: map<nat, Call>, id: Id) {
    exists c :: c in calls && (calls[c].Created? || calls[c].UpdateWritten?) && calls[c].id == id
  }

  ghost predicate TimerFor(timers: map<nat, Timer>, id: Id) {
    exists t :: t in timers && timers[t].id == id
  }

  ghost predicate MayPostpone(p: Postponing, s: State, id: Id) {
    && (p.readers || !ReaderFor(s.acts, id))
    && (p.ticks || !TickFor(s.ticks, id))
    && (p.listing || !ListingFor(s.init, id))
    && (p.jobs || !JobFor(s.calls, id))
    && (p.timers || !TimerFor(s.timers, id))
  }

  ghost predicate Lists(db: map<Id, Doc>, ids: seq<Id>, now: int) {
    forall id :: id in ids <==> id in db && db[id].status == Pending && db[id].due <= now
  }

  ghost predicate ListsJobs(db: map<Id, Doc>, jobs: seq<Job>) {
    && (forall j :: j in jobs ==> j.id in db && db[j.id].status == Pending && db[j.id].due == j.due)
    && (forall id :: id in db && db[id].status == Pending ==> Job(id, db[id].due) in jobs)
    && (forall i, j :: 0 <= i < j < |jobs| ==> jobs[i].id != jobs[j].id)
  }

  ghost predicate Possible(s: State, e: Event) {
    match e
    case Tick(_) => true
    case Create(doc) => doc.status == Pending && doc.due > s.now
    case Update(id, _) => id in s.db
    case Cancel(id) => id in s.db
    case Remove(id) => id in s.db
    case CallStep(c, _) => c in s.calls
    case CronQuery(ids) => Lists(s.db, ids, s.now)
    case CronRun(k) => k < |s.ticks|
    case InitQuery(jobs) => s.init.NotStarted? && ListsJobs(s.db, jobs)
    case InitRun => s.init.Listed?
    case InitReset(_) => s.init.Resetting?
    case TimerFire(t) => t in s.timers && s.timers[t].at <= s.now
    case ActStep(a, _) => a in s.acts && s.acts[a].phase != Done
  }

  ghost predicate Allowed(env: Env, s: State, e: Event) {
    && (env.statusUpdates || (e.Update? ==> e.dto.status.None?))
    && (env.rescueFails || (e.ActStep? && e.a in s.acts && s.acts[e.a].phase.Rescuing? ==> !e.io.Lost?))
    && (env.openCalls || (s.calls != map[] ==> e.CallStep?))
    && (env.earlyCalls || (Opens(e) ==> !BeforeTimers(s.init)))
    && (Postponed(s, e).Some? ==> MayPostpone(env.postponing, s, Postponed(s, e).value))
    && (e.Create? ==> Near(env, s.now, e.doc.due))
    && (e.Update? && e.dto.due.Some? ==> Near(env, s.now, e.dto.due.value))
    && (e.InitQuery? ==> forall j :: j in e.jobs ==> Near(env, s.now, j.due))
  }

  ghost predicate Enabled(env: Env, s: State, e: Event) {
    Possible(s, e) && Allowed(env, s, e)
  }

  function Step(s: State, e: Event): State {
    match e
    case Tick(ms) => s.(now := s.now + ms)
    case Create(doc) => OpenCall(s, Creating(doc))
    case Update(id, dto) => if id in s.db then OpenCall(s, UpdateGot(id, dto, s.db[id])) else s
    case Cancel(id) => if id in s.db then OpenCall(s, CancelGot(id, s.db[id])) else s
    case Remove(id) => if id in s.db then OpenCall(s, RemoveGot(id, s.db[id])) else s
    case CallStep(c, io) => if c in s.calls then Continue(s, c, io) else s
    case CronQuery(ids) => s.(ticks := s.ticks + [ids])
    case CronRun(k) =>
      if k < |s.ticks| then StartAll(s.(ticks := s.ticks[..k] + s.ticks[k + 1..]), s.ticks[k]) else s
    case InitQuery(jobs) => s.(init := Listed(jobs))
    case InitRun => if s.init.Listed? then CreateJobs(s.(init := Resetting), s.init.jobs) else s
    case InitReset(io) =>
      var s1 := if io.Lost? then s else s.(db := ResetDb(s.db));
      s1.(init := if io.Ok? then Ready else Aborted)
    case TimerFire(t) => if t in s.timers then Start(s.(timers := s.timers - {t}), s.timers[t].id) else s
    case ActStep(a, io) => if a in s.acts then Advance(s, a, io) else s
  }

  ghost predicate Valid(env: Env, s: State, es: seq<Event>)
    decreases |es|
  {
    es == [] || (Enabled(env, s, es[0]) && Valid(env, Step(s, es[0]), es[1..]))
  }

  function Run(s: State, es: seq<Event>): State
    decreases |es|
  {
    if es == [] then s else Run(Step(s, es[0]), es[1..])
  }

  /** A process that has just started, over whatever an earlier process left in the database. */
  function Boot(db: map<Id, Doc>, nextId: Id, now: int): State {
    State(now, db, nextId, {}, map[], 0, map[], 0, map[], map[], 0, [], NotStarted, map[])
  }

  ghost predicate Fresh(db: map<Id, Doc>, nextId: Id) {
    forall id :: id in db ==> id < nextId
  }

  // ---------------------------------------------------------------------------------------------
  // What is claimed of reachable states
  // ---------------------------------------------------------------------------------------------

  ghost predicate Live(acts: map<nat, Act>, a: nat) {
    a in acts && acts[a].phase != Done
  }

  /** Activation a found its schedule PENDING and went on. */
  ghost predicate Passed(acts: map<nat, Act>, a: nat) {
    a in acts && acts[a].snap.Some?
  }

  ghost predicate AtMostOnce(s: State) {
    forall a, b :: Passed(s.acts, a) && Passed(s.acts, b) && s.acts[a].sid == s.acts[b].sid ==> a == b
  }

  ghost predicate NeverEarly(s: State) {
    forall a :: Passed(s.acts, a) ==> s.acts[a].snap.value.due <= s.acts[a].passedAt
  }

  /** Holds of every state reachable in env from every start. */
  ghost predicate Always(env: Env, p: State -> bool) {
    forall db, nextId, now, es ::
      Fresh(db, nextId) && Valid(env, Boot(db, nextId, now), es) ==> p(Run(Boot(db, nextId, now), es))
  }

  // ---------------------------------------------------------------------------------------------
  // Runs put together, and what an event leaves alone
  // ---------------------------------------------------------------------------------------------

  lemma {:induction false} RunConcat(s: State, es: seq<Event>, fs: seq<Event>)
    ensures Run(s, es + fs) == Run(Run(s, es), fs)
    decreases |es|
  {
    if es == [] {
      assert es + fs == fs;
    } else {
      assert (es + fs)[1..] == es[1..] + fs;
      RunConcat(Step(s, es[0]), es[1..], fs);
    }
  }

  lemma {:induction false} ValidConcat(env: Env, s: State, es: seq<Event>, fs: seq<Event>)
    requires Valid(env, s, es) && Valid(env, Run(s, es), fs)
    ensures Valid(env, s, es + fs)
    decreases |es|
  {
    if es == [] {
      assert es + fs == fs;
    } else {
      assert (es + fs)[1..] == es[1..] + fs;
      ValidConcat(env, Step(s, es[0]), es[1..], fs);
    }
  }

  lemma ValidOne(env: Env, s: State, e: Event)
    requires Enabled(env, s, e)
    ensures Valid(env, s, [e]) && Run(s, [e]) == Step(s, e)
  {
    assert [e][1..] == [];
  }

  /** The record of activation a is as it was. */
  ghost predicate KeepsAct(s: State, t: State, a: nat) {
    a in t.acts && a in s.acts && t.acts[a] == s.acts[a] && a < t.nextAct
  }

  ghost predicate KeepsCall(s: State, t: State, c: nat) {
    c in t.calls && c in s.calls && t.calls[c] == s.calls[c] && c < t.nextCall
  }

  lemma {:induction false} StartAllKeeps(s: State, ids: seq<Id>)
    ensures var t := StartAll(s, ids);
      && t == s.(processing := t.processing, acts := t.acts, nextAct := t.nextAct)
      && forall a :: a in s.acts && a < s.nextAct ==> KeepsAct(s, t, a)
    decreases |ids|
  {
    if ids != [] {
      var s1, t := Start(s, ids[0]), StartAll(s, ids);
      StartAllKeeps(s1, ids[1..]);
      forall a | a in s.acts && a < s.nextAct ensures KeepsAct(s, t, a) { assert KeepsAct(s1, t, a); }
    }
  }

  lemma CreateJobKeeps(s: State, job: Job)
    ensures var t := CreateJob(s, job);
      && t == s.(processing := t.processing, acts := t.acts, nextAct := t.nextAct,
                 timers := t.timers, nextTimer := t.nextTimer, registry := t.registry)
      && forall a :: a in s.acts && a < s.nextAct ==> KeepsAct(s, t, a)
  {
  }

  lemma {:induction false} CreateJobsKeeps(s: State, jobs: seq<Job>)
    ensures var t := CreateJobs(s, jobs);
      && t == s.(processing := t.processing, acts := t.acts, nextAct := t.nextAct,
                 timers := t.timers, nextTimer := t.nextTimer, registry := t.registry)
      && forall a :: a in s.acts && a < s.nextAct ==> KeepsAct(s, t, a)
    decreases |jobs|
  {
    if jobs != [] {
      var s1, t := CreateJob(s, jobs[0]), CreateJobs(s, jobs);
      CreateJobKeeps(s, jobs[0]);
      CreateJobsKeeps(s1, jobs[1..]);
      forall a | a in s.acts && a < s.nextAct ensures KeepsAct(s, t, a) {
        assert KeepsAct(s, s1, a) && KeepsAct(s1, t, a);
      }
    }
  }

  lemma ContinueKeeps(s: State, c: nat, io: Io)
    requires c in s.calls
    ensures var t := Continue(s, c, io);
      && t.nextCall == s.nextCall && (forall d :: d in t.calls && d != c ==> d in s.calls && t.calls[d] == s.calls[d])
      && (forall d :: d in s.calls && d != c ==> d in t.calls)
      && forall a :: a in s.acts && a < s.nextAct ==> KeepsAct(s, t, a)
  {
    var call, s1 := s.calls[c], Settle(s, c, io);
    if call.Created? || call.UpdateWritten? { CreateJobKeeps(s1, Job(call.id, call.due)); }
  }

  /** An event leaves every activation alone but the one it resumes. */
  lemma StepKeepsAct(s: State, e: Event, a: nat)
    requires a in s.acts && a < s.nextAct && !(e.ActStep? && e.a == a)
    ensures KeepsAct(s, Step(s, e), a)
  {
    match e
    case CallStep(c, io) => if c in s.calls { ContinueKeeps(s, c, io); }
    case CronRun(k) =>
      if k < |s.ticks| { StartAllKeeps(s.(ticks := s.ticks[..k] + s.ticks[k + 1..]), s.ticks[k]); }
    case InitRun => if s.init.Listed? { CreateJobsKeeps(s.(init := Resetting), s.init.jobs); }
    case _ =>
  }

  /** An event leaves every HTTP call alone but the one it resumes. */
  lemma StepKeepsCall(s: State, e: Event, c: nat)
    requires c in s.calls && c < s.nextCall && !(e.CallStep? && e.c == c)
    ensures KeepsCall(s, Step(s, e), c)
  {
    match e
    case CallStep(d, io) => if d in s.calls { ContinueKeeps(s, d, io); }
    case CronRun(k) =>
      if k < |s.ticks| { StartAllKeeps(s.(ticks := s.ticks[..k] + s.ticks[k + 1..]), s.ticks[k]); }
    case InitRun => if s.init.Listed? { CreateJobsKeeps(s.(init := Resetting), s.init.jobs); }
    case _ =>
  }

  lemma {:induction false} RunKeepsAct(s: State, es: seq<Event>, a: nat)
    requires a in s.acts && a < s.nextAct && forall e :: e in es ==> !(e.ActStep? && e.a == a)
    ensures KeepsAct(s, Run(s, es), a)
    decreases |es|
  {
    if es != [] {
      StepKeepsAct(s, es[0], a);
      RunKeepsAct(Step(s, es[0]), es[1..], a);
    }
  }

  lemma {:induction false} RunKeepsCall(s: State, es: seq<Event>, c: nat)
    requires c in s.calls && c < s.nextCall && forall e :: e in es ==> !(e.CallStep? && e.c == c)
    ensures KeepsCall(s, Run(s, es), c)
    decreases |es|
  {
    if es != [] {
      StepKeepsCall(s, es[0], c);
      RunKeepsCall(Step(s, es[0]), es[1..], c);
    }
  }
}
