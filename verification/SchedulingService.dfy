/**
 The scheduling service as an object, with its methods as they are written: checks, writes, try and
 finally, and at every await whatever else the process does meanwhile. Each method is proved to end in
 the state of a run of the step system, for every interleaving and every pattern of failures.
 */
module SchedulingService {
  import opened Common
  import opened Scheduler
  import opened SchedulerRuns
  import opened SchedulerEffects

  // ---------------------------------------------------------------------------------------------
  // One thread among others
  // ---------------------------------------------------------------------------------------------

  /** The others' events before own event 0, own event 0, the others' events before own event 1, and so on. */
  function Woven(others: nat -> seq<Event>, own: nat -> Event, n: nat): seq<Event> {
    if n == 0 then [] else Woven(others, own, n - 1) + others(n - 1) + [own(n - 1)]
  }

  /** The state after n own events. */
  function Path(s: State, others: nat -> seq<Event>, own: nat -> Event, n: nat): State
    decreases n, 0
  {
    if n == 0 then s else Step(World(s, others, own, n - 1), own(n - 1))
  }

  /** The state in which own event k comes. */
  function World(s: State, others: nat -> seq<Event>, own: nat -> Event, k: nat): State
    decreases k, 1
  {
    Run(Path(s, others, own, k), others(k))
  }

  lemma {:induction false} PathIsRun(s: State, others: nat -> seq<Event>, own: nat -> Event, n: nat)
    ensures Path(s, others, own, n) == Run(s, Woven(others, own, n))
  {
    if n != 0 {
      var es, fs := Woven(others, own, n - 1), others(n - 1);
      PathIsRun(s, others, own, n - 1);
      RunConcat(s, es, fs);
      RunConcat(s, es + fs, [own(n - 1)]);
      RunOne(Run(s, es + fs), own(n - 1));
    }
  }

  lemma RunOne(s: State, e: Event)
    ensures Run(s, [e]) == Step(s, e)
  {
    assert [e][1..] == [];
  }

  /** One more own event that is enabled when it comes, after events of others that are valid where they come. */
  lemma OneMoreOwn(env: Env, s: State, others: nat -> seq<Event>, own: nat -> Event, k: nat)
    requires Valid(env, s, Woven(others, own, k)) && OthersValid(env, s, others, own, k)
    requires Enabled(env, World(s, others, own, k), own(k))
    ensures Valid(env, s, Woven(others, own, k + 1))
  {
    var es, fs := Woven(others, own, k), others(k);
    PathIsRun(s, others, own, k);
    var w := World(s, others, own, k);
    assert w == Run(Run(s, es), fs);
    ExtendValid(env, s, es, fs, own(k));
  }

  lemma ExtendValid(env: Env, s: State, es: seq<Event>, fs: seq<Event>, e: Event)
    requires Valid(env, s, es) && Valid(env, Run(s, es), fs) && Enabled(env, Run(Run(s, es), fs), e)
    ensures Valid(env, s, es + fs + [e])
  {
    ValidConcat(env, s, es, fs);
    RunConcat(s, es, fs);
    ValidOne(env, Run(s, es + fs), e);
    ValidConcat(env, s, es + fs, [e]);
  }

  ghost predicate OthersValid(env: Env, s: State, others: nat -> seq<Event>, own: nat -> Event, k: nat) {
    Valid(env, Path(s, others, own, k), others(k))
  }

  /**
   A method between its awaits: awaited operation k ends as o(k) says, after the events others(k);
   run(k) is the state after k own events, world(k) the state in which the next one comes.
   */
  datatype Thread = Thread(others: nat -> seq<Event>, o: nat -> Io, run: nat -> State, world: nat -> State)

  function MakeThread(s: State, others: nat -> seq<Event>, o: nat -> Io, own: nat -> Event): Thread {
    Thread(others, o, (k: nat) => Path(s, others, own, k), (k: nat) => World(s, others, own, k))
  }

  function ActEvents(a: nat, o: nat -> Io): nat -> Event {
    (k: nat) => ActStep(a, o(k))
  }

  function CallEvents(c: nat, o: nat -> Io): nat -> Event {
    (k: nat) => CallStep(c, o(k))
  }

  /**
   What env asks of the surroundings of an activation: others keep to env, no HTTP call is left open for it
   to come between unless calls may be open, and the catch block's write is lost only if it may be.
   */
  ghost predicate ActTolerated(env: Env, s: State, others: nat -> seq<Event>, o: nat -> Io, a: nat, n: nat) {
    forall k: nat :: k < n ==>
      var w := World(s, others, ActEvents(a, o), k);
      && OthersValid(env, s, others, ActEvents(a, o), k) && Free(env, w)
      && (a in w.acts && w.acts[a].phase.Rescuing? && o(k).Lost? ==> env.rescueFails)
  }

  /** The same for an HTTP call: others keep to env, and it postpones a schedule only when it may. */
  ghost predicate CallTolerated(env: Env, s: State, others: nat -> seq<Event>, o: nat -> Io, c: nat, n: nat) {
    forall k: nat :: k < n ==>
      var w := World(s, others, CallEvents(c, o), k);
      && OthersValid(env, s, others, CallEvents(c, o), k)
      && (Postponed(w, CallStep(c, o(k))).Some? ==>
            MayPostpone(env.postponing, w, Postponed(w, CallStep(c, o(k))).value))
  }

  /** From s on, activation a and the others lead to t. */
  ghost predicate ActRuns(s: State, t: State, others: nat -> seq<Event>, o: nat -> Io, a: nat, n: nat) {
    && t == Run(s, Woven(others, ActEvents(a, o), n))
    && forall env :: ActTolerated(env, s, others, o, a, n) ==> Valid(env, s, Woven(others, ActEvents(a, o), n))
  }

  /** From s on, an open call and the others lead to t. */
  ghost predicate CallGoesOn(s: State, t: State, others: nat -> seq<Event>, o: nat -> Io, c: nat, n: nat) {
    && t == Run(s, Woven(others, CallEvents(c, o), n))
    && forall env :: CallTolerated(env, s, others, o, c, n) ==> Valid(env, s, Woven(others, CallEvents(c, o), n))
  }

  /** From s on, the call that e opens and the others lead to t in a run in which the call is carried to its end. */
  ghost predicate CallRuns(s: State, t: State, e: Event, others: nat -> seq<Event>, o: nat -> Io, c: nat, n: nat) {
    && t == Run(s, [e] + Woven(others, CallEvents(c, o), n)) && c !in t.calls
    && forall env :: Allowed(env, s, e) && CallTolerated(env, Step(s, e), others, o, c, n) ==>
         Valid(env, s, [e] + Woven(others, CallEvents(c, o), n))
  }

  ghost predicate ActCan(w: State, a: nat) {
    a in w.acts && w.acts[a].phase != Done
  }

  ghost predicate CallCan(w: State, c: nat) {
    c in w.calls
  }

  /** A tolerated activation that is not done when its events come makes a run in env. */
  lemma {:induction false} ActIsValid(env: Env, s: State, others: nat -> seq<Event>, o: nat -> Io, a: nat, n: nat)
    requires ActTolerated(env, s, others, o, a, n)
    requires forall k: nat :: k < n ==> ActCan(World(s, others, ActEvents(a, o), k), a)
    ensures Valid(env, s, Woven(others, ActEvents(a, o), n))
  {
    if n != 0 {
      var own, k := ActEvents(a, o), n - 1;
      ActIsValid(env, s, others, o, a, k);
      assert ActCan(World(s, others, own, k), a);
      ActEnabled(env, World(s, others, own, k), a, o(k));
      OneMoreOwn(env, s, others, own, k);
    }
  }

  lemma ActEnabled(env: Env, w: State, a: nat, io: Io)
    requires ActCan(w, a) && Free(env, w) && (w.acts[a].phase.Rescuing? && io.Lost? ==> env.rescueFails)
    ensures Enabled(env, w, ActStep(a, io))
  {
  }

  /** A tolerated call that is open when its events come makes a run in env. */
  lemma {:induction false} CallIsValid(env: Env, s: State, others: nat -> seq<Event>, o: nat -> Io, c: nat, n: nat)
    requires CallTolerated(env, s, others, o, c, n)
    requires forall k: nat :: k < n ==> CallCan(World(s, others, CallEvents(c, o), k), c)
    ensures Valid(env, s, Woven(others, CallEvents(c, o), n))
  {
    if n != 0 {
      var own, k := CallEvents(c, o), n - 1;
      CallIsValid(env, s, others, o, c, k);
      var w := World(s, others, own, k);
      assert CallCan(w, c);
      assert Enabled(env, w, own(k));
      OneMoreOwn(env, s, others, own, k);
    }
  }

  /** What holds of every reachable state holds after the call. */
  lemma CallStaysReachable(env: Env, s0: State, s: State, t: State, e: Event, others: nat -> seq<Event>,
                           o: nat -> Io, c: nat, n: nat)
    requires Reach(env, s0, s) && CallRuns(s, t, e, others, o, c, n)
    requires Allowed(env, s, e) && CallTolerated(env, Step(s, e), others, o, c, n)
    ensures Reach(env, s0, t)
  {
    ReachRun(env, s0, s, [e] + Woven(others, CallEvents(c, o), n));
  }

  lemma ActStaysReachable(env: Env, s0: State, s: State, t: State, others: nat -> seq<Event>, o: nat -> Io, a: nat,
                          n: nat)
    requires Reach(env, s0, s) && ActRuns(s, t, others, o, a, n) && ActTolerated(env, s, others, o, a, n)
    ensures Reach(env, s0, t)
  {
    ReachRun(env, s0, s, Woven(others, ActEvents(a, o), n));
  }

  /** Only the thread itself resumes activation a. */
  ghost predicate ActIsOwn(others: nat -> seq<Event>, a: nat) {
    forall k, e :: e in others(k) ==> !(e.ActStep? && e.a == a)
  }

  ghost predicate CallIsOwn(others: nat -> seq<Event>, c: nat) {
    forall k, e :: e in others(k) ==> !(e.CallStep? && e.c == c)
  }

  ghost predicate ActGoes(t: Thread, a: nat, k: nat) {
    && t.world(k) == Run(t.run(k), t.others(k))
    && t.run(k + 1) == Step(t.world(k), ActStep(a, t.o(k)))
  }

  ghost predicate CallGoes(t: Thread, c: nat, k: nat) {
    && t.world(k) == Run(t.run(k), t.others(k))
    && t.run(k + 1) == Step(t.world(k), CallStep(c, t.o(k)))
  }

  /** The thread is activation a of `processSchedule`. */
  ghost predicate IsAct(t: Thread, a: nat) {
    ActIsOwn(t.others, a) && forall k: nat :: ActGoes(t, a, k)
  }

  /** The thread is HTTP call c. */
  ghost predicate IsCall(t: Thread, c: nat) {
    CallIsOwn(t.others, c) && forall k: nat :: CallGoes(t, c, k)
  }

  lemma ThreadIsAct(s: State, others: nat -> seq<Event>, o: nat -> Io, a: nat)
    requires ActIsOwn(others, a)
    ensures var t := MakeThread(s, others, o, ActEvents(a, o));
      IsAct(t, a) && t.run(0) == s && forall n: nat :: ActAlive(t, a, n) ==> ActRuns(s, t.run(n), others, o, a, n)
  {
    forall n: nat | ActAlive(MakeThread(s, others, o, ActEvents(a, o)), a, n)
      ensures ActRuns(s, MakeThread(s, others, o, ActEvents(a, o)).run(n), others, o, a, n) {
      AliveActRuns(s, others, o, a, n);
    }
    var t := MakeThread(s, others, o, ActEvents(a, o));
    forall k: nat ensures ActGoes(t, a, k) { PathStep(s, others, ActEvents(a, o), k); }
  }

  lemma ThreadIsCall(s: State, others: nat -> seq<Event>, o: nat -> Io, c: nat)
    requires CallIsOwn(others, c)
    ensures var t := MakeThread(s, others, o, CallEvents(c, o));
      IsCall(t, c) && t.run(0) == s && forall n: nat :: CallAlive(t, c, n) ==> CallGoesOn(s, t.run(n), others, o, c, n)
  {
    forall n: nat | CallAlive(MakeThread(s, others, o, CallEvents(c, o)), c, n)
      ensures CallGoesOn(s, MakeThread(s, others, o, CallEvents(c, o)).run(n), others, o, c, n) {
      AliveCallGoesOn(s, others, o, c, n);
    }
    var t := MakeThread(s, others, o, CallEvents(c, o));
    forall k: nat ensures CallGoes(t, c, k) { PathStep(s, others, CallEvents(c, o), k); }
  }

  /** The activation is not done when its first n events come. */
  ghost predicate ActAlive(t: Thread, a: nat, n: nat) {
    forall k: nat :: k < n ==> ActCan(t.world(k), a)
  }

  /** The call is open when its first n events come. */
  ghost predicate CallAlive(t: Thread, c: nat, n: nat) {
    forall k: nat :: k < n ==> CallCan(t.world(k), c)
  }

  lemma AliveActRuns(s: State, others: nat -> seq<Event>, o: nat -> Io, a: nat, n: nat)
    requires ActAlive(MakeThread(s, others, o, ActEvents(a, o)), a, n)
    ensures ActRuns(s, MakeThread(s, others, o, ActEvents(a, o)).run(n), others, o, a, n)
  {
    var t := MakeThread(s, others, o, ActEvents(a, o));
    PathIsRun(s, others, ActEvents(a, o), n);
    forall env | ActTolerated(env, s, others, o, a, n) ensures Valid(env, s, Woven(others, ActEvents(a, o), n)) {
      forall k: nat | k < n ensures ActCan(World(s, others, ActEvents(a, o), k), a) { assert ActCan(t.world(k), a); }
      ActIsValid(env, s, others, o, a, n);
    }
  }

  lemma AliveCallGoesOn(s: State, others: nat -> seq<Event>, o: nat -> Io, c: nat, n: nat)
    requires CallAlive(MakeThread(s, others, o, CallEvents(c, o)), c, n)
    ensures CallGoesOn(s, MakeThread(s, others, o, CallEvents(c, o)).run(n), others, o, c, n)
  {
    var t := MakeThread(s, others, o, CallEvents(c, o));
    PathIsRun(s, others, CallEvents(c, o), n);
    forall env | CallTolerated(env, s, others, o, c, n) ensures Valid(env, s, Woven(others, CallEvents(c, o), n)) {
      forall k: nat | k < n ensures CallCan(World(s, others, CallEvents(c, o), k), c) { assert CallCan(t.world(k), c); }
      CallIsValid(env, s, others, o, c, n);
    }
  }

  lemma NothingRuns(s: State, others: nat -> seq<Event>, o: nat -> Io, a: nat)
    ensures ActRuns(s, s, others, o, a, 0)
  {
  }

  /** With the event that opens the call put first. */
  lemma OpenedCallRuns(s: State, t: State, e: Event, others: nat -> seq<Event>, o: nat -> Io, c: nat, n: nat)
    requires Possible(s, e) && CallGoesOn(Step(s, e), t, others, o, c, n) && c !in t.calls
    ensures CallRuns(s, t, e, others, o, c, n)
  {
    var s1, es := Step(s, e), Woven(others, CallEvents(c, o), n);
    RunConcat(s, [e], es);
    RunOne(s, e);
    forall env | Allowed(env, s, e) && CallTolerated(env, s1, others, o, c, n) ensures Valid(env, s, [e] + es) {
      assert Valid(env, s1, es);
      ValidOne(env, s, e);
      ValidConcat(env, s, [e], es);
    }
  }

  lemma PathStep(s: State, others: nat -> seq<Event>, own: nat -> Event, k: nat)
    ensures Path(s, others, own, k + 1) == Step(Run(Path(s, others, own, k), others(k)), own(k))
  {
  }

  // ---------------------------------------------------------------------------------------------
  // What each own event of an activation does
  // ---------------------------------------------------------------------------------------------

  function WithAct(w: State, a: nat, act: Act): State {
    w.(acts := w.acts[a := act])
  }

  function Finished(w: State, a: nat, act: Act): State {
    w.(acts := w.acts[a := act.(phase := Done)], processing := w.processing - {act.sid})
  }

  lemma ReadStep(t: Thread, a: nat, k: nat)
    requires IsAct(t, a) && a in t.world(k).acts && t.world(k).acts[a].phase.Reading?
    ensures var w, act := t.world(k), t.world(k).acts[a];
      t.run(k + 1) == WithAct(w, a, if t.o(k).Ok? then act.(phase := Checking(Find(w.db, act.sid))) else Trip(act))
  {
    assert ActGoes(t, a, k);
  }

  lemma CheckStep(t: Thread, a: nat, k: nat)
    requires IsAct(t, a) && a in t.world(k).acts && t.world(k).acts[a].phase.Checking?
    ensures var w, act := t.world(k), t.world(k).acts[a]; var f := act.phase.found;
      t.run(k + 1) == if f.Some? && f.value.status == Pending
                      then WithAct(w, a, act.(phase := Marking, snap := f, passedAt := w.now))
                      else Finished(w, a, act)
  {
    assert ActGoes(t, a, k);
  }

  lemma MarkStep(t: Thread, a: nat, k: nat)
    requires IsAct(t, a) && a in t.world(k).acts && t.world(k).acts[a].phase.Marking?
    ensures var w, act := t.world(k), t.world(k).acts[a];
      t.run(k + 1) == WithAct(w, a, if t.o(k).Ok? then act.(phase := Locating) else Trip(act)).(
                        db := if t.o(k).Lost? then w.db else WriteStatus(w.db, act.sid, Processing))
  {
    assert ActGoes(t, a, k);
  }

  /** The loop head: send i is issued, or the loop is left. */
  function Issued(w: State, a: nat, act: Act, i: nat): State {
    var rs := Recipients(act);
    if i < |rs| then
      WithAct(w, a, act.(phase := Sending(i), attempts := act.attempts + [rs[i]])).(
        sends := w.sends[act.sid := Sent(w.sends, act.sid) + [rs[i]]])
    else WithAct(w, a, act.(phase := Closing))
  }

  lemma LocateStep(t: Thread, a: nat, k: nat)
    requires IsAct(t, a) && a in t.world(k).acts && t.world(k).acts[a].phase.Locating?
    ensures var w, act := t.world(k), t.world(k).acts[a];
      t.run(k + 1) == if t.o(k).Ok? then Issued(w, a, act, 0) else WithAct(w, a, Trip(act))
  {
    assert ActGoes(t, a, k);
    AppendedOne(t.world(k).acts[a].attempts, Recipients(t.world(k).acts[a]), 0);
  }

  lemma AppendedOne(xs: seq<string>, rs: seq<string>, i: nat)
    ensures i < |rs| ==> (xs + [rs[i]])[|xs|..] == [rs[i]]
  {
  }

  lemma SendStep(t: Thread, a: nat, k: nat, i: nat)
    requires IsAct(t, a) && a in t.world(k).acts && t.world(k).acts[a].phase == Sending(i)
    ensures var w, act := t.world(k), t.world(k).acts[a];
      t.run(k + 1) == WithAct(w, a, if !t.o(k).Ok? then act.(phase := Closing, threw := true)
                                    else if i + 1 < |Recipients(act)| then act.(phase := Waiting(i))
                                    else act.(phase := Closing))
  {
    assert ActGoes(t, a, k);
  }

  lemma WaitStep(t: Thread, a: nat, k: nat, i: nat)
    requires IsAct(t, a) && a in t.world(k).acts && t.world(k).acts[a].phase == Waiting(i)
    ensures t.run(k + 1) == Issued(t.world(k), a, t.world(k).acts[a], i + 1)
  {
    assert ActGoes(t, a, k);
    AppendedOne(t.world(k).acts[a].attempts, Recipients(t.world(k).acts[a]), i + 1);
  }

  lemma CloseStep(t: Thread, a: nat, k: nat)
    requires IsAct(t, a) && a in t.world(k).acts && t.world(k).acts[a].phase.Closing?
    ensures var w, act := t.world(k), t.world(k).acts[a];
      var act1 := if t.o(k).Lost? then act else act.(wrote := Some(Outcome(act)));
      t.run(k + 1) == WithAct(w, a, if t.o(k).Ok? then act1.(phase := Leaving) else Trip(act1)).(
                        db := if t.o(k).Lost? then w.db else WriteStatus(w.db, act.sid, Outcome(act)))
  {
    assert ActGoes(t, a, k);
  }

  lemma RescueStep(t: Thread, a: nat, k: nat)
    requires IsAct(t, a) && a in t.world(k).acts && t.world(k).acts[a].phase.Rescuing?
    ensures var w, act := t.world(k), t.world(k).acts[a];
      t.run(k + 1) == WithAct(w, a, act.(phase := Leaving, wrote := if t.o(k).Lost? then act.wrote else Some(Failed))).(
                        db := if t.o(k).Lost? then w.db else WriteStatus(w.db, act.sid, Failed))
  {
    assert ActGoes(t, a, k);
  }

  lemma FinallyStep(t: Thread, a: nat, k: nat)
    requires IsAct(t, a) && a in t.world(k).acts && t.world(k).acts[a].phase.Leaving?
    ensures t.run(k + 1) == Finished(t.world(k), a, t.world(k).acts[a])
  {
    assert ActGoes(t, a, k);
  }

  // ---------------------------------------------------------------------------------------------
  // What each own event of an HTTP call does
  // ---------------------------------------------------------------------------------------------

  function WithCall(w: State, c: nat, call: Call): State {
    w.(calls := w.calls[c := call])
  }

  function Closed(w: State, c: nat): State {
    w.(calls := w.calls - {c})
  }

  lemma CreatingStep(t: Thread, c: nat, k: nat)
    requires IsCall(t, c) && c in t.world(k).calls && t.world(k).calls[c].Creating?
    ensures var w := t.world(k); var doc := w.calls[c].doc;
      var w1 := if t.o(k).Lost? then w else w.(db := w.db[w.nextId := doc], nextId := w.nextId + 1);
      t.run(k + 1) == if t.o(k).Ok? then WithCall(w1, c, Created(w.nextId, doc.due)) else Closed(w1, c)
  {
    assert CallGoes(t, c, k);
  }

  lemma JobStep(t: Thread, c: nat, k: nat)
    requires IsCall(t, c) && c in t.world(k).calls
      && (t.world(k).calls[c].Created? || t.world(k).calls[c].UpdateWritten?)
    ensures var w := t.world(k); t.run(k + 1) == CreateJob(Closed(w, c), Job(w.calls[c].id, w.calls[c].due))
  {
    assert CallGoes(t, c, k);
  }

  lemma UpdateGotStep(t: Thread, c: nat, k: nat)
    requires IsCall(t, c) && c in t.world(k).calls && t.world(k).calls[c].UpdateGot?
    ensures var w := t.world(k); var call := w.calls[c];
      t.run(k + 1) == if call.doc.status in {Completed, Processing} || (call.dto.due.Some?
        && call.dto.due.value <= w.now)
                      then Closed(w, c)
                      else WithCall(if call.dto.due.Some?
                        then DeleteTimeout(w, call.id) else w, c, UpdateWriting(call.id, call.dto))
  {
    assert CallGoes(t, c, k);
  }

  lemma UpdateWritingStep(t: Thread, c: nat, k: nat)
    requires IsCall(t, c) && c in t.world(k).calls && t.world(k).calls[c].UpdateWriting?
    ensures var w := t.world(k); var id, dto := w.calls[c].id, w.calls[c].dto;
      var w1 :=
        if !t.o(k).Lost? && id in w.db then
          w.(db := w.db[id := Doc(if dto.status.Some? then dto.status.value else w.db[id].status,
                                  if dto.recipients.Some? then dto.recipients.value else w.db[id].recipients,
                                  if dto.due.Some? then dto.due.value else w.db[id].due)])
        else w;
      t.run(k + 1) == if t.o(k).Ok? && id in w.db && dto.due.Some?
                      then WithCall(w1, c, UpdateWritten(id, dto.due.value)) else Closed(w1, c)
  {
    assert CallGoes(t, c, k);
  }

  lemma CancelGotStep(t: Thread, c: nat, k: nat)
    requires IsCall(t, c) && c in t.world(k).calls && t.world(k).calls[c].CancelGot?
    ensures var w := t.world(k); var call := w.calls[c];
      t.run(k + 1) == if call.doc.status != Pending then Closed(w, c)
                      else WithCall(DeleteTimeout(w, call.id), c, CancelWriting(call.id))
  {
    assert CallGoes(t, c, k);
  }

  lemma CancelWritingStep(t: Thread, c: nat, k: nat)
    requires IsCall(t, c) && c in t.world(k).calls && t.world(k).calls[c].CancelWriting?
    ensures var w := t.world(k);
      t.run(k + 1) == Closed(w, c).(db := if t.o(k).Lost? then w.db else WriteStatus(w.db, w.calls[c].id, Cancelled))
  {
    assert CallGoes(t, c, k);
  }

  lemma RemoveGotStep(t: Thread, c: nat, k: nat)
    requires IsCall(t, c) && c in t.world(k).calls && t.world(k).calls[c].RemoveGot?
    ensures var w := t.world(k); var call := w.calls[c];
      t.run(k + 1) == if call.doc.status == Processing then Closed(w, c)
                      else WithCall(DeleteTimeout(w, call.id), c, RemoveWriting(call.id))
  {
    assert CallGoes(t, c, k);
  }

  lemma RemoveWritingStep(t: Thread, c: nat, k: nat)
    requires IsCall(t, c) && c in t.world(k).calls && t.world(k).calls[c].RemoveWriting?
    ensures var w := t.world(k);
      t.run(k + 1) == Closed(w, c).(db := if t.o(k).Lost? then w.db else w.db - {w.calls[c].id})
  {
    assert CallGoes(t, c, k);
  }

  lemma FireStarts(s: State, timer: nat)
    requires timer in s.timers
    ensures Step(s, TimerFire(timer)) == Start(s.(timers := s.timers - {timer}), s.timers[timer].id)
  {
  }

  lemma {:induction false} AllHeld(s: State, ids: seq<Id>)
    ensures s.processing <= StartAll(s, ids).processing && forall id :: id in ids ==> id in StartAll(s, ids).processing
    decreases |ids|
  {
    if ids != [] { AllHeld(Start(s, ids[0]), ids[1..]); }
  }

  lemma CreateOpens(s: State, doc: Doc)
    ensures Step(s, Create(doc)) == OpenCall(s, Creating(doc))
  {
  }

  lemma UpdateOpens(s: State, id: Id, dto: Dto)
    requires id in s.db
    ensures Step(s, Update(id, dto)) == OpenCall(s, UpdateGot(id, dto, s.db[id]))
  {
  }

  lemma CancelOpens(s: State, id: Id)
    requires id in s.db
    ensures Step(s, Cancel(id)) == OpenCall(s, CancelGot(id, s.db[id]))
  {
  }

  lemma RemoveOpens(s: State, id: Id)
    requires id in s.db
    ensures Step(s, Remove(id)) == OpenCall(s, RemoveGot(id, s.db[id]))
  {
  }

  // ---------------------------------------------------------------------------------------------
  // The service
  // ---------------------------------------------------------------------------------------------

  class Service {
    var now: int
    var db: map<Id, Doc>
    var nextId: Id
    var processingSchedules: set<Id>
    var acts: map<nat, Act>
    var nextAct: nat
    var timers: map<nat, Timer>
    var nextTimer: nat
    var registry: map<Id, nat>
    var calls: map<nat, Call>
    var nextCall: nat
    var ticks: seq<seq<Id>>
    var init: InitPhase
    var sends: map<Id, seq<string>>

    function Abs(): State
      reads this
    {
      State(now, db, nextId, processingSchedules, acts, nextAct, timers, nextTimer, registry, calls, nextCall, ticks,
          init, sends)
    }

    constructor (db: map<Id, Doc>, nextId: Id, now: int)
      ensures Abs() == Boot(db, nextId, now)
    {
      this.now, this.db, this.nextId := now, db, nextId;
      processingSchedules, acts, nextAct := {}, map[], 0;
      timers, nextTimer, registry := map[], 0, map[];
      calls, nextCall, ticks, init, sends := map[], 0, [], NotStarted, map[];
    }

    /** Everything else that the process and its clients do during an await. */
    method Others(es: seq<Event>)
      modifies this
      ensures Abs() == Run(old(Abs()), es)
    {
      var t := Run(Abs(), es);
      SetStore(t);
      SetTimers(t);
      SetCalls(t);
    }

    method SetStore(t: State)
      modifies this`now, this`db, this`nextId, this`sends, this`init
      ensures now == t.now && db == t.db && nextId == t.nextId && sends == t.sends && init == t.init
    {
      now, db, nextId, sends, init := t.now, t.db, t.nextId, t.sends, t.init;
    }

    method SetTimers(t: State)
      modifies this`timers, this`nextTimer, this`registry, this`ticks
      ensures timers == t.timers && nextTimer == t.nextTimer && registry == t.registry && ticks == t.ticks
    {
      timers, nextTimer, registry, ticks := t.timers, t.nextTimer, t.registry, t.ticks;
    }

    method SetCalls(t: State)
      modifies this`processingSchedules, this`acts, this`nextAct, this`calls, this`nextCall
      ensures processingSchedules == t.processing && acts == t.acts && nextAct == t.nextAct
      ensures calls == t.calls && nextCall == t.nextCall
    {
      processingSchedules, acts, nextAct, calls, nextCall := t.processing, t.acts, t.nextAct, t.calls, t.nextCall;
    }

    /** The thread of activation a has come to run(k). */
    ghost predicate ActAt(t: Thread, a: nat, k: nat)
      reads this
    {
      IsAct(t, a) && ActAlive(t, a, k) && Abs() == t.run(k) && a in acts && a < nextAct
    }

    ghost predicate CallAt(t: Thread, c: nat, k: nat)
      reads this
    {
      IsCall(t, c) && CallAlive(t, c, k) && Abs() == t.run(k) && c in calls && c < nextCall
    }

    /** The call has answered or thrown. */
    ghost predicate CallOver(t: Thread, c: nat, n: nat)
      reads this
    {
      IsCall(t, c) && CallAlive(t, c, n) && Abs() == t.run(n) && c !in calls
    }

    method AwaitAct(t: Thread, a: nat, k: nat)
      requires ActAt(t, a, k) && acts[a].phase != Done
      modifies this
      ensures Abs() == t.world(k) && a in acts && acts[a] == old(acts[a]) && a < nextAct && ActAlive(t, a, k + 1)
    {
      assert ActGoes(t, a, k);
      RunKeepsAct(Abs(), t.others(k), a);
      Others(t.others(k));
      assert ActCan(t.world(k), a);
    }

    method AwaitCall(t: Thread, c: nat, k: nat)
      requires CallAt(t, c, k)
      modifies this
      ensures Abs() == t.world(k) && c in calls && calls[c] == old(calls[c]) && c < nextCall && CallAlive(t, c, k + 1)
    {
      assert CallGoes(t, c, k);
      RunKeepsCall(Abs(), t.others(k), c);
      Others(t.others(k));
      assert CallCan(t.world(k), c);
    }

    method WriteScheduleStatus(id: Id, status: Status)
      modifies this`db
      ensures db == WriteStatus(old(db), id, status)
    {
      if id in db {
        db := db[id := db[id].(status := status)];
      }
    }

    // --- processSchedule

    /** `processSchedule` up to its first await. */
    method Begin(id: Id)
      modifies this`processingSchedules, this`acts, this`nextAct
      ensures Abs() == Start(old(Abs()), id)
    {
      if id in processingSchedules {
        return;
      }
      processingSchedules := processingSchedules + {id};
      acts := acts[nextAct := Begun(id)];
      nextAct := nextAct + 1;
    }

    /** `processSchedule`; awaited operation k ends as o(k) says, after others(k) has happened. */
    method ProcessSchedule(id: Id, others: nat -> seq<Event>, o: nat -> Io) returns (ghost n: nat)
      requires ActIsOwn(others, nextAct)
      modifies this
      ensures id in old(processingSchedules) ==> Abs() == old(Abs()) && n == 0
      ensures ActRuns(Start(old(Abs()), id), Abs(), others, o, old(nextAct), n)
      ensures id !in old(processingSchedules) ==> old(nextAct) in acts && acts[old(nextAct)].phase.Done?
    {
      n := 0;
      if id in processingSchedules {
        NothingRuns(Abs(), others, o, nextAct);
        return;
      }
      var a := nextAct;
      Begin(id);
      var t := MakeThread(Abs(), others, o, ActEvents(a, o));
      ThreadIsAct(Abs(), others, o, a);
      n := Body(id, a, t);
    }

    method Body(id: Id, a: nat, t: Thread) returns (ghost n: nat)
      requires ActAt(t, a, 0) && acts[a] == Begun(id)
      modifies this
      ensures ActAt(t, a, n) && acts[a].phase.Done?
    {
      var threw, found := ReadSchedule(id, a, t);
      if !threw {
        AwaitAct(t, a, 1);
        CheckStep(t, a, 1);
        if found.None? || found.value.status != Pending {
          processingSchedules := processingSchedules - {id};
          acts := acts[a := acts[a].(phase := Done)];
          return 2;
        }
        acts := acts[a := acts[a].(phase := Marking, snap := found, passedAt := now)];
      }
      var k := if threw then 1 else 2;
      if !threw {
        threw, k := WorkOn(found.value, id, a, t);
      }
      n := Leave(threw, id, a, k, t);
    }

    /** The lookup of the schedule. */
    method ReadSchedule(id: Id, a: nat, t: Thread) returns (threw: bool, found: Option<Doc>)
      requires ActAt(t, a, 0) && acts[a] == Begun(id)
      modifies this
      ensures ActAt(t, a, 1)
      ensures acts[a] == if threw then Trip(Begun(id)) else Begun(id).(phase := Checking(found))
    {
      AwaitAct(t, a, 0);
      ReadStep(t, a, 0);
      threw := !t.o(0).Ok?;
      found := Find(db, id);
      acts := acts[a := if threw then Trip(acts[a]) else acts[a].(phase := Checking(found))];
    }

    /** The activation has come to the catch block or to the finally block. */
    ghost predicate Leaves(threw: bool, id: Id, a: nat)
      reads this
    {
      a in acts && a < nextAct && acts[a].sid == id
        && (if threw then acts[a].phase.Rescuing? else acts[a].phase.Leaving?)
    }

    /** The catch block, if the try block threw, and the finally block. */
    method Leave(threw: bool, id: Id, a: nat, k: nat, t: Thread) returns (n: nat)
      requires ActAt(t, a, k) && Leaves(threw, id, a)
      modifies this
      ensures ActAt(t, a, n) && acts[a].phase.Done?
    {
      n := k;
      if threw {
        AwaitAct(t, a, k);
        RescueStep(t, a, k);
        var io := t.o(k);
        if !io.Lost? {
          WriteScheduleStatus(id, Failed);
        }
        acts := acts[a := acts[a].(phase := Leaving, wrote := if io.Lost? then acts[a].wrote else Some(Failed))];
        n := k + 1;
      }
      AwaitAct(t, a, n);
      FinallyStep(t, a, n);
      processingSchedules := processingSchedules - {id};
      acts := acts[a := acts[a].(phase := Done)];
      n := n + 1;
    }

    /** The try block from the PROCESSING write on. */
    method WorkOn(schedule: Doc, id: Id, a: nat, t: Thread) returns (threw: bool, k: nat)
      requires ActAt(t, a, 2) && acts[a].sid == id
      requires acts[a].phase.Marking? && acts[a].snap == Some(schedule) && !acts[a].threw
      modifies this
      ensures ActAt(t, a, k) && Leaves(threw, id, a)
    {
      AwaitAct(t, a, 2);
      MarkStep(t, a, 2);
      var io := t.o(2);
      if !io.Lost? {
        WriteScheduleStatus(id, Processing);
      }
      acts := acts[a := if io.Ok? then acts[a].(phase := Locating) else Trip(acts[a])];
      if !io.Ok? {
        return true, 3;
      }
      AwaitAct(t, a, 3);
      LocateStep(t, a, 3);
      if !t.o(3).Ok? {
        acts := acts[a := Trip(acts[a])];
        return true, 4;
      }
      var hasError;
      hasError, k := SendToEach(schedule, id, a, t);
      threw := Record(hasError, id, a, k, t);
      k := k + 1;
    }

    /** The final status write. */
    method Record(hasError: bool, id: Id, a: nat, k: nat, t: Thread) returns (threw: bool)
      requires ActAt(t, a, k) && acts[a].sid == id && acts[a].phase.Closing? && acts[a].threw == hasError
      modifies this
      ensures ActAt(t, a, k + 1) && Leaves(threw, id, a)
    {
      AwaitAct(t, a, k);
      CloseStep(t, a, k);
      var io, act := t.o(k), acts[a];
      var status := if hasError then Failed else Completed;
      if !io.Lost? {
        WriteScheduleStatus(id, status);
        act := act.(wrote := Some(status));
      }
      threw := !io.Ok?;
      acts := acts[a := if threw then Trip(act) else act.(phase := Leaving)];
    }

    /** `whatsAppService.sendMessage` to one recipient, issued. */
    method Send(schedule: Doc, id: Id, a: nat, i: nat)
      requires a in acts && acts[a].sid == id && acts[a].snap == Some(schedule) && i < |schedule.recipients|
      modifies this`sends, this`acts
      ensures Abs() == Issued(old(Abs()), a, old(acts[a]), i)
    {
      var recipient := schedule.recipients[i];
      sends := sends[id := Sent(sends, id) + [recipient]];
      acts := acts[a := acts[a].(phase := Sending(i), attempts := acts[a].attempts + [recipient])];
    }

    /** The activation is at the head of the loop: issuing send i from here leads to run(k). */
    ghost predicate AtHead(schedule: Doc, id: Id, a: nat, i: nat, k: nat, t: Thread)
      reads this
    {
      && IsAct(t, a) && ActAlive(t, a, k) && a in acts && a < nextAct
      && acts[a].sid == id && acts[a].snap == Some(schedule) && !acts[a].threw
      && t.run(k) == Issued(Abs(), a, acts[a], i)
    }

    ghost predicate LoopLeft(id: Id, a: nat, hasError: bool)
      reads this
    {
      a in acts && a < nextAct && acts[a].sid == id && acts[a].phase.Closing? && acts[a].threw == hasError
    }

    /** The loop over the recipients, with its inner try block. */
    method SendToEach(schedule: Doc, id: Id, a: nat, t: Thread) returns (hasError: bool, k: nat)
      requires AtHead(schedule, id, a, 0, 4, t)
      modifies this
      ensures ActAt(t, a, k) && LoopLeft(id, a, hasError)
    {
      var n := |schedule.recipients|;
      var i := 0;
      hasError, k := false, 4;
      while i < n && !hasError
        invariant 0 <= i <= n
        invariant !hasError ==> AtHead(schedule, id, a, i, k, t)
        invariant hasError ==> ActAt(t, a, k) && LoopLeft(id, a, true)
        decreases n - i, !hasError
      {
        Send(schedule, id, a, i);
        hasError, k := SendOne(schedule, id, a, i, k, t);
        if !hasError {
          i := i + 1;
        }
      }
      if !hasError {
        acts := acts[a := acts[a].(phase := Closing)];
      }
    }

    /** The call returns or throws, and the delay before the next recipient. */
    method SendOne(schedule: Doc, id: Id, a: nat, i: nat, k0: nat, t: Thread) returns (threw: bool, k: nat)
      requires ActAt(t, a, k0) && acts[a].sid == id
      requires acts[a].snap == Some(schedule) && !acts[a].threw && acts[a].phase == Sending(i)
        && i < |schedule.recipients|
      modifies this
      ensures if threw then ActAt(t, a, k) && LoopLeft(id, a, true) else AtHead(schedule, id, a, i + 1, k, t)
    {
      AwaitAct(t, a, k0);
      SendStep(t, a, k0, i);
      k := k0 + 1;
      threw := !t.o(k0).Ok?;
      if threw {
        acts := acts[a := acts[a].(phase := Closing, threw := true)];
      } else if i + 1 < |schedule.recipients| {
        acts := acts[a := acts[a].(phase := Waiting(i))];
        AwaitAct(t, a, k);
        WaitStep(t, a, k, i);
        k := k + 1;
      }
    }

    // --- timers and loops

    /** The callback of a timeout. */
    method OnTimeout(timer: nat, others: nat -> seq<Event>, o: nat -> Io) returns (ghost n: nat)
      requires timer in timers && timers[timer].at <= now && ActIsOwn(others, nextAct)
      modifies this
      ensures ActRuns(Step(old(Abs()), TimerFire(timer)), Abs(), others, o, old(nextAct), n)
    {
      var id := timers[timer].id;
      FireStarts(Abs(), timer);
      timers := timers - {timer};
      n := ProcessSchedule(id, others, o);
    }

    /** The loop of `handleCron` over the schedules its query returned. */
    method HandleCron(pendingSchedules: seq<Id>)
      modifies this`processingSchedules, this`acts, this`nextAct
      ensures Abs() == StartAll(old(Abs()), pendingSchedules)
      ensures forall id :: id in pendingSchedules ==> id in processingSchedules
    {
      AllHeld(Abs(), pendingSchedules);
      for i := 0 to |pendingSchedules|
        invariant StartAll(Abs(), pendingSchedules[i..]) == StartAll(old(Abs()), pendingSchedules)
      {
        assert pendingSchedules[i..][0] == pendingSchedules[i]
          && pendingSchedules[i..][1..] == pendingSchedules[i + 1..];
        if pendingSchedules[i] !in processingSchedules {
          Begin(pendingSchedules[i]);
        }
      }
    }

    method CreateScheduleJob(job: Job)
      modifies this`processingSchedules, this`acts, this`nextAct, this`timers, this`nextTimer, this`registry
      ensures Abs() == CreateJob(old(Abs()), job)
    {
      if job.due <= now {
        Begin(job.id);
        return;
      }
      var timer := nextTimer;
      timers := timers[timer := Timer(job.id, if job.due - now > MAX_TIMEOUT then now + 1 else job.due)];
      nextTimer := nextTimer + 1;
      if job.id !in registry {
        registry := registry[job.id := timer];
      }
    }

    /** The loop of `initSchedules` over the pending schedules. */
    method InitSchedules(pendingSchedules: seq<Job>)
      modifies this`processingSchedules, this`acts, this`nextAct, this`timers, this`nextTimer, this`registry
      ensures Abs() == CreateJobs(old(Abs()), pendingSchedules)
      ensures DistinctIds(pendingSchedules) && (forall k :: k in old(timers) ==> k < old(nextTimer)) ==>
        forall j :: j in pendingSchedules ==> Served(old(Abs()), Abs(), j)
    {
      ghost var s0 := Abs();
      for i := 0 to |pendingSchedules|
        invariant CreateJobs(Abs(), pendingSchedules[i..]) == CreateJobs(old(Abs()), pendingSchedules)
      {
        assert pendingSchedules[i..][0] == pendingSchedules[i]
          && pendingSchedules[i..][1..] == pendingSchedules[i + 1..];
        CreateScheduleJob(pendingSchedules[i]);
      }
      if DistinctIds(pendingSchedules) && forall k :: k in s0.timers ==> k < s0.nextTimer {
        AllJobsServed(s0, pendingSchedules);
      }
    }

    method DeleteScheduleTimeout(id: Id)
      modifies this`timers, this`registry
      ensures Abs() == DeleteTimeout(old(Abs()), id)
    {
      if id in registry {
        timers := timers - {registry[id]};
        registry := registry - {id};
      }
    }

    // --- HTTP calls

    /** An HTTP call has issued its first database operation. */
    method Open(call: Call, others: nat -> seq<Event>, o: nat -> Io) returns (c: nat, t: Thread)
      requires CallIsOwn(others, nextCall)
      modifies this`calls, this`nextCall
      ensures c == old(nextCall) && CallAt(t, c, 0) && calls[c] == call
      ensures forall n: nat :: CallAlive(t, c, n) ==> CallGoesOn(OpenCall(old(Abs()), call), t.run(n), others, o, c, n)
    {
      c := nextCall;
      calls := calls[c := call];
      nextCall := nextCall + 1;
      t := MakeThread(Abs(), others, o, CallEvents(c, o));
      ThreadIsCall(Abs(), others, o, c);
      assert Abs() == OpenCall(old(Abs()), call);
    }

    /** `create`. */
    method CreateSchedule(doc: Doc, others: nat -> seq<Event>, o: nat -> Io) returns (ghost n: nat)
      requires CallIsOwn(others, nextCall) && doc.status == Pending
      modifies this
      ensures doc.due <= old(now) ==> Abs() == old(Abs())
      ensures doc.due > old(now) ==>
        CallRuns(old(Abs()), Abs(), Create(doc), others, o, old(nextCall), n)
    {
      if doc.due <= now {
        return 0;
      }
      CreateOpens(Abs(), doc);
      var c, t := Open(Creating(doc), others, o);
      n := Insert(doc, c, t);
      OpenedCallRuns(old(Abs()), Abs(), Create(doc), others, o, c, n);
    }

    method Insert(doc: Doc, c: nat, t: Thread) returns (ghost n: nat)
      requires CallAt(t, c, 0) && calls[c] == Creating(doc)
      modifies this
      ensures CallOver(t, c, n)
    {
      var id := InsertOne(doc, c, t);
      if id.None? {
        return 1;
      }
      SetJob(Job(id.value, doc.due), c, 1, t);
      n := 2;
    }

    /** The insert; id is None when it throws. */
    method InsertOne(doc: Doc, c: nat, t: Thread) returns (id: Option<Id>)
      requires CallAt(t, c, 0) && calls[c] == Creating(doc)
      modifies this
      ensures if id.Some? then CallAt(t, c, 1) && calls[c] == Created(id.value, doc.due) else CallOver(t, c, 1)
    {
      AwaitCall(t, c, 0);
      CreatingStep(t, c, 0);
      var io := t.o(0);
      id := if io.Ok? then Some(nextId) else None;
      calls := if io.Ok? then calls[c := Created(nextId, doc.due)] else calls - {c};
      if !io.Lost? {
        db := db[nextId := doc];
        nextId := nextId + 1;
      }
    }

    /** The call resumes after its write, sets the timer and answers. */
    method SetJob(job: Job, c: nat, k: nat, t: Thread)
      requires CallAt(t, c, k)
      requires calls[c] == Created(job.id, job.due) || calls[c] == UpdateWritten(job.id, job.due)
      modifies this
      ensures CallOver(t, c, k + 1)
    {
      AwaitCall(t, c, k);
      JobStep(t, c, k);
      calls := calls - {c};
      CreateScheduleJob(job);
    }

    /** `update`. */
    method UpdateSchedule(id: Id, dto: Dto, others: nat -> seq<Event>, o: nat -> Io) returns (ghost n: nat)
      requires CallIsOwn(others, nextCall)
      modifies this
      ensures id !in old(db) ==> Abs() == old(Abs())
      ensures id in old(db) ==>
        CallRuns(old(Abs()), Abs(), Update(id, dto), others, o, old(nextCall), n)
    {
      if id !in db {
        return 0;
      }
      var schedule := db[id];
      UpdateOpens(Abs(), id, dto);
      var c, t := Open(UpdateGot(id, dto, schedule), others, o);
      n := UpdateFound(id, dto, schedule, c, t);
      OpenedCallRuns(old(Abs()), Abs(), Update(id, dto), others, o, c, n);
    }

    method UpdateFound(id: Id, dto: Dto, schedule: Doc, c: nat, t: Thread) returns (ghost n: nat)
      requires CallAt(t, c, 0) && calls[c] == UpdateGot(id, dto, schedule)
      modifies this
      ensures CallOver(t, c, n)
    {
      AwaitCall(t, c, 0);
      UpdateGotStep(t, c, 0);
      if schedule.status == Completed || schedule.status == Processing {
        calls := calls - {c};
        return 1;
      }
      if dto.due.Some? {
        if dto.due.value <= now {
          calls := calls - {c};
          return 1;
        }
        DeleteScheduleTimeout(id);
      }
      calls := calls[c := UpdateWriting(id, dto)];
      n := UpdateChecked(id, dto, c, t);
    }

    method UpdateChecked(id: Id, dto: Dto, c: nat, t: Thread) returns (ghost n: nat)
      requires CallAt(t, c, 1) && calls[c] == UpdateWriting(id, dto)
      modifies this
      ensures CallOver(t, c, n)
    {
      var updated := FindByIdAndUpdate(id, dto, c, t);
      if dto.due.Some? && updated {
        SetJob(Job(id, dto.due.value), c, 2, t);
        return 3;
      }
      n := 2;
    }

    /** The write of `update`; updated is false when it throws or finds nothing to update. */
    method FindByIdAndUpdate(id: Id, dto: Dto, c: nat, t: Thread) returns (updated: bool)
      requires CallAt(t, c, 1) && calls[c] == UpdateWriting(id, dto)
      modifies this
      ensures if dto.due.Some? && updated then CallAt(t, c, 2) && calls[c] == UpdateWritten(id, dto.due.value)
              else CallOver(t, c, 2)
    {
      AwaitCall(t, c, 1);
      UpdateWritingStep(t, c, 1);
      var io := t.o(1);
      updated := io.Ok? && id in db;
      if !io.Lost? && id in db {
        var doc := db[id];
        if dto.status.Some? { doc := doc.(status := dto.status.value); }
        if dto.recipients.Some? { doc := doc.(recipients := dto.recipients.value); }
        if dto.due.Some? { doc := doc.(due := dto.due.value); }
        db := db[id := doc];
      }
      calls := if dto.due.Some? && updated then calls[c := UpdateWritten(id, dto.due.value)] else calls - {c};
    }

    /** `cancelSchedule`. */
    method CancelSchedule(id: Id, others: nat -> seq<Event>, o: nat -> Io) returns (ghost n: nat)
      requires CallIsOwn(others, nextCall)
      modifies this
      ensures id !in old(db) ==> Abs() == old(Abs())
      ensures id in old(db) ==>
        CallRuns(old(Abs()), Abs(), Cancel(id), others, o, old(nextCall), n)
    {
      if id !in db {
        return 0;
      }
      var schedule := db[id];
      CancelOpens(Abs(), id);
      var c, t := Open(CancelGot(id, schedule), others, o);
      n := CancelFound(id, schedule, c, t);
      OpenedCallRuns(old(Abs()), Abs(), Cancel(id), others, o, c, n);
    }

    method CancelFound(id: Id, schedule: Doc, c: nat, t: Thread) returns (ghost n: nat)
      requires CallAt(t, c, 0) && calls[c] == CancelGot(id, schedule)
      modifies this
      ensures CallOver(t, c, n)
    {
      AwaitCall(t, c, 0);
      CancelGotStep(t, c, 0);
      if schedule.status != Pending {
        calls := calls - {c};
        return 1;
      }
      DeleteScheduleTimeout(id);
      calls := calls[c := CancelWriting(id)];
      CancelInDb(id, c, t);
      n := 2;
    }

    method CancelInDb(id: Id, c: nat, t: Thread)
      requires CallAt(t, c, 1) && calls[c] == CancelWriting(id)
      modifies this
      ensures CallOver(t, c, 2)
    {
      AwaitCall(t, c, 1);
      CancelWritingStep(t, c, 1);
      if !t.o(1).Lost? {
        WriteScheduleStatus(id, Cancelled);
      }
      calls := calls - {c};
    }

    /** `remove`. */
    method RemoveSchedule(id: Id, others: nat -> seq<Event>, o: nat -> Io) returns (ghost n: nat)
      requires CallIsOwn(others, nextCall)
      modifies this
      ensures id !in old(db) ==> Abs() == old(Abs())
      ensures id in old(db) ==>
        CallRuns(old(Abs()), Abs(), Remove(id), others, o, old(nextCall), n)
    {
      if id !in db {
        return 0;
      }
      var schedule := db[id];
      RemoveOpens(Abs(), id);
      var c, t := Open(RemoveGot(id, schedule), others, o);
      n := RemoveFound(id, schedule, c, t);
      OpenedCallRuns(old(Abs()), Abs(), Remove(id), others, o, c, n);
    }

    method RemoveFound(id: Id, schedule: Doc, c: nat, t: Thread) returns (ghost n: nat)
      requires CallAt(t, c, 0) && calls[c] == RemoveGot(id, schedule)
      modifies this
      ensures CallOver(t, c, n)
    {
      AwaitCall(t, c, 0);
      RemoveGotStep(t, c, 0);
      if schedule.status == Processing {
        calls := calls - {c};
        return 1;
      }
      DeleteScheduleTimeout(id);
      calls := calls[c := RemoveWriting(id)];
      RemoveInDb(id, c, t);
      n := 2;
    }

    method RemoveInDb(id: Id, c: nat, t: Thread)
      requires CallAt(t, c, 1) && calls[c] == RemoveWriting(id)
      modifies this
      ensures CallOver(t, c, 2)
    {
      AwaitCall(t, c, 1);
      RemoveWritingStep(t, c, 1);
      if !t.o(1).Lost? {
        db := db - {id};
      }
      calls := calls - {c};
    }
  }
}
