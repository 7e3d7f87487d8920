/**
 The bulk sender: batched loops over recipients, a progress summary, and the user's usage counter.
 What WhatsApp and the database answer is an oracle; every branch of the error handling is kept.
 */
module MessageSender {
  import opened Common
  import Templates

  datatype Delivery = Sent | LikelySent | Failed | Skipped

  datatype MessageResult = MessageResult(recipient: string, status: Delivery)

  datatype Progress = Progress(total: nat, completed: nat, successful: nat, failed: nat, currentBatch: nat)

  /** assertWhatsAppConnected: connected, or it throws. */
  datatype Check = Connected | NotConnected(error: string)

  /** client.sendMessage and the wait for the delivery acknowledgement. */
  datatype Reply = Acked | NotAcked | Threw(error: string)

  /**
   The increment of the usage counter: it works, it returns having found no user to update, it throws
   without effect, or it takes effect and throws.
   */
  datatype Inc = IncOk | IncMissed | IncLost(error: string) | IncTorn(error: string)

  /** What happens around one recipient. */
  datatype Attempt = Attempt(outer: Check, inner: Check, reply: Reply, inc: Inc, rescueInc: Inc)

  const KNOWN_SUCCESS_ERRORS: seq<string> :=
    ["getMessageModel", "msg.serialize is not a function", "Cannot read property 'serialize'"]

  const STALE_SESSION_ERRORS: seq<string> :=
    ["Execution context was destroyed", "Protocol error", "Session closed", "Target closed",
     "Cannot find context with specified id", "Navigation failed", "net::ERR_", "getState timeout"]

  predicate MatchesAny(s: string, patterns: seq<string>) {
    exists k :: 0 <= k < |patterns| && Includes(s, patterns[k])
  }

  // ---------------------------------------------------------------------------------------------
  // Which increments an attempt makes, and what it amounts to
  // ---------------------------------------------------------------------------------------------

  /** The delivery was acknowledged, so the usage is counted. */
  predicate Acknowledged(a: Attempt, known: bool) {
    (known ==> a.inner.Connected?) && a.reply.Acked?
  }

  /** What the catch block of `sendSingleMessage` gets. */
  function Caught(a: Attempt, known: bool): Option<string> {
    if known && a.inner.NotConnected? then Some(a.inner.error)
    else if a.reply.Threw? then Some(a.reply.error)
    else if a.reply.Acked? && a.inc.IncLost? then Some(a.inc.error)
    else if a.reply.Acked? && a.inc.IncTorn? then Some(a.inc.error)
    else None
  }

  /** An error that WhatsApp raises although it took the message, on a session that is not stale. */
  predicate LikelyTaken(error: string, known: bool) {
    MatchesAny(error, KNOWN_SUCCESS_ERRORS) && !(known && MatchesAny(error, STALE_SESSION_ERRORS))
  }

  predicate Rescued(a: Attempt, known: bool) {
    Caught(a, known).Some? && LikelyTaken(Caught(a, known).value, known)
  }

  /** The increments that `sendSingleMessage` makes, in order. */
  function Issued(a: Attempt, known: bool): (incs: seq<Inc>)
    ensures |incs| <= 2
  {
    (if Acknowledged(a, known) then [a.inc] else []) + (if Rescued(a, known) then [a.rescueInc] else [])
  }

  /** The same for an element of a batch, which first checks the connection itself. */
  function IssuedInBatch(a: Attempt, known: bool): (incs: seq<Inc>)
    ensures |incs| <= 2
  {
    if known && a.outer.NotConnected? then [] else Issued(a, known)
  }

  predicate Returns(inc: Inc) {
    inc.IncOk? || inc.IncMissed?
  }

  predicate AnyReturns(incs: seq<Inc>) {
    exists i :: 0 <= i < |incs| && Returns(incs[i])
  }

  predicate TakesEffect(inc: Inc) {
    inc.IncOk? || inc.IncTorn?
  }

  /** How many of the increments took effect. */
  function Applied(incs: seq<Inc>): nat {
    if incs == [] then 0 else Applied(incs[..|incs| - 1]) + (if TakesEffect(incs[|incs| - 1]) then 1 else 0)
  }

  /** How far the counter gets ahead of what was reported: torn increments count up, missed ones down. */
  function Drift(incs: seq<Inc>): int {
    if incs == [] then 0
    else
      var last := incs[|incs| - 1];
      Drift(incs[..|incs| - 1]) + (if last.IncTorn? then 1 else if last.IncMissed? then -1 else 0)
  }

  lemma {:induction false} AppliedConcat(a: seq<Inc>, b: seq<Inc>)
    ensures Applied(a + b) == Applied(a) + Applied(b) && Drift(a + b) == Drift(a) + Drift(b)
    decreases |b|
  {
    if b == [] {
      assert a + b == a;
    } else {
      AppliedConcat(a, b[..|b| - 1]);
      assert (a + b)[..|a + b| - 1] == a + b[..|b| - 1];
    }
  }

  lemma CountsOfOne(i: Inc)
    ensures Applied([i]) == if TakesEffect(i) then 1 else 0
    ensures Drift([i]) == if i.IncTorn? then 1 else if i.IncMissed? then -1 else 0
  {
    assert [i][..0] == [];
  }

  /**
   What a recipient of a batch is reported as: delivered exactly if an increment returned, confirmed if
   that was the one after the acknowledgement.
   */
  function Reported(a: Attempt, known: bool): Delivery {
    if !AnyReturns(IssuedInBatch(a, known)) then Failed
    else if Acknowledged(a, known) && Returns(a.inc) then Sent
    else LikelySent
  }

  /**
   An attempt counts once if it is reported as delivered, once more for every torn increment, and less for a
   missed one.
   */
  lemma CountsOnceAndDrift(a: Attempt, known: bool, recipient: string)
    ensures var incs := IssuedInBatch(a, known);
      Applied(incs) == (if Delivered(MessageResult(recipient, Reported(a, known))) then 1 else 0) + Drift(incs)
  {
    WhoReturns(a, known);
    CountsOfOne(a.inc);
    CountsOfOne(a.rescueInc);
    AppliedConcat([a.inc], [a.rescueInc]);
  }

  /** An increment that returns is the last one made. */
  lemma WhoReturns(a: Attempt, known: bool)
    ensures var first, second := Acknowledged(a, known), Rescued(a, known);
      && Issued(a, known) == (if first && second then [a.inc] + [a.rescueInc] else if first then [a.inc]
                              else if second then [a.rescueInc] else [])
      && (AnyReturns(Issued(a, known)) <==> (first && Returns(a.inc)) || (second && Returns(a.rescueInc)))
      && (first && Returns(a.inc) ==> !second)
      && !AnyReturns([])
  {
    var incs := Issued(a, known);
    if Acknowledged(a, known) { assert incs[0] == a.inc; }
    if Rescued(a, known) { assert incs[|incs| - 1] == a.rescueInc; }
  }

  // ---------------------------------------------------------------------------------------------
  // The same in the fields of the attempt
  // ---------------------------------------------------------------------------------------------

  /** The text of an error that WhatsApp raises although it took the message. */
  predicate SaysTaken(error: string) {
    || Includes(error, "getMessageModel")
    || Includes(error, "msg.serialize is not a function")
    || Includes(error, "Cannot read property 'serialize'")
  }

  /** Something that is reached threw an error with such a text. */
  predicate ThrewTaken(a: Attempt, known: bool) {
    if known && a.inner.NotConnected? then SaysTaken(a.inner.error)
    else
      match a.reply
      case Threw(error) => SaysTaken(error)
      case NotAcked => false
      case Acked => (a.inc.IncLost? || a.inc.IncTorn?) && SaysTaken(a.inc.error)
  }

  /** The connection checks pass, the delivery is acknowledged, and its increment returns. */
  predicate Confirmed(a: Attempt, known: bool) {
    (known ==> a.inner.Connected?) && a.reply.Acked? && (a.inc.IncOk? || a.inc.IncMissed?)
  }

  lemma TakenTexts(error: string)
    ensures MatchesAny(error, KNOWN_SUCCESS_ERRORS) <==> SaysTaken(error)
  {
    var ks := KNOWN_SUCCESS_ERRORS;
    assert ks[0] == "getMessageModel" && ks[1] == "msg.serialize is not a function";
    assert ks[2] == "Cannot read property 'serialize'" && |ks| == 3;
  }

  /** Without an acknowledgement nothing is counted, and nothing is reported as delivered. */
  lemma UnackedIsFailed(a: Attempt, known: bool)
    requires (known ==> a.inner.Connected?) && a.reply.NotAcked?
    ensures Issued(a, known) == [] && Reported(a, known) == Failed
  {
    WhoReturns(a, known);
  }

  /** What is reported says what happened. */
  lemma ReportMeaning(a: Attempt, known: bool)
    ensures Reported(a, known) == Sent <==> (known ==> a.outer.Connected?) && Confirmed(a, known)
    ensures Reported(a, known) == LikelySent ==> (known ==> a.outer.Connected?) && ThrewTaken(a, known)
    ensures known && a.outer.NotConnected? ==> Reported(a, known) == Failed && IssuedInBatch(a, known) == []
    ensures (known ==> a.inner.Connected?) && a.reply.NotAcked? ==>
      Reported(a, known) == Failed && IssuedInBatch(a, known) == []
  {
    WhoReturns(a, known);
    if Caught(a, known).Some? { TakenTexts(Caught(a, known).value); }
  }

  predicate Delivered(r: MessageResult) {
    r.status == Sent || r.status == LikelySent
  }

  function CountDelivered(rs: seq<MessageResult>): (n: nat)
    ensures n <= |rs|
  {
    if rs == [] then 0 else CountDelivered(rs[..|rs| - 1]) + (if Delivered(rs[|rs| - 1]) then 1 else 0)
  }

  lemma {:induction false} CountConcat(a: seq<MessageResult>, b: seq<MessageResult>)
    ensures CountDelivered(a + b) == CountDelivered(a) + CountDelivered(b)
    decreases |b|
  {
    if b == [] {
      assert a + b == a;
    } else {
      CountConcat(a, b[..|b| - 1]);
      assert (a + b)[..|a + b| - 1] == a + b[..|b| - 1];
    }
  }

  /** The drift over the first n recipients. */
  function DriftUpTo(oracle: nat -> Attempt, known: bool, n: nat): int {
    if n == 0 then 0 else DriftUpTo(oracle, known, n - 1) + Drift(IssuedInBatch(oracle(n - 1), known))
  }

  /** results[i] is for recipient i, and the usage grew by the delivered ones and the drift. */
  ghost predicate Accounted(recipients: seq<string>, results: seq<MessageResult>, oracle: nat -> Attempt, known: bool,
                            used0: nat, used: nat) {
    && |results| <= |recipients|
    && (forall i :: 0 <= i < |results| ==> results[i] == MessageResult(recipients[i], Reported(oracle(i), known)))
    && used == used0 + CountDelivered(results) + DriftUpTo(oracle, known, |results|)
  }

  /** The result is for the recipient, and its status says how the attempt went. */
  predicate SaysWhatHappened(r: MessageResult, recipient: string, a: Attempt, known: bool) {
    && r.recipient == recipient
    && (r.status == Sent <==> (known ==> a.outer.Connected?) && Confirmed(a, known))
    && (r.status == LikelySent ==> ThrewTaken(a, known))
    && ((known ==> a.inner.Connected?) && a.reply.NotAcked? ==> r.status == Failed)
  }

  lemma AllSayWhatHappened(recipients: seq<string>, results: seq<MessageResult>, oracle: nat -> Attempt, known: bool)
    requires |results| == |recipients|
    requires forall i :: 0 <= i < |results| ==> results[i] == MessageResult(recipients[i], Reported(oracle(i), known))
    ensures forall i :: 0 <= i < |results| ==> SaysWhatHappened(results[i], recipients[i], oracle(i), known)
  {
    forall i: nat | i < |results| ensures SaysWhatHappened(results[i], recipients[i], oracle(i), known) {
      ReportMeaning(oracle(i), known);
    }
  }

  /** The summary after the results so far. */
  ghost predicate Summed(summary: Progress, summary0: Progress, results: seq<MessageResult>) {
    && summary.total == summary0.total
    && summary.completed == summary0.completed + |results|
    && summary.successful == summary0.successful + CountDelivered(results)
    && summary.failed == summary0.failed + |results| - CountDelivered(results)
  }

  lemma CountOneMore(results: seq<MessageResult>, r: MessageResult)
    ensures CountDelivered(results + [r]) == CountDelivered(results) + (if Delivered(r) then 1 else 0)
  {
    assert (results + [r])[..|results|] == results;
  }

  lemma OneMore(recipients: seq<string>, results: seq<MessageResult>, oracle: nat -> Attempt, known: bool,
                used0: nat, used: nat, r: MessageResult)
    requires Accounted(recipients, results, oracle, known, used0, used) && |results| < |recipients|
    requires r == MessageResult(recipients[|results|], Reported(oracle(|results|), known))
    ensures Accounted(recipients, results + [r], oracle, known, used0,
                      used + Applied(IssuedInBatch(oracle(|results|), known)))
  {
    var n := |results|;
    var incs := IssuedInBatch(oracle(n), known);
    CountOneMore(results, r);
    CountsOnceAndDrift(oracle(n), known, recipients[n]);
    assert Applied(incs) == (if Delivered(r) then 1 else 0) + Drift(incs);
    assert DriftUpTo(oracle, known, n + 1) == DriftUpTo(oracle, known, n) + Drift(incs);
    forall i | 0 <= i < n + 1 ensures (results + [r])[i] == MessageResult(recipients[i], Reported(oracle(i), known)) {
      assert i < n ==> (results + [r])[i] == results[i];
    }
  }

  datatype SendError =
    | SessionNotFound | AlreadySending | NoSubscription | LimitExceeded | NotReady | Unhealthy
    | NothingToSend | ResolverThrew

  datatype Outcome = Replied(results: seq<MessageResult>, summary: Progress) | Refused(error: SendError)

  /** What the environment answers before the first send. */
  datatype Setting = Setting(hasClient: bool, hasSubscription: bool, precheck: Check)

  /** The checks before the account is marked as sending, in their order. */
  function Gate(e: Setting, isSending: bool, isReady: bool, used: nat, limit: nat): Option<SendError> {
    if !e.hasClient then Some(SessionNotFound)
    else if isSending then Some(AlreadySending)
    else if !e.hasSubscription then Some(NoSubscription)
    else if used >= limit then Some(LimitExceeded)
    else if !isReady then Some(NotReady)
    else if e.precheck.NotConnected? then Some(Unhealthy)
    else None
  }

  /** Which of the checks fails first decides the refusal. */
  lemma GateIsFirstFailure(e: Setting, isSending: bool, isReady: bool, used: nat, limit: nat)
    ensures var g := Gate(e, isSending, isReady, used, limit);
      && (g == Some(SessionNotFound) <==> !e.hasClient)
      && (g == Some(AlreadySending) <==> e.hasClient && isSending)
      && (g == Some(NoSubscription) <==> e.hasClient && !isSending && !e.hasSubscription)
      && (g == Some(LimitExceeded) <==> e.hasClient && !isSending && e.hasSubscription && used >= limit)
      && (g == Some(NotReady) <==>
            e.hasClient && !isSending && e.hasSubscription && used < limit && !isReady)
      && (g == Some(Unhealthy) <==>
            e.hasClient && !isSending && e.hasSubscription && used < limit && isReady && e.precheck.NotConnected?)
      && (g == None <==>
            e.hasClient && !isSending && e.hasSubscription && used < limit && isReady && e.precheck.Connected?)
  {
  }

  predicate BlankMessage(message: Option<string>) {
    message.None? || Templates.Trim(message.value) == ""
  }

  /** One line of a spreadsheet: resolved is None when the resolver throws. */
  datatype Item = Item(number: string, resolved: Option<seq<string>>, contentResolves: bool)

  /** The recipients that a line is sent to. */
  function SentTo(item: Item): seq<string> {
    if item.resolved.Some? && item.contentResolves then item.resolved.value else []
  }

  /** The results of one line. */
  function Line(item: Item, oracle: nat -> Attempt, known: bool): seq<MessageResult> {
    if item.resolved.None? then [MessageResult(item.number, Failed)]
    else if item.resolved.value == [] then [MessageResult(item.number, Skipped)]
    else if !item.contentResolves then [MessageResult(item.number, Failed)]
    else
      seq(|SentTo(item)|,
          j requires 0 <= j < |SentTo(item)| => MessageResult(SentTo(item)[j], Reported(oracle(j), known)))
  }

  /** A line is skipped exactly if it resolves to nobody, and fails as a whole if a resolver throws. */
  lemma LineMeaning(item: Item, oracle: nat -> Attempt, known: bool)
    ensures var rs := Line(item, oracle, known);
      && ((exists r :: r in rs && r.status == Skipped) <==> item.resolved == Some([]))
      && (item.resolved.None? || (item.resolved.value != [] && !item.contentResolves) ==>
            |rs| == 1 && rs[0].recipient == item.number && rs[0].status == Failed)
      && (item.resolved.Some? && item.resolved.value != [] && item.contentResolves ==>
            |rs| == |item.resolved.value|
            && forall j :: 0 <= j < |rs| ==> rs[j].recipient == item.resolved.value[j])
  {
    var rs := Line(item, oracle, known);
    if item.resolved == Some([]) {
      assert rs[0].status == Skipped && rs[0] in rs;
    } else {
      forall r | r in rs ensures r.status != Skipped {
        var k :| 0 <= k < |rs| && rs[k] == r;
        assert forall a :: Reported(a, known) != Skipped;
      }
    }
  }

  /** The results of all lines; attempt j of line i ends as oracle(i)(j) says. */
  function Lines(items: seq<Item>, oracle: nat -> nat -> Attempt, known: bool): seq<seq<MessageResult>> {
    seq(|items|, i requires 0 <= i < |items| => Line(items[i], oracle(i), known))
  }

  function ItemDrift(item: Item, oracle: nat -> Attempt, known: bool): int {
    DriftUpTo(oracle, known, |SentTo(item)|)
  }

  function Flatten(rss: seq<seq<MessageResult>>): seq<MessageResult> {
    if rss == [] then [] else Flatten(rss[..|rss| - 1]) + rss[|rss| - 1]
  }

  predicate FirstDelivered(rs: seq<MessageResult>) {
    rs != [] && Delivered(rs[0])
  }

  function Successes(rss: seq<seq<MessageResult>>): (n: nat)
    ensures n <= |rss|
  {
    if rss == [] then 0 else Successes(rss[..|rss| - 1]) + (if FirstDelivered(rss[|rss| - 1]) then 1 else 0)
  }

  function DriftOf(items: seq<Item>, oracle: nat -> nat -> Attempt, known: bool, n: nat): int
    requires n <= |items|
  {
    if n == 0 then 0
    else DriftOf(items, oracle, known, n - 1) + ItemDrift(items[n - 1], oracle(n - 1), known)
  }

  lemma FlattenOneMore(rss: seq<seq<MessageResult>>, rs: seq<MessageResult>)
    ensures Flatten(rss + [rs]) == Flatten(rss) + rs
    ensures CountDelivered(Flatten(rss + [rs])) == CountDelivered(Flatten(rss)) + CountDelivered(rs)
    ensures Successes(rss + [rs]) == Successes(rss) + (if FirstDelivered(rs) then 1 else 0)
  {
    assert (rss + [rs])[..|rss|] == rss;
    CountConcat(Flatten(rss), rs);
  }

  /** The lines so far have their results, and the usage grew by the deliveries and the drift. */
  ghost predicate LinesSent(items: seq<Item>, oracle: nat -> nat -> Attempt, known: bool,
                            lines: seq<seq<MessageResult>>, results: seq<MessageResult>, used0: nat, used: nat) {
    && |lines| <= |items| && lines == Lines(items, oracle, known)[..|lines|]
    && results == Flatten(lines)
    && used == used0 + CountDelivered(results) + DriftOf(items, oracle, known, |lines|)
  }

  lemma OneMoreLine(items: seq<Item>, oracle: nat -> nat -> Attempt, known: bool, lines: seq<seq<MessageResult>>,
                    results: seq<MessageResult>, used0: nat, used: nat, rs: seq<MessageResult>, used': nat)
    requires LinesSent(items, oracle, known, lines, results, used0, used) && |lines| < |items|
    requires rs == Line(items[|lines|], oracle(|lines|), known)
    requires used' == used + CountDelivered(rs) + ItemDrift(items[|lines|], oracle(|lines|), known)
    ensures LinesSent(items, oracle, known, lines + [rs], results + rs, used0, used')
    ensures Successes(lines + [rs]) == Successes(lines) + (if FirstDelivered(rs) then 1 else 0)
  {
    FlattenOneMore(lines, rs);
    CountConcat(results, rs);
    DriftOneMore(items, oracle, known, |lines|);
    LinesOneMore(Lines(items, oracle, known), lines, rs);
  }

  lemma LinesOneMore(all: seq<seq<MessageResult>>, lines: seq<seq<MessageResult>>, rs: seq<MessageResult>)
    requires |lines| < |all| && lines == all[..|lines|] && rs == all[|lines|]
    ensures lines + [rs] == all[..|lines + [rs]|]
  {
  }

  lemma DriftOneMore(items: seq<Item>, oracle: nat -> nat -> Attempt, known: bool, n: nat)
    requires n < |items|
    ensures DriftOf(items, oracle, known, n + 1) == DriftOf(items, oracle, known, n)
      + ItemDrift(items[n], oracle(n), known)
  {
  }

  lemma {:induction false} CountSplit(rs: seq<MessageResult>)
    requires rs != []
    ensures CountDelivered(rs) == (if Delivered(rs[0]) then 1 else 0) + CountDelivered(rs[1..])
  {
    assert rs == [rs[0]] + rs[1..];
    CountConcat([rs[0]], rs[1..]);
    assert [rs[0]][..0] == [];
  }

  /** The deliveries beyond the first result of each line. */
  function Extra(rss: seq<seq<MessageResult>>): nat {
    if rss == [] then 0
    else Extra(rss[..|rss| - 1]) + (if rss[|rss| - 1] == [] then 0 else CountDelivered(rss[|rss| - 1][1..]))
  }

  /** A run's `successful` falls short of its deliveries by those beyond the first result of each line. */
  lemma {:induction false} SuccessfulMissesExtra(rss: seq<seq<MessageResult>>)
    ensures CountDelivered(Flatten(rss)) == Successes(rss) + Extra(rss)
    decreases |rss|
  {
    if rss != [] {
      var r, last := rss[..|rss| - 1], rss[|rss| - 1];
      SuccessfulMissesExtra(r);
      assert rss == r + [last];
      FlattenOneMore(r, last);
      if last != [] { CountSplit(last); }
    }
  }

  /** Where batch number k starts. */
  function Offset(k: nat, batchSize: nat): nat {
    if k == 0 then 0 else Offset(k - 1, batchSize) + batchSize
  }

  lemma {:induction false} OffsetIsProduct(k: nat, b: nat)
    ensures Offset(k, b) == k * b
  {
    if k > 0 { OffsetIsProduct(k - 1, b); }
  }

  lemma OffsetOverSize(k: nat, b: nat)
    requires b >= 1
    ensures Offset(k, b) / b == k
  {
    OffsetIsProduct(k, b);
    DivExact(b, k);
  }

  method BatchNumber(i: nat, batchSize: nat, ghost k: nat) returns (n: nat)
    requires batchSize >= 1 && i == Offset(k, batchSize)
    ensures n == k + 1
  {
    OffsetOverSize(k, batchSize);
    n := i / batchSize + 1;
  }

  class Sender {
    var messagesUsed: nat
    const messageLimit: nat
    var isSending: bool
    var isReady: bool
    const known: bool   // the client carries its client id
    ghost var increments: seq<Inc>   // every increment made so far

    constructor (messagesUsed: nat, messageLimit: nat, isReady: bool, known: bool)
      ensures this.messagesUsed == messagesUsed && this.messageLimit == messageLimit
      ensures this.isReady == isReady && this.known == known && !isSending && increments == []
    {
      this.messagesUsed, this.messageLimit, this.isReady, this.known := messagesUsed, messageLimit, isReady, known;
      isSending, increments := false, [];
    }

    /** The increments made since then, and their effect on the counter. */
    twostate predicate Made(incs: seq<Inc>)
      reads this
    {
      increments == old(increments) + incs && messagesUsed == old(messagesUsed) + Applied(incs)
    }

    method IncrementMessageUsage(inc: Inc) returns (error: Option<string>)
      modifies this`messagesUsed, this`increments
      ensures Made([inc])
      ensures error == if inc.IncLost? || inc.IncTorn? then Some(inc.error) else None
    {
      CountsOfOne(inc);
      increments := increments + [inc];
      match inc
      case IncOk => messagesUsed := messagesUsed + 1; error := None;
      case IncMissed => error := None;
      case IncLost(e) => error := Some(e);
      case IncTorn(e) => messagesUsed := messagesUsed + 1; error := Some(e);
    }

    /** `handleSendError`: counts the message exactly if it was probably taken; None when that count throws. */
    method HandleSendError(error: string, inc: Inc) returns (status: Option<Delivery>)
      modifies this`messagesUsed, this`increments
      ensures Made(if LikelyTaken(error, known) then [inc] else [])
      ensures (known && MatchesAny(error, STALE_SESSION_ERRORS)) || !SaysTaken(error) ==>
        status == Some(Failed) && increments == old(increments) && messagesUsed == old(messagesUsed)
      ensures status == Some(LikelySent) <==> LikelyTaken(error, known) && Returns(inc)
      ensures status == None <==> LikelyTaken(error, known) && !Returns(inc)
      ensures status in {Some(LikelySent), Some(Failed), None}
    {
      TakenTexts(error);
      if known && MatchesAny(error, STALE_SESSION_ERRORS) {
        return Some(Failed);
      }
      if MatchesAny(error, KNOWN_SUCCESS_ERRORS) {
        var thrown := IncrementMessageUsage(inc);
        if thrown.Some? {
          return None;
        }
        return Some(LikelySent);
      }
      return Some(Failed);
    }

    /** `sendSingleMessage`: delivered exactly if an increment it makes returns; None when it throws. */
    method SendSingleMessage(a: Attempt) returns (status: Option<Delivery>)
      modifies this`messagesUsed, this`increments
      ensures Made(Issued(a, known))
      ensures status in {Some(Sent), Some(LikelySent)} <==> AnyReturns(Issued(a, known))
      ensures status == Some(Sent) <==> Confirmed(a, known)
      ensures status == Some(LikelySent) ==> Rescued(a, known) && ThrewTaken(a, known)
      ensures (known ==> a.inner.Connected?) && a.reply.NotAcked? ==>
        status == Some(Failed) && increments == old(increments) && messagesUsed == old(messagesUsed)
      ensures status == None <==> Rescued(a, known) && !Returns(a.rescueInc)
      ensures status in {Some(Sent), Some(LikelySent), Some(Failed), None}
    {
      WhoReturns(a, known);
      if Caught(a, known).Some? { TakenTexts(Caught(a, known).value); }
      if known && a.inner.NotConnected? {
        status := HandleSendError(a.inner.error, a.rescueInc);
        return;
      }
      match a.reply
      case Threw(error) => status := HandleSendError(error, a.rescueInc);
      case NotAcked => status := Some(Failed);
      case Acked => status := Count(a);
    }

    /** The delivery is acknowledged: it is counted, and a failing count goes to the catch block. */
    method Count(a: Attempt) returns (status: Option<Delivery>)
      requires Acknowledged(a, known)
      modifies this`messagesUsed, this`increments
      ensures Made(Issued(a, known))
      ensures status == Some(Sent) <==> Returns(a.inc)
      ensures status == Some(LikelySent) <==> Rescued(a, known) && Returns(a.rescueInc)
      ensures status == None <==> Rescued(a, known) && !Returns(a.rescueInc)
      ensures status in {Some(Sent), Some(LikelySent), Some(Failed), None}
    {
      WhoReturns(a, known);
      var thrown := IncrementMessageUsage(a.inc);
      if thrown.Some? {
        AppliedConcat([a.inc], if LikelyTaken(thrown.value, known) then [a.rescueInc] else []);
        status := HandleSendError(thrown.value, a.rescueInc);
      } else {
        status := Some(Sent);
      }
    }

    /** `sendToRecipients`, and but for the delay `sendToRecipientsWithPhoto`. */
    method SendToRecipients(recipients: seq<string>, oracle: nat -> Attempt, batchSize: nat, summary0: Progress)
      returns (results: seq<MessageResult>, summary: Progress)
      requires batchSize >= 1
      modifies this`messagesUsed, this`increments
      ensures |results| == |recipients|
        && Accounted(recipients, results, oracle, known, old(messagesUsed), messagesUsed)
      ensures forall i :: 0 <= i < |results| ==> SaysWhatHappened(results[i], recipients[i], oracle(i), known)
      ensures Summed(summary, summary0, results)
      ensures recipients == [] ==> summary.currentBatch == summary0.currentBatch
      ensures recipients != [] ==>
        summary.currentBatch >= 1
          && Offset(summary.currentBatch - 1, batchSize) < |recipients| <= Offset(summary.currentBatch, batchSize)
    {
      results, summary := [], summary0;
      var i := 0;
      ghost var batches := 0;
      while i < |recipients|
        invariant i == Offset(batches, batchSize)
        invariant |results| == if i <= |recipients| then i else |recipients|
        invariant Accounted(recipients, results, oracle, known, old(messagesUsed), messagesUsed)
        invariant Summed(summary, summary0, results)
        invariant i == 0 ==> summary == summary0
        invariant i > 0 ==> batches >= 1 && summary.currentBatch == batches
        invariant i > 0 ==> Offset(batches - 1, batchSize) < |recipients|
      {
        var end := if i + batchSize <= |recipients| then i + batchSize else |recipients|;
        var currentBatch := BatchNumber(i, batchSize, batches);
        summary := summary.(currentBatch := currentBatch);
        results, summary := SendBatch(recipients, oracle, results, summary, end, summary0, old(messagesUsed));
        i := i + batchSize;
        batches := batches + 1;
      }
      AllSayWhatHappened(recipients, results, oracle, known);
    }

    /** One batch: its promises are settled and their results recorded in order. */
    method SendBatch(recipients: seq<string>, oracle: nat -> Attempt, results0: seq<MessageResult>, summary1: Progress,
                     end: nat, ghost summary0: Progress, ghost used0: nat)
      returns (results: seq<MessageResult>, summary: Progress)
      requires |results0| <= end <= |recipients|
      requires Accounted(recipients, results0, oracle, known, used0, messagesUsed)
        && Summed(summary1, summary0, results0)
      modifies this`messagesUsed, this`increments
      ensures |results| == end && Accounted(recipients, results, oracle, known, used0, messagesUsed)
      ensures Summed(summary, summary0, results) && summary.currentBatch == summary1.currentBatch
    {
      results, summary := results0, summary1;
      for k := |results0| to end
        invariant |results| == k
        invariant Accounted(recipients, results, oracle, known, used0, messagesUsed)
        invariant Summed(summary, summary0, results) && summary.currentBatch == summary1.currentBatch
      {
        ghost var used := messagesUsed;
        var status := SettleOne(oracle(k));
        var result := MessageResult(recipients[k], status);
        OneMore(recipients, results, oracle, known, used0, used, result);
        CountOneMore(results, result);
        results := results + [result];
        if Delivered(result) {
          summary := summary.(successful := summary.successful + 1);
        } else {
          summary := summary.(failed := summary.failed + 1);
        }
        summary := summary.(completed := summary.completed + 1);
      }
    }

    /** `sendMessage`: text or photo to a list of recipients. */
    method SendMessage(e: Setting, message: Option<string>, photo: bool, contentResolves: bool,
                       resolved: Option<seq<string>>, oracle: nat -> Attempt, batchSize: nat)
      returns (r: Outcome)
      requires batchSize >= 1
      modifies this`messagesUsed, this`increments, this`isSending
      ensures var g := Gate(e, old(isSending), isReady, old(messagesUsed), messageLimit);
        if g.Some? then r == Refused(g.value) && isSending == old(isSending) && messagesUsed == old(messagesUsed)
        else !isSending && (r.Refused? ==> messagesUsed == old(messagesUsed))
      ensures r.Replied? ==>
        && resolved.Some? && |r.results| == |resolved.value|
        && Accounted(resolved.value, r.results, oracle, known, old(messagesUsed), messagesUsed)
        && r.summary.completed == r.summary.total == |r.results|
        && r.summary.successful == CountDelivered(r.results)
        && r.summary.successful + r.summary.failed == r.summary.total
      ensures r.Replied? ==>
        && old(messagesUsed) < messageLimit && !old(isSending) && isReady
        && e.hasClient && e.hasSubscription && e.precheck.Connected?
      ensures Gate(e, old(isSending), isReady, old(messagesUsed), messageLimit).None? ==>
        (r.Replied? <==> (photo || !BlankMessage(message)) && (message.Some? && message.value != "" ==>
          contentResolves) && resolved.Some?)
    {
      var g := Gate(e, isSending, isReady, messagesUsed, messageLimit);
      if g.Some? {
        return Refused(g.value);
      }
      isSending := true;
      if !photo && BlankMessage(message) {
        r := Refused(NothingToSend);
      } else if message.Some? && message.value != "" && !contentResolves {
        r := Refused(ResolverThrew);
      } else if resolved.None? {
        r := Refused(ResolverThrew);
      } else if resolved.value == [] {
        r := Replied([], Progress(0, 0, 0, 0, 0));
      } else {
        var results, summary :=
          SendToRecipients(resolved.value, oracle, batchSize, Progress(|resolved.value|, 0, 0, 0, 0));
        r := Replied(results, summary);
      }
      isSending := false;
    }

    /** One line of `sendMessageExcel`, inside its try block. */
    method SendItem(item: Item, oracle: nat -> Attempt, batchSize: nat) returns (rs: seq<MessageResult>)
      requires batchSize >= 1
      modifies this`messagesUsed, this`increments
      ensures rs == Line(item, oracle, known)
      ensures messagesUsed == old(messagesUsed) + CountDelivered(rs) + ItemDrift(item, oracle, known)
    {
      if item.resolved.None? {
        rs := [MessageResult(item.number, Failed)];
        CountOneMore([], rs[0]);
      } else if item.resolved.value == [] {
        rs := [MessageResult(item.number, Skipped)];
        CountOneMore([], rs[0]);
      } else if !item.contentResolves {
        rs := [MessageResult(item.number, Failed)];
        CountOneMore([], rs[0]);
      } else {
        var summary;
        rs, summary := SendToRecipients(SentTo(item), oracle, batchSize, Progress(1, 0, 0, 0, 0));
      }
    }

    /** `sendMessageExcel`: one message per line. */
    method SendMessageExcel(e: Setting, items: seq<Item>, oracle: nat -> nat -> Attempt, batchSize: nat)
      returns (r: Outcome, ghost lines: seq<seq<MessageResult>>)
      requires batchSize >= 1
      modifies this`messagesUsed, this`increments, this`isSending
      ensures var g := Gate(e, old(isSending), isReady, old(messagesUsed), messageLimit);
        if g.Some? then r == Refused(g.value) && isSending == old(isSending) && messagesUsed == old(messagesUsed)
        else r.Replied? && !isSending
      ensures r.Replied? ==>
        && lines == Lines(items, oracle, known)
          && LinesSent(items, oracle, known, lines, r.results, old(messagesUsed), messagesUsed)
        && r.summary == Progress(|items|, |items|, Successes(lines), |items| - Successes(lines), 0)
        && CountDelivered(r.results) == r.summary.successful + Extra(lines)
    {
      var g := Gate(e, isSending, isReady, messagesUsed, messageLimit);
      lines := [];
      if g.Some? {
        return Refused(g.value), lines;
      }
      isSending := true;
      var allResults, completed, successful;
      allResults, completed, successful, lines := SendLines(items, oracle, batchSize);
      SuccessfulMissesExtra(lines);
      r := Replied(allResults, Progress(|items|, completed, successful, completed - successful, 0));
      isSending := false;
    }

    /** The loop of `sendMessageExcel`. */
    method SendLines(items: seq<Item>, oracle: nat -> nat -> Attempt, batchSize: nat)
      returns (allResults: seq<MessageResult>, completed: nat, successful: nat, ghost lines: seq<seq<MessageResult>>)
      requires batchSize >= 1
      modifies this`messagesUsed, this`increments
      ensures lines == Lines(items, oracle, known) && |lines| == completed && successful == Successes(lines)
      ensures LinesSent(items, oracle, known, lines, allResults, old(messagesUsed), messagesUsed)
    {
      allResults, completed, successful, lines := [], 0, 0, [];
      for i := 0 to |items|
        invariant |lines| == i == completed && successful == Successes(lines)
        invariant LinesSent(items, oracle, known, lines, allResults, old(messagesUsed), messagesUsed)
      {
        ghost var used := messagesUsed;
        var rs := SendItem(items[i], oracle(i), batchSize);
        OneMoreLine(items, oracle, known, lines, allResults, old(messagesUsed), used, rs, messagesUsed);
        allResults := allResults + rs;
        lines := lines + [rs];
        if |rs| > 0 && Delivered(rs[0]) {
          successful := successful + 1;
        }
        completed := completed + 1;
      }
    }

    /** One element of a batch under Promise.allSettled: a rejection counts as failed. */
    method SettleOne(a: Attempt) returns (status: Delivery)
      modifies this`messagesUsed, this`increments
      ensures Made(IssuedInBatch(a, known)) && status == Reported(a, known)
    {
      if known && a.outer.NotConnected? {
        return Failed;
      }
      WhoReturns(a, known);
      var s := SendSingleMessage(a);
      status := if s.Some? then s.value else Failed;
    }
  }

  lemma DivExact(b: int, k: int)
    requires b >= 1
    ensures (k * b) / b == k
  {
    var q, r := (k * b) / b, (k * b) % b;
    assert k * b == q * b + r;
    assert (k - q) * b == r;
    assert k - q >= 1 ==> (k - q) * b >= b;
    assert k - q <= -1 ==> (k - q) * b <= -b;
  }
}
