/** What the usage counter and the summaries of the bulk sender are worth, over all runs, and exactly when. */
module MessageAccounting {
  import opened Common
  import opened MessageSender

  // ---------------------------------------------------------------------------------------------
  // The usage counter
  // ---------------------------------------------------------------------------------------------

  /** What may happen to an increment: it takes effect and throws, or it returns without effect. */
  datatype Faults = Faults(torn: bool, missed: bool)

  predicate Permits(f: Faults, incs: seq<Inc>) {
    forall i :: 0 <= i < |incs| ==> (incs[i].IncTorn? ==> f.torn) && (incs[i].IncMissed? ==> f.missed)
  }

  /** The increments that are made suffer no other faults; anything else may fail. */
  ghost predicate Within(f: Faults, oracle: nat -> Attempt, known: bool) {
    forall i: nat :: Permits(f, IssuedInBatch(oracle(i), known))
  }

  ghost predicate Complete(f: Faults, recipients: seq<string>, results: seq<MessageResult>, oracle: nat -> Attempt,
                           known: bool, used0: nat, used: nat) {
    Within(f, oracle, known) && Accounted(recipients, results, oracle, known, used0, used) && |results| == |recipients|
  }

  /** In every complete run the counter grows by exactly the deliveries. */
  ghost predicate CounterIsExact(f: Faults, known: bool) {
    forall recipients, results, oracle, used0: nat, used: nat ::
      Complete(f, recipients, results, oracle, known, used0, used) ==> used == used0 + CountDelivered(results)
  }

  /** In every complete run the counter grows by at most the number of recipients. */
  ghost predicate QuotaIsKept(f: Faults, known: bool) {
    forall recipients, results, oracle, used0: nat, used: nat ::
      Complete(f, recipients, results, oracle, known, used0, used) ==> used <= used0 + |recipients|
  }

  lemma {:induction false} DriftWithin(f: Faults, incs: seq<Inc>)
    requires Permits(f, incs)
    ensures !f.torn ==> Drift(incs) <= 0
    ensures !f.missed ==> Drift(incs) >= 0
    decreases |incs|
  {
    if incs != [] { DriftWithin(f, incs[..|incs| - 1]); }
  }

  lemma {:induction false} DriftOverRun(f: Faults, oracle: nat -> Attempt, known: bool, n: nat)
    requires Within(f, oracle, known)
    ensures !f.torn ==> DriftUpTo(oracle, known, n) <= 0
    ensures !f.missed ==> DriftUpTo(oracle, known, n) >= 0
    decreases n
  {
    if n > 0 {
      DriftOverRun(f, oracle, known, n - 1);
      DriftWithin(f, IssuedInBatch(oracle(n - 1), known));
    }
  }

  /** An acknowledged send whose increments go as given. */
  function AckedWith(inc: Inc, rescueInc: Inc): Attempt {
    Attempt(Connected, Connected, Acked, inc, rescueInc)
  }

  const TAKEN := "getMessageModel"

  lemma StartsElsewhere(s: string, p: string)
    requires p != [] && forall i :: 0 <= i && i + |p| <= |s| ==> s[i] != p[0]
    ensures !Includes(s, p)
  {
    forall i | 0 <= i <= |s| ensures !IncludesAt(s, i, p) {
      if i + |p| <= |s| { assert s[i..i + |p|][0] == s[i]; }
    }
  }

  /** The error counts as a probable delivery, whether or not the client is known. */
  lemma TakenIsLikely(known: bool)
    ensures LikelyTaken(TAKEN, known)
  {
    assert IncludesAt(TAKEN, 0, KNOWN_SUCCESS_ERRORS[0]);
    forall k | 0 <= k < |STALE_SESSION_ERRORS| ensures !Includes(TAKEN, STALE_SESSION_ERRORS[k]) {
      StartsElsewhere(TAKEN, STALE_SESSION_ERRORS[k]);
    }
  }

  lemma RunOfOne(a: Attempt, known: bool) returns (oracle: nat -> Attempt, results: seq<MessageResult>, used: nat)
    ensures oracle == (i => a) && results == [MessageResult("x", Reported(a, known))]
    ensures used == Applied(IssuedInBatch(a, known))
    ensures Accounted(["x"], results, oracle, known, 0, used)
    ensures CountDelivered(results) == if Delivered(results[0]) then 1 else 0
  {
    oracle := i => a;
    results := [MessageResult("x", Reported(a, known))];
    used := Applied(IssuedInBatch(a, known));
    CountOneMore([], results[0]);
    CountsOnceAndDrift(a, known, "x");
    assert DriftUpTo(oracle, known, 1) == DriftUpTo(oracle, known, 0) + Drift(IssuedInBatch(oracle(0), known));
  }

  /**
   One recipient, one delivery, two increments: the first took effect and threw an error that means a probable
   delivery.
   */
  lemma TornCountsTwice(f: Faults, known: bool)
    requires f.torn
    ensures !CounterIsExact(f, known) && !QuotaIsKept(f, known)
  {
    var a := AckedWith(IncTorn(TAKEN), IncOk);
    TakenIsLikely(known);
    WhoReturns(a, known);
    CountsOfOne(a.inc);
    CountsOfOne(a.rescueInc);
    AppliedConcat([a.inc], [a.rescueInc]);
    var oracle, results, used := RunOfOne(a, known);
    assert Complete(f, ["x"], results, oracle, known, 0, used) && used == 2;
  }

  /** One recipient, one delivery, no user any more whose usage could be incremented. */
  lemma MissedIsNotCounted(f: Faults, known: bool)
    requires f.missed
    ensures !CounterIsExact(f, known)
  {
    var a := AckedWith(IncMissed, IncOk);
    WhoReturns(a, known);
    CountsOfOne(a.inc);
    var oracle, results, used := RunOfOne(a, known);
    assert Complete(f, ["x"], results, oracle, known, 0, used) && used == 0;
  }

  /**
   Whatever else fails, the counter grows by exactly the deliveries in all runs if and only if no
   increment takes effect and throws, and none returns without effect.
   */
  lemma CounterIsExactIff(f: Faults, known: bool)
    ensures CounterIsExact(f, known) <==> !f.torn && !f.missed
  {
    if f.torn {
      TornCountsTwice(f, known);
    } else if f.missed {
      MissedIsNotCounted(f, known);
    } else {
      forall recipients, results, oracle, used0: nat, used: nat | Complete(f, recipients, results, oracle, known,
          used0, used)
        ensures used == used0 + CountDelivered(results) {
        DriftOverRun(f, oracle, known, |results|);
      }
    }
  }

  /** A run that starts below the limit ends at most at limit - 1 + total, in all runs, if and only if none is torn. */
  lemma QuotaIsKeptIff(f: Faults, known: bool)
    ensures QuotaIsKept(f, known) <==> !f.torn
  {
    if f.torn {
      TornCountsTwice(f, known);
    } else {
      forall recipients, results, oracle, used0: nat, used: nat | Complete(f, recipients, results, oracle, known,
          used0, used)
        ensures used <= used0 + |recipients| {
        DriftOverRun(f, oracle, known, |results|);
      }
    }
  }

  // ---------------------------------------------------------------------------------------------
  // The counter over a spreadsheet
  // ---------------------------------------------------------------------------------------------

  ghost predicate AllSent(f: Faults, items: seq<Item>, oracle: nat -> nat -> Attempt, known: bool,
                          results: seq<MessageResult>, used0: nat, used: nat) {
    && LinesWithin(f, oracle, known)
    && LinesSent(items, oracle, known, Lines(items, oracle, known), results, used0, used)
  }

  ghost predicate SpreadsheetIsExact(f: Faults, known: bool) {
    forall items, oracle, results, used0: nat, used: nat ::
      AllSent(f, items, oracle, known, results, used0, used) ==> used == used0 + CountDelivered(results)
  }

  lemma NoDriftInLine(f: Faults, item: Item, oracle: nat -> Attempt, known: bool)
    requires !f.torn && !f.missed && Within(f, oracle, known)
    ensures ItemDrift(item, oracle, known) == 0
  {
    DriftOverRun(f, oracle, known, |SentTo(item)|);
  }

  ghost predicate LinesWithin(f: Faults, oracle: nat -> nat -> Attempt, known: bool) {
    forall i: nat :: Within(f, oracle(i), known)
  }

  lemma {:induction false} DriftOverLines(f: Faults, items: seq<Item>, oracle: nat -> nat -> Attempt, known: bool,
                                          n: nat)
    requires n <= |items| && !f.torn && !f.missed && LinesWithin(f, oracle, known)
    ensures DriftOf(items, oracle, known, n) == 0
    decreases n
  {
    if n > 0 {
      DriftOverLines(f, items, oracle, known, n - 1);
      NoDriftInLine(f, items[n - 1], oracle(n - 1), known);
    }
  }

  lemma FlattenOne(rs: seq<MessageResult>)
    ensures Flatten([rs]) == rs
  {
    assert [rs][..0] == [];
  }

  /** A spreadsheet of one line with one recipient goes as a run to that recipient goes. */
  lemma LineOfOne(f: Faults, a: Attempt, known: bool)
    requires Permits(f, IssuedInBatch(a, known))
    requires Applied(IssuedInBatch(a, known)) != if Delivered(MessageResult("x", Reported(a, known))) then 1 else 0
    ensures !SpreadsheetIsExact(f, known)
  {
    var oracle, results, used := RunOfOne(a, known);
    var items, oracles := [Item("x", Some(["x"]), true)], (i: nat) => oracle;
    var lines := Lines(items, oracles, known);
    assert lines == [Line(items[0], oracle, known)] && lines[0] == results;
    FlattenOne(results);
    assert DriftOf(items, oracles, known, 1) == DriftOf(items, oracles, known, 0) + ItemDrift(items[0], oracle, known);
    assert AllSent(f, items, oracles, known, results, 0, used);
  }

  lemma SpreadsheetIsExactIff(f: Faults, known: bool)
    ensures SpreadsheetIsExact(f, known) <==> !f.torn && !f.missed
  {
    if f.torn {
      var a := AckedWith(IncTorn(TAKEN), IncOk);
      TakenIsLikely(known);
      WhoReturns(a, known);
      CountsOfOne(a.inc);
      CountsOfOne(a.rescueInc);
      AppliedConcat([a.inc], [a.rescueInc]);
      LineOfOne(f, a, known);
    } else if f.missed {
      var a := AckedWith(IncMissed, IncOk);
      WhoReturns(a, known);
      CountsOfOne(a.inc);
      LineOfOne(f, a, known);
    } else {
      forall items, oracle, results, used0: nat, used: nat | AllSent(f, items, oracle, known, results, used0, used)
        ensures used == used0 + CountDelivered(results) {
        DriftOverLines(f, items, oracle, known, |items|);
      }
    }
  }

  // ---------------------------------------------------------------------------------------------
  // `successful` of a spreadsheet
  // ---------------------------------------------------------------------------------------------

  /** However the sends end, `successful` is the number of deliveries. */
  ghost predicate SuccessfulIsAll(items: seq<Item>, known: bool) {
    forall oracle: nat -> nat -> Attempt :: var lines := Lines(items, oracle,
        known); CountDelivered(Flatten(lines)) == Successes(lines)
  }

  lemma {:induction false} ExtraIsNone(rss: seq<seq<MessageResult>>)
    ensures Extra(rss) == 0 <==> forall i, j :: 0 <= i < |rss| && 1 <= j < |rss[i]| ==> !Delivered(rss[i][j])
    decreases |rss|
  {
    if rss != [] {
      var n := |rss| - 1;
      var r, last := rss[..n], rss[n];
      ExtraIsNone(r);
      assert forall i :: 0 <= i < n ==> rss[i] == r[i];
      if last != [] {
        CountIsNone(last[1..]);
        assert forall j :: 1 <= j < |last| ==> last[j] == last[1..][j - 1];
        assert forall j :: 0 <= j < |last| - 1 ==> last[1..][j] == last[j + 1];
      }
    }
  }

  lemma {:induction false} CountIsNone(rs: seq<MessageResult>)
    ensures CountDelivered(rs) == 0 <==> forall j :: 0 <= j < |rs| ==> !Delivered(rs[j])
    decreases |rs|
  {
    if rs != [] { CountIsNone(rs[..|rs| - 1]); }
  }

  lemma LineShape(item: Item, oracle: nat -> Attempt, known: bool)
    ensures var rs := Line(item, oracle, known);
      if SentTo(item) == [] then |rs| == 1
      else |rs| == |SentTo(item)| && forall j :: 0 <= j < |rs| ==>
        rs[j] == MessageResult(SentTo(item)[j], Reported(oracle(j), known))
  {
  }

  /** An acknowledged send that is counted is delivered. */
  lemma AckedIsSent(known: bool)
    ensures Reported(AckedWith(IncOk, IncOk), known) == Sent
  {
    WhoReturns(AckedWith(IncOk, IncOk), known);
  }

  /** When everything is delivered, a line with two recipients counts once. */
  lemma TwoRecipientsCountOnce(items: seq<Item>, known: bool, i: nat)
    requires i < |items| && |SentTo(items[i])| >= 2
    ensures !SuccessfulIsAll(items, known)
  {
    var a := AckedWith(IncOk, IncOk);
    var oracle := (l: nat) => (j: nat) => a;
    var lines := Lines(items, oracle, known);
    AckedIsSent(known);
    LineShape(items[i], oracle(i), known);
    assert lines[i] == Line(items[i], oracle(i), known);
    assert Delivered(lines[i][1]);
    ExtraIsNone(lines);
    SuccessfulMissesExtra(lines);
  }

  lemma ShortLinesCount(items: seq<Item>, oracle: nat -> nat -> Attempt, known: bool)
    requires forall i :: 0 <= i < |items| ==> |SentTo(items[i])| <= 1
    ensures var lines := Lines(items, oracle, known); CountDelivered(Flatten(lines)) == Successes(lines)
  {
    var lines := Lines(items, oracle, known);
    forall i: nat | i < |items| ensures |lines[i]| <= 1 { LineShape(items[i], oracle(i), known); }
    ExtraIsNone(lines);
    SuccessfulMissesExtra(lines);
  }

  /**
   `successful` counts every delivery, however the sends end, if and only if no line is sent to several
   recipients.
   */
  lemma SuccessfulIsAllIff(items: seq<Item>, known: bool)
    ensures SuccessfulIsAll(items, known) <==> forall i :: 0 <= i < |items| ==> |SentTo(items[i])| <= 1
  {
    if i :| 0 <= i < |items| && |SentTo(items[i])| > 1 {
      TwoRecipientsCountOnce(items, known, i);
    } else {
      forall oracle: nat -> nat -> Attempt
        ensures var lines := Lines(items, oracle, known); CountDelivered(Flatten(lines)) == Successes(lines) {
        ShortLinesCount(items, oracle, known);
      }
    }
  }

  lemma CountsOfPair(rs: seq<MessageResult>)
    requires |rs| == 2 && Delivered(rs[0]) && Delivered(rs[1])
    ensures CountDelivered(Flatten([rs])) == 2 && Successes([rs]) == 1
  {
    FlattenOne(rs);
    CountOneMore([], rs[0]);
    CountOneMore([rs[0]], rs[1]);
    assert [] + [rs[0]] == [rs[0]] && [rs[0]] + [rs[1]] == rs;
    assert Successes([rs]) == Successes([]) + 1;
  }

  /** A line for a group of two: both get the message, and `successful` is 1. */
  lemma GroupOfTwoFallsShort(known: bool)
    ensures exists items, oracle :: (
      CountDelivered(Flatten(Lines(items, oracle, known))) == 2 && Successes(Lines(items, oracle, known)) == 1)
  {
    var a := AckedWith(IncOk, IncOk);
    var items, oracle := [Item("g", Some(["x", "y"]), true)], (l: nat) => (j: nat) => a;
    AckedIsSent(known);
    LineShape(items[0], oracle(0), known);
    var rs := Line(items[0], oracle(0), known);
    assert Lines(items, oracle, known) == [rs];
    CountsOfPair(rs);
  }
}
