/**
 Duplicate suppression of incoming messages: a set of processed ids in insertion order, cut back from
 time to time to the newest MAX_IDS.
 */
module MessageDedup {

  const MAX_IDS: nat := 10000

  datatype Op = Deliver(id: string) | Cleanup

  ghost predicate NoDup(s: seq<string>) {
    forall i, j :: 0 <= i < j < |s| ==> s[i] != s[j]
  }

  function Cut(ids: seq<string>): seq<string> {
    if |ids| > MAX_IDS then ids[|ids| - MAX_IDS..] else ids
  }

  function Next(ids: seq<string>, op: Op): seq<string> {
    match op
    case Deliver(id) => if id in ids then ids else ids + [id]
    case Cleanup => Cut(ids)
  }

  /** The ids held after a sequence of operations. */
  function Held(ops: seq<Op>): seq<string> {
    if ops == [] then [] else Next(Held(ops[..|ops| - 1]), ops[|ops| - 1])
  }

  class Deduplicator {
    var processedMessageIds: seq<string>

    constructor ()
      ensures processedMessageIds == []
    {
      processedMessageIds := [];
    }

    /** The duplicate check of `handleIncomingMessage`. */
    method Check(messageId: string) returns (isNew: bool)
      modifies this
      ensures processedMessageIds == Next(old(processedMessageIds), Deliver(messageId))
      ensures isNew <==> messageId !in old(processedMessageIds)
    {
      if messageId in processedMessageIds {
        return false;
      }
      processedMessageIds := processedMessageIds + [messageId];
      return true;
    }

    /** `cleanupOldMessageIds`: the oldest ids are deleted one by one. */
    method CleanupOldMessageIds()
      requires NoDup(processedMessageIds)
      modifies this
      ensures processedMessageIds == Next(old(processedMessageIds), Cleanup)
    {
      if |processedMessageIds| > MAX_IDS {
        var idsToRemove := processedMessageIds[..|processedMessageIds| - MAX_IDS];
        for i := 0 to |idsToRemove|
          invariant processedMessageIds == old(processedMessageIds)[i..]
        {
          processedMessageIds := Without(processedMessageIds, idsToRemove[i]);
        }
      }
    }
  }

  /** Deletion from an insertion-ordered set. */
  function Without(s: seq<string>, x: string): (r: seq<string>)
    ensures x !in s ==> r == s
    ensures s != [] && s[0] == x && x !in s[1..] ==> r == s[1..]
  {
    if s == [] then []
    else if s[0] == x then Without(s[1..], x)
    else [s[0]] + Without(s[1..], x)
  }

  /** Operation k lets its message through. */
  ghost predicate Passes(ops: seq<Op>, k: nat) {
    k < |ops| && ops[k].Deliver? && ops[k].id !in Held(ops[..k])
  }

  /** The ids let through after operation i and before operation k. */
  ghost function Newer(ops: seq<Op>, i: nat, k: nat): set<string> {
    set m: nat | i < m < k && Passes(ops, m) :: ops[m].id
  }

  lemma HeldStep(ops: seq<Op>, k: nat)
    requires k < |ops|
    ensures Held(ops[..k + 1]) == Next(Held(ops[..k]), ops[k])
  {
    assert ops[..k + 1][..k] == ops[..k];
  }

  lemma {:induction false} HeldNoDup(ops: seq<Op>)
    ensures NoDup(Held(ops))
    decreases |ops|
  {
    if ops != [] { HeldNoDup(ops[..|ops| - 1]); }
  }

  /** id is held, and only newer ids come after it. */
  ghost predicate HeldBefore(ids: seq<string>, id: string, newer: set<string>) {
    exists p :: 0 <= p < |ids| && ids[p] == id && forall q :: p < q < |ids| ==> ids[q] in newer
  }

  lemma {:induction false} DistinctFit(s: seq<string>, newer: set<string>)
    requires NoDup(s) && forall q :: 0 <= q < |s| ==> s[q] in newer
    ensures |newer| >= |s|
    decreases |s|
  {
    if s != [] {
      var r := s[..|s| - 1];
      DistinctFit(r, newer - {s[|s| - 1]});
    }
  }

  lemma NewerGrows(ops: seq<Op>, i: nat, k: nat)
    requires i < k < |ops|
    ensures Newer(ops, i, k + 1) == Newer(ops, i, k) + (if Passes(ops, k) then {ops[k].id} else {})
  {
  }

  ghost predicate Kept(ids: seq<string>, id: string, newer: set<string>) {
    |newer| >= MAX_IDS || HeldBefore(ids, id, newer)
  }

  lemma RetainedStep(ids: seq<string>, id: string, newer: set<string>, op: Op, newer': set<string>)
    requires NoDup(ids) && newer' == (if op.Deliver? && op.id !in ids then newer + {op.id} else newer)
    requires Kept(ids, id, newer)
    ensures Kept(Next(ids, op), id, newer')
  {
    if |newer| >= MAX_IDS {
      SubsetSize(newer, newer');
    } else {
      StaysHeld(ids, id, newer, op);
    }
  }

  lemma RetainedNext(ops: seq<Op>, j: nat, id: string, newer: set<string>, newer': set<string>)
    requires j < |ops| && Kept(Held(ops[..j]), id, newer)
    requires newer' == newer + (if Passes(ops, j) then {ops[j].id} else {})
    ensures Kept(Held(ops[..j + 1]), id, newer')
  {
    HeldStep(ops, j);
    HeldNoDup(ops[..j]);
    assert newer + {} == newer;
    RetainedStep(Held(ops[..j]), id, newer, ops[j], newer');
  }

  lemma JustHeld(ops: seq<Op>, i: nat)
    requires Passes(ops, i)
    ensures Kept(Held(ops[..i + 1]), ops[i].id, Newer(ops, i, i + 1))
  {
    HeldStep(ops, i);
    var ids := Held(ops[..i + 1]);
    assert ids[|ids| - 1] == ops[i].id;
  }

  /** Until a passed id has been followed by MAX_IDS newer ones, it is held. */
  lemma Retained(ops: seq<Op>, i: nat, k: nat)
    requires Passes(ops, i) && i < k <= |ops|
    ensures Kept(Held(ops[..k]), ops[i].id, Newer(ops, i, k))
  {
    var id, j, newer := ops[i].id, i + 1, Newer(ops, i, i + 1);
    JustHeld(ops, i);
    while j < k
      invariant i < j <= k && newer == Newer(ops, i, j)
      invariant Kept(Held(ops[..j]), id, newer)
    {
      var newer' := newer + (if Passes(ops, j) then {ops[j].id} else {});
      NewerGrows(ops, i, j);
      RetainedNext(ops, j, id, newer, newer');
      newer, j := newer', j + 1;
    }
  }

  lemma {:induction false} SubsetSize(a: set<string>, b: set<string>)
    requires a <= b
    ensures |a| <= |b|
    decreases |a|
  {
    if a != {} {
      var x :| x in a;
      SubsetSize(a - {x}, b - {x});
    }
  }

  lemma StaysHeld(ids: seq<string>, id: string, newer: set<string>, op: Op)
    requires NoDup(ids) && HeldBefore(ids, id, newer) && |newer| < MAX_IDS
    ensures HeldBefore(Next(ids, op), id, if op.Deliver? && op.id !in ids then newer + {op.id} else newer)
  {
    var p :| 0 <= p < |ids| && ids[p] == id && forall q :: p < q < |ids| ==> ids[q] in newer;
    var next := Next(ids, op);
    if op.Cleanup? && |ids| > MAX_IDS {
      var tail := ids[p + 1..];
      DistinctFit(tail, newer);
      var d := |ids| - MAX_IDS;
      assert next[p - d] == id;
    } else {
      assert next[p] == id;
    }
  }

  /** A message id passes the duplicate check again only after at least MAX_IDS newer distinct ids passed it. */
  lemma {:induction false} PassesAgainOnlyAfterMany(ops: seq<Op>, i: nat, j: nat)
    requires i < j && Passes(ops, i) && Passes(ops, j) && ops[i].id == ops[j].id
    ensures |Newer(ops, i, j)| >= 10000
    decreases j - i
  {
    if m :| i < m < j && Passes(ops, m) && ops[m].id == ops[i].id {
      PassesAgainOnlyAfterMany(ops, i, m);
      SubsetSize(Newer(ops, i, m), Newer(ops, i, j));
    } else {
      Retained(ops, i, j);
    }
  }

  /** A cleanup drops this id. */
  ghost predicate Forgets(ids: seq<string>, id: string) {
    id in ids && id !in Next(ids, Cleanup)
  }

  /** A cleanup forgets an id exactly when MAX_IDS newer ids are held. */
  lemma ForgetsIff(ids: seq<string>, p: nat)
    requires NoDup(ids) && p < |ids|
    ensures Forgets(ids, ids[p]) <==> |ids| - (p + 1) >= 10000
  {
    if |ids| - (p + 1) < MAX_IDS && |ids| > MAX_IDS {
      assert Cut(ids)[p - (|ids| - MAX_IDS)] == ids[p];
    }
  }
}
