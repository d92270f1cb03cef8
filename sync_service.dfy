/** The synchroniser: one sequential pass that replays the pending-operation
    queue of the local store against the backend, removing an operation only
    once the backend accepted it, and counting what went through and what
    did not. The backend's verdict on the i-th send of a pass is the input
    `verdict(i)`; connectivity (`navigator.onLine`) is the input `online`. */
module SyncService {
  import opened Options
  import Lists

  datatype OperationKind = Create | Update | Delete

  datatype EntityKind = Mecanicos | Servicos | Vales

  /** A recorded mutation waiting in the queue. The entity payload is not
      modelled: the pass never looks inside it. */
  datatype Operation = Operation(id: string, operation: OperationKind, entity: EntityKind, timestamp: int)

  function OperationId(op: Operation): string {
    op.id
  }

  /** `{ success, processed, failed }` as returned by `synchronizeData`. */
  datatype SyncResult = SyncResult(success: bool, processed: nat, failed: nat)

  /** The queue part of the local store. Operations are keyed by their id;
      `available` is false when reading the store throws. */
  class PendingStore {
    var pending: seq<Operation>
    var available: bool

    ghost predicate Valid()
      reads this
    {
      Lists.DistinctKeys(pending, OperationId)
    }

    constructor (ops: seq<Operation>, available: bool)
      requires Lists.DistinctKeys(ops, OperationId)
      ensures Valid() && pending == ops && this.available == available
    {
      pending := ops;
      this.available := available;
    }

    /** `getPendingOperations()`: a snapshot of the queue in FIFO order, or a failure. */
    method GetPendingOperations() returns (r: Option<seq<Operation>>)
      ensures available ==> r == Some(pending)
      ensures !available ==> r.None?
    {
      r := if available then Some(pending) else None;
    }

    /** `removePendingOperation(id)`: deletes the entry with that key; a missing key is a no-op. */
    method RemovePendingOperation(id: string)
      requires Valid()
      modifies this`pending
      ensures Valid()
      ensures pending == Lists.RemoveKey(old(pending), OperationId, id)
    {
      Lists.SubsequenceKeepsDistinct(Lists.RemoveKey(pending, OperationId, id), pending, OperationId);
      pending := Lists.RemoveKey(pending, OperationId, id);
    }
  }

  // ---------------------------------------------------------------------
  // What one pass over a snapshot does

  /** How many of the first n sends the backend accepted. */
  function Accepted(verdict: nat -> bool, n: nat): (k: nat)
    ensures k <= n
    decreases n
  {
    if n == 0 then 0 else Accepted(verdict, n - 1) + (if verdict(n - 1) then 1 else 0)
  }

  /** The operations among the first n of the snapshot whose send was not accepted, in order. */
  function Kept(ops: seq<Operation>, verdict: nat -> bool, n: nat): seq<Operation>
    requires n <= |ops|
    decreases n
  {
    if n == 0 then [] else Kept(ops, verdict, n - 1) + (if verdict(n - 1) then [] else [ops[n - 1]])
  }

  /** The report of a pass over a non-empty snapshot. */
  function PassResult(ops: seq<Operation>, verdict: nat -> bool): SyncResult {
    var processed := Accepted(verdict, |ops|);
    SyncResult(|ops| - processed == 0, processed, |ops| - processed)
  }

  /** Every operation is counted once, as processed or as failed; success means
      nothing failed; and the queue keeps exactly `failed` operations. */
  lemma PassResultAccounts(ops: seq<Operation>, verdict: nat -> bool)
    ensures PassResult(ops, verdict).processed + PassResult(ops, verdict).failed == |ops|
    ensures PassResult(ops, verdict).success <==> PassResult(ops, verdict).failed == 0
    ensures |Kept(ops, verdict, |ops|)| == PassResult(ops, verdict).failed
  {
    KeptCount(ops, verdict, |ops|);
  }

  lemma {:induction false} KeptCount(ops: seq<Operation>, verdict: nat -> bool, n: nat)
    requires n <= |ops|
    ensures |Kept(ops, verdict, n)| == n - Accepted(verdict, n)
  {
    if n > 0 {
      KeptCount(ops, verdict, n - 1);
    }
  }

  /** The operations left behind keep the snapshot's order. */
  lemma {:induction false} KeptIsSubsequence(ops: seq<Operation>, verdict: nat -> bool, n: nat)
    requires n <= |ops|
    ensures Lists.IsSubsequence(Kept(ops, verdict, n), ops[..n])
    ensures forall x :: x in Kept(ops, verdict, n) ==> x in ops[..n]
  {
    if n > 0 {
      KeptIsSubsequence(ops, verdict, n - 1);
      SubsequenceAppend(Kept(ops, verdict, n - 1), ops[..n - 1], ops[n - 1], !verdict(n - 1));
      assert ops[..n] == ops[..n - 1] + [ops[n - 1]];
    }
  }

  lemma {:induction false} SubsequenceAppend<T>(r: seq<T>, s: seq<T>, x: T, take: bool)
    requires Lists.IsSubsequence(r, s)
    ensures Lists.IsSubsequence(r + (if take then [x] else []), s + [x])
    decreases |s|
  {
    var r' := r + (if take then [x] else []);
    if s == [] {
      assert r == [];
      if take {
        assert r' == [x] && r'[1..] == [];
      }
    } else if r == [] {
      SubsequenceAppend(r, s[1..], x, take);
      assert (s + [x])[1..] == s[1..] + [x];
    } else {
      assert (s + [x])[1..] == s[1..] + [x];
      if r[0] == s[0] && Lists.IsSubsequence(r[1..], s[1..]) {
        SubsequenceAppend(r[1..], s[1..], x, take);
        assert r'[1..] == r[1..] + (if take then [x] else []);
      } else {
        SubsequenceAppend(r, s[1..], x, take);
      }
    }
  }

  /** An operation of the snapshot stays queued exactly when its send was not accepted. */
  lemma {:induction false} KeptExactlyRejected(ops: seq<Operation>, verdict: nat -> bool, n: nat, i: nat)
    requires Lists.DistinctKeys(ops, OperationId)
    requires i < n <= |ops|
    ensures ops[i] in Kept(ops, verdict, n) <==> !verdict(i)
  {
    KeptIsSubsequence(ops, verdict, n - 1);
    if i < n - 1 {
      KeptExactlyRejected(ops, verdict, n - 1, i);
      assert ops[i] != ops[n - 1] by {
        assert OperationId(ops[i]) != OperationId(ops[n - 1]);
      }
    } else {
      var before := ops[..n - 1];
      assert ops[i] !in before by {
        forall j | 0 <= j < |before| ensures before[j] != ops[i] {
          assert OperationId(ops[j]) != OperationId(ops[i]);
        }
      }
    }
  }

  /** One step of the pass: an accepted send takes the operation out of the
      queue, a rejected one leaves the queue as it was. */
  lemma SendStep(ops: seq<Operation>, verdict: nat -> bool, i: nat)
    requires i < |ops|
    requires Lists.DistinctKeys(Kept(ops, verdict, i) + ops[i..], OperationId)
    ensures verdict(i) ==>
      Lists.RemoveKey(Kept(ops, verdict, i) + ops[i..], OperationId, ops[i].id) == Kept(ops, verdict, i + 1) + ops[i + 1..]
    ensures !verdict(i) ==> Kept(ops, verdict, i) + ops[i..] == Kept(ops, verdict, i + 1) + ops[i + 1..]
  {
    var k := Kept(ops, verdict, i);
    var rest := ops[i + 1..];
    assert ops[i..] == [ops[i]] + rest;
    assert k + ops[i..] == k + [ops[i]] + rest;
    if verdict(i) {
      assert Kept(ops, verdict, i + 1) == k;
      assert OperationId(ops[i]) == ops[i].id;
      Lists.RemoveKeyBetween(k, ops[i], rest, OperationId);
    } else {
      assert Kept(ops, verdict, i + 1) == k + [ops[i]];
    }
  }

  /** When the backend accepts every send, the pass empties the queue and reports full success. */
  lemma {:induction false} AllAcceptedDrainsQueue(ops: seq<Operation>, verdict: nat -> bool, n: nat)
    requires n <= |ops|
    requires forall i :: 0 <= i < n ==> verdict(i)
    ensures Kept(ops, verdict, n) == []
    ensures Accepted(verdict, n) == n
  {
    if n > 0 {
      AllAcceptedDrainsQueue(ops, verdict, n - 1);
    }
  }

  lemma PrefixGrows<T>(s: seq<T>, i: nat)
    requires i < |s|
    ensures s[..i + 1] == s[..i] + [s[i]]
  {
  }

  // ---------------------------------------------------------------------
  // The synchroniser

  /** `synchronizeData`. The ghost `attempted` lists the operations handed to
      the backend, in the order they were sent. */
  method SynchronizeData(store: PendingStore, online: bool, verdict: nat -> bool)
    returns (r: SyncResult, ghost attempted: seq<Operation>)
    requires store.Valid()
    modifies store`pending
    ensures store.Valid()
    ensures !online || !store.available ==>
      r == SyncResult(false, 0, 0) && store.pending == old(store.pending) && attempted == []
    ensures online && store.available && old(store.pending) == [] ==>
      r == SyncResult(true, 0, 0) && store.pending == []
    ensures online && store.available ==>
      && attempted == old(store.pending)
      && r == PassResult(old(store.pending), verdict)
      && store.pending == Kept(old(store.pending), verdict, |old(store.pending)|)
  {
    if !online {
      return SyncResult(false, 0, 0), [];
    }
    var read := store.GetPendingOperations();
    if read.None? {
      // reading the queue threw
      return SyncResult(false, 0, 0), [];
    }
    var ops := read.value;
    if |ops| == 0 {
      return SyncResult(true, 0, 0), [];
    }
    var processed, failed;
    processed, failed, attempted := SendEach(store, ops, verdict);
    r := SyncResult(failed == 0, processed, failed);
  }

  /** The `for` loop of `synchronizeData`: sends the snapshot's operations one
      at a time, in order, and removes each accepted one from the queue. */
  method SendEach(store: PendingStore, ops: seq<Operation>, verdict: nat -> bool)
    returns (processed: nat, failed: nat, ghost attempted: seq<Operation>)
    requires store.Valid() && store.pending == ops
    modifies store`pending
    ensures store.Valid()
    ensures attempted == ops
    ensures processed == Accepted(verdict, |ops|) && failed == |ops| - processed
    ensures store.pending == Kept(ops, verdict, |ops|)
  {
    processed, failed, attempted := 0, 0, [];
    for i := 0 to |ops|
      invariant store.Valid()
      invariant store.pending == Kept(ops, verdict, i) + ops[i..]
      invariant processed == Accepted(verdict, i) && failed == i - processed
      invariant attempted == ops[..i]
    {
      attempted := attempted + [ops[i]];
      PrefixGrows(ops, i);
      // sendToApi(ops[i]): a rejected or thrown send both count as a failure
      var success := verdict(i);
      SendStep(ops, verdict, i);
      if success {
        store.RemovePendingOperation(ops[i].id);
        processed := processed + 1;
      } else {
        failed := failed + 1;
      }
    }
    assert ops[|ops|..] == [];
  }

  /** `setupSyncListener`'s `online` handler: starts a pass only when the queue
      could be read and is not empty; `r` is that pass's report, if one ran. */
  method HandleOnline(store: PendingStore, online: bool, verdict: nat -> bool) returns (r: Option<SyncResult>)
    requires store.Valid()
    modifies store`pending
    ensures store.Valid()
    ensures r.Some? <==> store.available && old(store.pending) != []
    ensures r.None? ==> store.pending == old(store.pending)
    ensures r.Some? && online ==>
      r.value == PassResult(old(store.pending), verdict)
      && store.pending == Kept(old(store.pending), verdict, |old(store.pending)|)
    ensures r.Some? && !online ==> r.value == SyncResult(false, 0, 0) && store.pending == old(store.pending)
  {
    var read := store.GetPendingOperations();
    if read.Some? && |read.value| > 0 {
      var result, _ := SynchronizeData(store, online, verdict);
      r := Some(result);
    } else {
      r := None;
    }
  }
}
