/** The pixelparty ownership contract: an append-only history of ownership
    records and a query for the records of one account. */
module Ownership {

  /** Rust's `u64`. */
  newtype u64 = x: int | 0 <= x < 0x1_0000_0000_0000_0000

  datatype OwnershipRecord = OwnershipRecord(owner: string, frameId: u64, timestamp: u64)

  /** The records of `history` whose owner is `accountId`, in stored order. */
  function OwnedBy(history: seq<OwnershipRecord>, accountId: string): (r: seq<OwnershipRecord>)
    ensures |r| <= |history|
    ensures forall k :: 0 <= k < |r| ==> r[k].owner == accountId
  {
    if history == [] then []
    else
      var last := history[|history| - 1];
      OwnedBy(history[..|history| - 1], accountId) + (if last.owner == accountId then [last] else [])
  }

  /** The indices of `history` whose record is owned by `accountId`, ascending. */
  ghost function OwnedPositions(history: seq<OwnershipRecord>, accountId: string): seq<nat>
  {
    if history == [] then []
    else
      var n := |history| - 1;
      OwnedPositions(history[..n], accountId) + (if history[n].owner == accountId then [n] else [])
  }

  /** The query picks out exactly the records owned by `accountId`, at
      ascending positions, so in the order they were stored. */
  lemma {:induction false} OwnedByInStoredOrder(history: seq<OwnershipRecord>, accountId: string)
    ensures var r, p := OwnedBy(history, accountId), OwnedPositions(history, accountId);
      |p| == |r|
      && (forall k :: 0 <= k < |p| ==> p[k] < |history| && r[k] == history[p[k]])
      && (forall k, l :: 0 <= k < l < |p| ==> p[k] < p[l])
      && (forall i :: 0 <= i < |history| ==> (history[i].owner == accountId <==> i in p))
  {
    if history != [] {
      var n := |history| - 1;
      var init := history[..n];
      OwnedByInStoredOrder(init, accountId);
      var p0 := OwnedPositions(init, accountId);
      assert forall k :: 0 <= k < |p0| ==> p0[k] < n;
      assert forall i :: 0 <= i < n ==> history[i] == init[i];
    }
  }

  /** An account that owns no stored record gets an empty history. */
  lemma {:induction false} OwnedByNothing(history: seq<OwnershipRecord>, accountId: string)
    requires forall i :: 0 <= i < |history| ==> history[i].owner != accountId
    ensures OwnedBy(history, accountId) == []
  {
    if history != [] {
      var n := |history| - 1;
      assert forall i :: 0 <= i < n ==> history[..n][i] == history[i];
      OwnedByNothing(history[..n], accountId);
    }
  }

  /** Appending one record extends exactly the history of its owner. */
  lemma OwnedByPush(history: seq<OwnershipRecord>, rec: OwnershipRecord, accountId: string)
    ensures OwnedBy(history + [rec], accountId)
            == OwnedBy(history, accountId) + (if rec.owner == accountId then [rec] else [])
  {
  }

  /** The contract state: the ownership history, in insertion order. */
  class Contract {
    var ownershipHistory: seq<OwnershipRecord>

    /** The contract over the history loaded from storage. */
    constructor (history: seq<OwnershipRecord>)
      ensures ownershipHistory == history
    {
      ownershipHistory := history;
    }

    /** Appends the record built from the arguments. */
    method AddOwnership(owner: string, frameId: u64, timestamp: u64)
      modifies this
      ensures ownershipHistory == old(ownershipHistory) + [OwnershipRecord(owner, frameId, timestamp)]
      ensures |ownershipHistory| == old(|ownershipHistory|) + 1
      ensures forall i :: 0 <= i < old(|ownershipHistory|) ==> ownershipHistory[i] == old(ownershipHistory[i])
      ensures forall accountId ::
        GetOwnershipHistory(accountId)
        == old(GetOwnershipHistory(accountId)) + (if owner == accountId then [OwnershipRecord(owner, frameId, timestamp)] else [])
    {
      var ownershipRecord := OwnershipRecord(owner, frameId, timestamp);
      ownershipHistory := ownershipHistory + [ownershipRecord];
      forall accountId: string
        ensures OwnedBy(ownershipHistory, accountId)
                == OwnedBy(old(ownershipHistory), accountId) + (if owner == accountId then [ownershipRecord] else [])
      {
        OwnedByPush(old(ownershipHistory), ownershipRecord, accountId);
      }
    }

    /** The stored records owned by `accountId`, in stored order; reads the state only. */
    function GetOwnershipHistory(accountId: string): (r: seq<OwnershipRecord>)
      reads this
      ensures forall k :: 0 <= k < |r| ==> r[k].owner == accountId
      ensures (forall i :: 0 <= i < |ownershipHistory| ==> ownershipHistory[i].owner != accountId) ==> r == []
    {
      var r := OwnedBy(ownershipHistory, accountId);
      assert (forall i :: 0 <= i < |ownershipHistory| ==> ownershipHistory[i].owner != accountId) ==> r == [] by {
        if forall i :: 0 <= i < |ownershipHistory| ==> ownershipHistory[i].owner != accountId {
          OwnedByNothing(ownershipHistory, accountId);
        }
      }
      r
    }
  }
}
