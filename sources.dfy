/** The two proposal feeds, after the network clients: the Snapshot batch with its
    known-proposal de-duplication, and the on-chain events with their end-time
    estimate. */
module Sources {
  import opened Ids
  import opened Numerals

  /** Ethereum's average block time, in seconds. */
  const AVERAGE_BLOCK_TIME: int := 12

  /** One proposal of a Snapshot response; start and end are unix seconds. */
  datatype SnapshotProposal = SnapshotProposal(id: ProposalId, start: int, end: int)

  /** One `ProposalInitialized` event of the on-chain filter. */
  datatype OnChainEvent = OnChainEvent(proposalId: nat, votingEndBlock: int)

  /** The estimated end of on-chain voting: `now` plus the remaining blocks at the
      average block time. It is a whole number of blocks away from now, lies ahead of
      now exactly when the end block is still ahead, and counts the remaining blocks. */
  function EstimateEndTime(now: int, votingEndBlock: int, currentBlock: int): (end: int)
    ensures (end - now) % AVERAGE_BLOCK_TIME == 0
    ensures end >= now <==> votingEndBlock >= currentBlock
    ensures (end - now) / AVERAGE_BLOCK_TIME == votingEndBlock - currentBlock
  {
    now + (votingEndBlock - currentBlock) * AVERAGE_BLOCK_TIME
  }

  /** A later end block never gives an earlier estimate, and one more block adds one
      block time. */
  lemma EstimateMonotone(now: int, b1: int, b2: int, currentBlock: int)
    requires b1 <= b2
    ensures EstimateEndTime(now, b1, currentBlock) <= EstimateEndTime(now, b2, currentBlock)
    ensures EstimateEndTime(now, b1 + 1, currentBlock) == EstimateEndTime(now, b1, currentBlock) + AVERAGE_BLOCK_TIME
  {
  }

  /** The proposal ids `handle_new_proposal` receives for a run of on-chain events:
      `str(proposalId)`, in event order. */
  function OnChainIds(events: seq<OnChainEvent>): (ids: seq<ProposalId>)
    ensures |ids| == |events|
  {
    seq(|events|, i requires 0 <= i < |events| => NatToString(events[i].proposalId))
  }

  /** Distinct on-chain proposal ids give distinct string ids. */
  lemma OnChainIdsDistinct(events: seq<OnChainEvent>, i: int, j: int)
    requires 0 <= i < |events| && 0 <= j < |events|
    requires events[i].proposalId != events[j].proposalId
    ensures OnChainIds(events)[i] != OnChainIds(events)[j]
  {
    if OnChainIds(events)[i] == OnChainIds(events)[j] {
      NatToStringInjective(events[i].proposalId, events[j].proposalId);
    }
  }

  /** The ids of a Snapshot response (newest first) in processing order:
      `reversed(proposals)`, oldest first. */
  function OldestFirst(batch: seq<SnapshotProposal>): (ids: seq<ProposalId>)
    ensures |ids| == |batch|
  {
    seq(|batch|, i requires 0 <= i < |batch| => batch[|batch| - 1 - i].id)
  }

  function Elems(s: seq<ProposalId>): set<ProposalId>
  {
    set x | x in s
  }

  /** The proposals the Snapshot loop hands on, in order: each id that is neither known
      beforehand nor seen earlier in the same run, at its first sighting. */
  function FirstSightings(ids: seq<ProposalId>, known: set<ProposalId>): (r: seq<ProposalId>)
    ensures |r| <= |ids|
  {
    if ids == [] then []
    else
      var init := ids[..|ids| - 1];
      var x := ids[|ids| - 1];
      FirstSightings(init, known) + (if x in known || x in init then [] else [x])
  }

  /** What the Snapshot loop hands on: only new ids, each once, and every new id. */
  lemma {:induction false} FirstSightingsSpec(ids: seq<ProposalId>, known: set<ProposalId>)
    ensures var r := FirstSightings(ids, known);
            && (forall k :: 0 <= k < |r| ==> r[k] !in known && r[k] in ids)
            && (forall i, j :: 0 <= i < j < |r| ==> r[i] != r[j])
            && (forall x :: x in ids && x !in known ==> x in r)
  {
    if ids != [] {
      var init := ids[..|ids| - 1];
      var x := ids[|ids| - 1];
      FirstSightingsSpec(init, known);
      assert forall y :: y in ids <==> y in init || y == x;
    }
  }

  /** A run of distinct, unknown ids is handed on whole and in order. */
  lemma {:induction false} FirstSightingsAllNew(ids: seq<ProposalId>, known: set<ProposalId>)
    requires forall i, j :: 0 <= i < j < |ids| ==> ids[i] != ids[j]
    requires forall k :: 0 <= k < |ids| ==> ids[k] !in known
    ensures FirstSightings(ids, known) == ids
  {
    if ids != [] {
      FirstSightingsAllNew(ids[..|ids| - 1], known);
      assert ids == ids[..|ids| - 1] + [ids[|ids| - 1]];
    }
  }

  /** The Snapshot loop's bookkeeping for one more id: it is handed on exactly when it
      is neither known beforehand nor among the ids already visited. */
  lemma FirstSightingsStep(ids: seq<ProposalId>, k: int, known: set<ProposalId>)
    requires 0 <= k < |ids|
    ensures FirstSightings(ids[..k + 1], known)
            == FirstSightings(ids[..k], known) + (if ids[k] in known + Elems(ids[..k]) then [] else [ids[k]])
    ensures Elems(ids[..k + 1]) == Elems(ids[..k]) + {ids[k]}
  {
    assert ids[..k + 1][..k] == ids[..k];
    assert ids[..k + 1] == ids[..k] + [ids[k]];
  }
}
