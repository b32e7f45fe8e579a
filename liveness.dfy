/**
 * The liveness ordering of BatchQuery.Builder (ORDER_BY_LIVENESS): a CASE over
 * the batch status whose first matching WHEN gives the rank, lower ranks
 * sorting first.  The SQL text of the CASE is not modelled, only the rank it
 * computes for a status code.
 */
module Liveness {
  import opened Downloads

  /** The rank the CASE expression yields for one status code. */
  function LivenessRank(codes: InternalCodes, status: int): (rank: int)
    ensures 1 <= rank <= 5
    ensures rank == 1 <==> status == codes.running
    ensures (status != codes.running && status != codes.pending && status != codes.pausedByApp
             && status != codes.batchFailed && status != codes.success) ==> rank == 2
  {
    if status == codes.running then 1
    else if status == codes.pending then 2
    else if status == codes.pausedByApp then 3
    else if status == codes.batchFailed then 4
    else if status == codes.success then 5
    else 2
  }

  /**
   * With distinct codes the ranking orders running before pending, pending
   * before paused-by-app, paused-by-app before batch-failed and batch-failed
   * before success; every other code shares pending's rank.
   */
  lemma LivenessOrder(codes: InternalCodes, other: int)
    requires RankedCodesDistinct(codes)
    requires other != codes.running && other != codes.pending && other != codes.pausedByApp
    requires other != codes.batchFailed && other != codes.success
    ensures LivenessRank(codes, codes.running) < LivenessRank(codes, codes.pending)
    ensures LivenessRank(codes, codes.pending) < LivenessRank(codes, codes.pausedByApp)
    ensures LivenessRank(codes, codes.pausedByApp) < LivenessRank(codes, codes.batchFailed)
    ensures LivenessRank(codes, codes.batchFailed) < LivenessRank(codes, codes.success)
    ensures LivenessRank(codes, other) == LivenessRank(codes, codes.pending)
  {
    var ranked := RankedCodes(codes);
    assert ranked[0] != ranked[1] && ranked[0] != ranked[2] && ranked[0] != ranked[3] && ranked[0] != ranked[4];
    assert ranked[1] != ranked[2] && ranked[1] != ranked[3] && ranked[1] != ranked[4];
    assert ranked[2] != ranked[3] && ranked[2] != ranked[4] && ranked[3] != ranked[4];
  }

  /**
   * The CASE is first-match: the code of the i-th WHEN (counting from 0) gets
   * rank i + 1 whenever no earlier WHEN names the same code, whatever the
   * later ones name.
   */
  lemma LivenessFirstMatch(codes: InternalCodes, i: nat)
    requires i < |RankedCodes(codes)|
    requires forall j :: 0 <= j < i ==> RankedCodes(codes)[j] != RankedCodes(codes)[i]
    ensures LivenessRank(codes, RankedCodes(codes)[i]) == i + 1
  {
    var ranked := RankedCodes(codes);
    if i >= 1 {
      assert ranked[0] != ranked[i];
    }
    if i >= 2 {
      assert ranked[1] != ranked[i];
    }
    if i >= 3 {
      assert ranked[2] != ranked[i];
    }
    if i == 4 {
      assert ranked[3] != ranked[i];
    }
  }

  /** So a code listed twice takes its first WHEN's rank: success equal to running ranks first, not last. */
  lemma LivenessSuccessAsRunning(codes: InternalCodes)
    requires codes.success == codes.running
    ensures LivenessRank(codes, codes.success) == 1
  {
    LivenessFirstMatch(codes, 0);
  }
}
