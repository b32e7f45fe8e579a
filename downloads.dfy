/**
 * The constants the query builder reads from classes outside this model
 * (Downloads.Impl, Downloads.Impl.Batches and DownloadManager).  Their values
 * are not fixed here: every operation takes them as parameters.
 */
module Downloads {

  /** Internal status codes, Downloads.Impl.STATUS_*. */
  datatype InternalCodes = InternalCodes(
    pending: int,
    running: int,
    pausedByApp: int,
    waitingToRetry: int,
    waitingForNetwork: int,
    queuedForWifi: int,
    success: int,
    batchFailed: int)

  /** The codes the liveness ranking names, in the order of its WHEN clauses. */
  function RankedCodes(codes: InternalCodes): seq<int> {
    [codes.running, codes.pending, codes.pausedByApp, codes.batchFailed, codes.success]
  }

  /** The five codes the liveness ranking names are pairwise distinct. */
  predicate RankedCodesDistinct(codes: InternalCodes) {
    forall i, j :: 0 <= i < j < |RankedCodes(codes)| ==> RankedCodes(codes)[i] != RankedCodes(codes)[j]
  }

  /** Column names of the batches table, Downloads.Impl.Batches._ID and COLUMN_STATUS. */
  datatype Columns = Columns(id: string, status: string)

  /** The public status flags, DownloadManager.STATUS_*, as 32-bit Java ints. */
  datatype PublicFlags = PublicFlags(
    pending: bv32,
    running: bv32,
    paused: bv32,
    successful: bv32,
    failed: bv32)
}
