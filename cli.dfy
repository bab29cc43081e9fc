/**
 * `wp wpmudev posts scan` and `wp wpmudev posts reset` (class PostsMaintenanceCLI):
 * argument parsing and validation, then a synchronous loop over pages 1, 2, …
 * of the published posts ordered by ID, with a safety cap of 1000 batches, in a
 * live and a dry-run variant.
 */
module Cli {
  import opened Wrappers
  import opened Batching
  import opened Content
  import opened PostTypeArgs
  import opened SiteState

  /** The loop gives up once this many batches have been started. */
  const SafetyCap := 1000

  datatype ScanArgs = ScanArgs(postTypes: Option<string>, batchSize: Option<int>, dryRun: bool)

  /** How the command ends: one of its two errors, the no-posts warning, or the summary. */
  datatype ScanOutcome =
    | BadBatchSize
    | UnknownPostTypes(names: seq<string>)
    | NoPosts
    | Scanned(processed: nat, batches: nat, average: real)

  datatype Validation = Invalid(outcome: ScanOutcome) | Valid(postTypes: seq<string>, batchSize: int)

  /**
   * The checks of `scan`, in its order: the batch size must lie in [1, 100];
   * then every requested type must be public, and the error names exactly the
   * ones that are not.
   */
  function Validate(args: ScanArgs, available: set<string>): (v: Validation)
    ensures var b := args.batchSize.GetOr(DefaultBatchSize);
      (b < MinBatchSize || b > MaxBatchSize) ==> v == Invalid(BadBatchSize)
    ensures var b := args.batchSize.GetOr(DefaultBatchSize);
      var types := ParsePostTypes(args.postTypes);
      MinBatchSize <= b <= MaxBatchSize && InvalidTypes(types, available) != [] ==>
        v.Invalid? && v.outcome.UnknownPostTypes?
        && forall t :: t in v.outcome.names <==> t in types && t !in available
    ensures v.Valid? <==>
      && MinBatchSize <= args.batchSize.GetOr(DefaultBatchSize) <= MaxBatchSize
      && forall t :: t in ParsePostTypes(args.postTypes) ==> t in available
    ensures v.Valid? ==>
      v.postTypes == ParsePostTypes(args.postTypes) && v.batchSize == args.batchSize.GetOr(DefaultBatchSize)
  {
    var b := args.batchSize.GetOr(DefaultBatchSize);
    var types := ParsePostTypes(args.postTypes);
    if b < MinBatchSize || b > MaxBatchSize then Invalid(BadBatchSize)
    else
      var invalid := InvalidTypes(types, available);
      if invalid != [] then
        assert invalid[0] in invalid;
        Invalid(UnknownPostTypes(invalid))
      else
        Valid(types, b)
  }

  /** Posts a paged run over n posts reaches: all of them, unless the cap cuts it short. */
  function PagedProcessed(n: nat, batchSize: int): nat
    requires batchSize >= 1
  {
    if n <= SafetyCap * batchSize then n else SafetyCap * batchSize
  }

  /**
   * The batch counter a paged run over n > 0 posts reports: one per page, or
   * 1001 when the cap stops it (the counter is raised before the cap test).
   */
  function PagedBatches(n: nat, batchSize: int): nat
    requires batchSize >= 1
  {
    if n <= SafetyCap * batchSize then CeilDiv(n, batchSize) else SafetyCap + 1
  }

  /** The paged loop ends after the full page that reaches the total: the counters match the closed forms. */
  lemma FullPagesReachTotal(n: nat, batchSize: int, pages: int)
    requires batchSize >= 1 && 1 <= pages <= SafetyCap && n == PageOffset(pages, batchSize) + batchSize
    ensures PagedProcessed(n, batchSize) == n && PagedBatches(n, batchSize) == pages
  {
    assert n == pages * batchSize;
    assert pages * batchSize <= SafetyCap * batchSize;
    CeilDivUnique(n, batchSize, pages);
  }

  /** The loop ends on a short page: every post was reached on page `pages`. */
  lemma ShortPageEndsRun(n: nat, batchSize: int, pages: int)
    requires batchSize >= 1 && 1 <= pages <= SafetyCap
    requires PageOffset(pages, batchSize) < n < PageOffset(pages, batchSize) + batchSize
    ensures PagedProcessed(n, batchSize) == n && PagedBatches(n, batchSize) == pages
  {
    assert (pages - 1) * batchSize < n < pages * batchSize;
    assert pages * batchSize <= SafetyCap * batchSize;
    CeilDivUnique(n, batchSize, pages);
  }

  /** The loop hits the cap with 1000 full pages done and posts left. */
  lemma CapEndsRun(n: nat, batchSize: int)
    requires batchSize >= 1 && SafetyCap * batchSize < n
    ensures PagedProcessed(n, batchSize) == SafetyCap * batchSize && PagedBatches(n, batchSize) == SafetyCap + 1
  {
  }

  class PostsMaintenanceCli {
    const site: Store

    constructor (site: Store)
      ensures this.site == site
    {
      this.site := site;
    }

    /**
     * `scan`: validate, count the published posts, warn and stop when there are
     * none, otherwise run the dry or the live loop.
     */
    method Scan(args: ScanArgs, available: set<string>, catalog: seq<Post>, now: int) returns (outcome: ScanOutcome)
      modifies site`meta
      ensures var v := Validate(args, available);
        v.Invalid? ==> outcome == v.outcome && site.meta == old(site.meta)
      ensures var v := Validate(args, available);
        v.Valid? && |Published(catalog, v.postTypes)| == 0 ==> outcome == NoPosts && site.meta == old(site.meta)
      ensures var v := Validate(args, available);
        v.Valid? && |Published(catalog, v.postTypes)| > 0 ==>
          var ids := Published(catalog, v.postTypes);
          var processed := PagedProcessed(|ids|, v.batchSize);
          var batches := PagedBatches(|ids|, v.batchSize);
          && batches >= 1
          && outcome == Scanned(processed, batches, processed as real / batches as real)
          && site.meta == if args.dryRun then old(site.meta) else Stamp(old(site.meta), ids[..processed], Epoch(now))
    {
      var v := Validate(args, available);
      if v.Invalid? {
        return v.outcome;
      }
      var ids := Published(catalog, v.postTypes);
      var total := |ids|;
      if total == 0 {
        return NoPosts;
      }
      var processed, batches;
      if args.dryRun {
        processed, batches := DryRunScan(ids, v.batchSize, total);
      } else {
        processed, batches := ExecuteScan(ids, v.batchSize, total, now);
      }
      outcome := Scanned(processed, batches, processed as real / batches as real);
    }

    /**
     * `execute_scan`: pages 1, 2, … of `batchSize` posts; stop on an empty page,
     * a short page, the total reached, or the 1001st batch. Every post on a page
     * read is stamped, so the first `processed` posts are stamped.
     */
    method ExecuteScan(ids: seq<int>, batchSize: int, total: int, now: int)
      returns (processed: nat, batchCount: nat)
      requires MinBatchSize <= batchSize <= MaxBatchSize
      requires 0 < total == |ids|
      modifies site`meta
      ensures processed == PagedProcessed(total, batchSize)
      ensures batchCount == PagedBatches(total, batchSize) && batchCount >= 1
      ensures site.meta == Stamp(old(site.meta), ids[..processed], Epoch(now))
    {
      processed := 0;
      var paged := 1;
      batchCount := 0;
      while processed < total
        invariant 1 <= paged && batchCount == paged - 1 <= SafetyCap
        invariant processed == PageOffset(paged, batchSize) <= total
        invariant site.meta == Stamp(old(site.meta), ids[..processed], Epoch(now))
        invariant processed == total ==>
          processed == PagedProcessed(total, batchSize) && batchCount == PagedBatches(total, batchSize) && batchCount >= 1
        decreases total - processed
      {
        batchCount := batchCount + 1;
        if batchCount > SafetyCap {
          CapEndsRun(total, batchSize);
          break;
        }
        var posts := Page(ids, PageOffset(paged, batchSize), batchSize);
        if |posts| == 0 {
          break;
        }
        site.StampRun(old(site.meta), ids, processed, posts, Epoch(now));
        processed := processed + |posts|;
        if |posts| < batchSize {
          ShortPageEndsRun(total, batchSize, paged);
          break;
        }
        PageOffsetNext(paged, batchSize);
        paged := paged + 1;
        if processed == total {
          FullPagesReachTotal(total, batchSize, batchCount);
        }
      }
    }

    /**
     * `dry_run_scan`: the same pages and counters as `execute_scan`, without
     * touching post meta.
     */
    method DryRunScan(ids: seq<int>, batchSize: int, total: int)
      returns (processed: nat, batchCount: nat)
      requires MinBatchSize <= batchSize <= MaxBatchSize
      requires 0 < total == |ids|
      ensures processed == PagedProcessed(total, batchSize)
      ensures batchCount == PagedBatches(total, batchSize) && batchCount >= 1
    {
      processed := 0;
      var paged := 1;
      batchCount := 0;
      while processed < total
        invariant 1 <= paged && batchCount == paged - 1 <= SafetyCap
        invariant processed == PageOffset(paged, batchSize) <= total
        invariant processed == total ==>
          processed == PagedProcessed(total, batchSize) && batchCount == PagedBatches(total, batchSize) && batchCount >= 1
        decreases total - processed
      {
        batchCount := batchCount + 1;
        if batchCount > SafetyCap {
          CapEndsRun(total, batchSize);
          break;
        }
        var posts := Page(ids, PageOffset(paged, batchSize), batchSize);
        if |posts| == 0 {
          break;
        }
        var i := 0;
        while i < |posts|
          invariant 0 <= i <= |posts| && processed == PageOffset(paged, batchSize) + i
        {
          processed := processed + 1;
          i := i + 1;
        }
        if |posts| < batchSize {
          ShortPageEndsRun(total, batchSize, paged);
          break;
        }
        PageOffsetNext(paged, batchSize);
        paged := paged + 1;
        if processed == total {
          FullPagesReachTotal(total, batchSize, batchCount);
        }
      }
    }

    /**
     * `reset`: unless the confirmation is declined (which ends the command), the
     * same state as the admin reset.
     */
    method Reset(confirmed: bool)
      modifies site
      ensures site.Snapshot() == if confirmed then Cleared(old(site.Snapshot())) else old(site.Snapshot())
    {
      if !confirmed {
        return;
      }
      site.status := Idle;
      site.pending := None;
      site.progress := None;
      site.notice := None;
      site.startTime := None;
    }
  }
}
