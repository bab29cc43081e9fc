/**
 * The unit-test double of the CLI scan (tests/class-posts-maintenance-test.php):
 * it clamps instead of rejecting the batch size, reads posts of every listed
 * status, chunks them, and stamps each with one MySQL date string unless the
 * run is dry.
 */
module TestDouble {
  import opened Wrappers
  import opened Batching
  import opened Content
  import opened PostTypeArgs
  import opened SiteState

  datatype ScanArgs = ScanArgs(postTypes: Option<string>, batchSize: Option<int>, dryRun: bool)

  class PostsMaintenanceCli {
    const site: Store

    constructor (site: Store)
      ensures this.site == site
    {
      this.site := site;
    }

    /**
     * `scan`: every post of the requested types and any listed status gets the
     * same `current_time( 'mysql' )` stamp, whatever the batch size; a dry run
     * writes nothing.
     */
    method Scan(args: ScanArgs, catalog: seq<Post>, currentTime: string)
      modifies site`meta
      ensures var ids := Matching(catalog, SplitPostTypes(args.postTypes), AnyListedStatus);
        site.meta == if args.dryRun then old(site.meta) else Stamp(old(site.meta), ids, DateTime(currentTime))
    {
      var postTypes := SplitPostTypes(args.postTypes);
      var batchSize := ClampBatchSize(args.batchSize.GetOr(DefaultBatchSize));
      var posts := Matching(catalog, postTypes, AnyListedStatus);
      if |posts| == 0 {
        return;
      }
      var batches := Chunk(posts, batchSize);
      var stamp := DateTime(currentTime);
      StampBatches(batches, stamp, args.dryRun);
      ChunkFlatten(posts, batchSize);
    }

    /** The outer `foreach` over the chunks. */
    method StampBatches(batches: seq<seq<int>>, stamp: MetaValue, dryRun: bool)
      modifies site`meta
      ensures site.meta == if dryRun then old(site.meta) else Stamp(old(site.meta), Flatten(batches), stamp)
    {
      var k := 0;
      while k < |batches|
        invariant 0 <= k <= |batches|
        invariant site.meta == if dryRun then old(site.meta) else Stamp(old(site.meta), Flatten(batches[..k]), stamp)
      {
        var batch := batches[k];
        StampBatch(batch, stamp, dryRun);
        if !dryRun {
          StampConcat(old(site.meta), Flatten(batches[..k]), batch, stamp);
        }
        FlattenSnoc(batches[..k], batch);
        assert batches[..k + 1] == batches[..k] + [batch];
        k := k + 1;
      }
      assert batches[..k] == batches;
    }

    /** The inner `foreach` over one chunk: each id is stamped unless the run is dry. */
    method StampBatch(batch: seq<int>, stamp: MetaValue, dryRun: bool)
      modifies site`meta
      ensures site.meta == if dryRun then old(site.meta) else Stamp(old(site.meta), batch, stamp)
    {
      var i := 0;
      while i < |batch|
        invariant 0 <= i <= |batch|
        invariant site.meta == if dryRun then old(site.meta) else Stamp(old(site.meta), batch[..i], stamp)
      {
        if !dryRun {
          StampSnoc(old(site.meta), batch[..i], batch[i], stamp);
          assert batch[..i + 1] == batch[..i] + [batch[i]];
          site.meta := site.meta[batch[i] := stamp];
        }
        i := i + 1;
      }
      assert batch[..i] == batch;
    }
  }
}
