/**
 * `wp wpmudev scan-posts` and `wp wpmudev scan-stats` (class Posts_Maintenance_Command):
 * the older command, which splits `--post-types` without trimming, checks the
 * post types before the batch size, walks the published posts by offset without
 * a batch cap, and reports how many of them carry the scan stamp.
 */
module Command {
  import opened Wrappers
  import opened Batching
  import opened Content
  import opened PostTypeArgs
  import opened SiteState
  import Cli

  datatype ScanArgs = ScanArgs(postTypes: Option<string>, batchSize: Option<int>, dryRun: bool)

  /** One line of the dry-run sample: a post and its stored stamp, if any ("Never" otherwise). */
  datatype SampleRow = SampleRow(id: int, lastScan: Option<MetaValue>)

  datatype ScanOutcome =
    | UnknownPostTypes(names: seq<string>)
    | BadBatchSize
    | NoPosts
    | Sample(rows: seq<SampleRow>)
    | Processed(count: nat)

  datatype Validation = Invalid(outcome: ScanOutcome) | Valid(postTypes: seq<string>, batchSize: int)

  /**
   * The checks of `scan_posts`, in its order: every requested type (split on
   * commas, untrimmed) must be public; then the batch size must lie in [1, 100].
   */
  function Validate(args: ScanArgs, available: set<string>): (v: Validation)
    ensures var types := SplitPostTypes(args.postTypes);
      InvalidTypes(types, available) != [] ==>
        v.Invalid? && v.outcome.UnknownPostTypes?
        && forall t :: t in v.outcome.names <==> t in types && t !in available
    ensures var b := args.batchSize.GetOr(DefaultBatchSize);
      (forall t :: t in SplitPostTypes(args.postTypes) ==> t in available) && (b < MinBatchSize || b > MaxBatchSize) ==>
        v == Invalid(BadBatchSize)
    ensures v.Valid? <==>
      && MinBatchSize <= args.batchSize.GetOr(DefaultBatchSize) <= MaxBatchSize
      && forall t :: t in SplitPostTypes(args.postTypes) ==> t in available
    ensures v.Valid? ==>
      v.postTypes == SplitPostTypes(args.postTypes) && v.batchSize == args.batchSize.GetOr(DefaultBatchSize)
  {
    var types := SplitPostTypes(args.postTypes);
    var invalid := InvalidTypes(types, available);
    if invalid != [] then
      assert invalid[0] in invalid;
      Invalid(UnknownPostTypes(invalid))
    else
      var b := args.batchSize.GetOr(DefaultBatchSize);
      if b < MinBatchSize || b > MaxBatchSize then Invalid(BadBatchSize)
      else Valid(types, b)
  }

  /** `show_sample_posts`: the first batch of published posts with their stored stamps. */
  function SamplePosts(catalog: seq<Post>, postTypes: seq<string>, batchSize: int, meta: map<int, MetaValue>): (rows: seq<SampleRow>)
    requires batchSize >= 1
    ensures var ids := Published(catalog, postTypes);
      |rows| == (if |ids| < batchSize then |ids| else batchSize)
    ensures var ids := Published(catalog, postTypes);
      forall i :: 0 <= i < |rows| ==>
        && rows[i].id == ids[i]
        && rows[i].lastScan == (if ids[i] in meta then Some(meta[ids[i]]) else None)
  {
    var page := Page(Published(catalog, postTypes), 0, batchSize);
    seq(|page|, i requires 0 <= i < |page| => SampleRow(page[i], if page[i] in meta then Some(meta[page[i]]) else None))
  }

  /** Published posts of the given types that carry a stamp (the `COUNT(DISTINCT p.ID)` join). */
  function ScannedIds(ids: seq<int>, meta: map<int, MetaValue>): set<int>
  {
    set x | x in ids && x in meta
  }

  /** Listing one more id adds it to the stamped ids exactly when it is stamped. */
  lemma ScannedSnoc(init: seq<int>, last: int, meta: map<int, MetaValue>)
    ensures ScannedIds(init + [last], meta)
      == if last in meta then ScannedIds(init, meta) + {last} else ScannedIds(init, meta)
  {
    assert forall x :: x in init + [last] <==> x in init || x == last;
  }

  /** The last id of a duplicate-free list does not occur before it. */
  lemma DistinctLast(ids: seq<int>)
    requires |ids| > 0 && Distinct(ids)
    ensures Distinct(ids[..|ids| - 1]) && ids[|ids| - 1] !in ids[..|ids| - 1]
  {
    var init := ids[..|ids| - 1];
    forall i | 0 <= i < |init| ensures init[i] != ids[|ids| - 1] {
      assert init[i] == ids[i];
    }
  }

  /** At most one stamped post per listed id, and exactly one each when every listed post is stamped. */
  lemma {:induction false} ScannedBound(ids: seq<int>, meta: map<int, MetaValue>)
    ensures |ScannedIds(ids, meta)| <= |ids|
    ensures Distinct(ids) && (forall x :: x in ids ==> x in meta) ==> |ScannedIds(ids, meta)| == |ids|
    decreases |ids|
  {
    if |ids| > 0 {
      var init := ids[..|ids| - 1];
      var last := ids[|ids| - 1];
      assert ids == init + [last];
      ScannedBound(init, meta);
      ScannedSnoc(init, last, meta);
      if Distinct(ids) && (forall x :: x in ids ==> x in meta) {
        DistinctLast(ids);
        assert last !in ScannedIds(init, meta);
      }
    }
  }

  /** `( part / total ) * 100`, before the one-decimal formatting. */
  function Percent(part: int, total: int): real
    requires total > 0
  {
    (part as real / total as real) * 100.0
  }

  lemma PercentagesSum(part: int, rest: int, total: int)
    requires total > 0 && part + rest == total
    ensures Percent(part, total) + Percent(rest, total) == 100.0
  {
    var t := total as real;
    assert part as real / t + rest as real / t == (part as real + rest as real) / t;
  }

  datatype Stats = Stats(total: nat, scanned: nat, unscanned: int, scannedPercent: real, unscannedPercent: real)

  datatype StatsOutcome = StatsUnknownPostTypes(names: seq<string>) | StatsNoPosts | Report(stats: Stats)

  /**
   * `scan_stats`: the post-type check, the no-posts warning, then the totals:
   * stamped posts, the rest, and both as percentages of the total.
   */
  function ScanStats(postTypesArg: Option<string>, available: set<string>, catalog: seq<Post>, meta: map<int, MetaValue>): (r: StatsOutcome)
    ensures var types := SplitPostTypes(postTypesArg);
      r.StatsUnknownPostTypes? <==> exists t :: t in types && t !in available
    ensures var types := SplitPostTypes(postTypesArg);
      r.StatsUnknownPostTypes? ==> forall t :: t in r.names <==> t in types && t !in available
    ensures var types := SplitPostTypes(postTypesArg);
      r.StatsNoPosts? <==> (forall t :: t in types ==> t in available) && |Published(catalog, types)| == 0
    ensures r.Report? ==>
      var ids := Published(catalog, SplitPostTypes(postTypesArg));
      && r.stats.total == |ids| > 0
      && r.stats.scanned == |ScannedIds(ids, meta)|
      && 0 <= r.stats.unscanned == r.stats.total - r.stats.scanned
      && r.stats.scannedPercent + r.stats.unscannedPercent == 100.0
  {
    var types := SplitPostTypes(postTypesArg);
    var invalid := InvalidTypes(types, available);
    if invalid != [] then
      assert invalid[0] in invalid;
      StatsUnknownPostTypes(invalid)
    else
      var ids := Published(catalog, types);
      var total := |ids|;
      if total == 0 then StatsNoPosts
      else
        ScannedBound(ids, meta);
        var scanned := |ScannedIds(ids, meta)|;
        var unscanned := total - scanned;
        PercentagesSum(scanned, unscanned, total);
        Report(Stats(total, scanned, unscanned, Percent(scanned, total), Percent(unscanned, total)))
  }

  /** The two commands check their arguments in opposite orders: with both wrong, they report different errors. */
  lemma ValidationOrderDiffers()
    ensures Validate(ScanArgs(Some("bogus"), Some(0), false), {"post", "page"}) == Invalid(UnknownPostTypes(["bogus"]))
    ensures Cli.Validate(Cli.ScanArgs(Some("bogus"), Some(0), false), {"post", "page"}) == Cli.Invalid(Cli.BadBatchSize)
  {
    SplitJoin(["bogus"], Separator);
    assert Join(["bogus"], Separator) == "bogus";
  }

  /** A type name with blanks only inside is unchanged by `trim`, and one leading space is cut. */
  lemma TrimLeadingSpace(t: string)
    requires |t| > 0 && !IsTrimmed(t[0]) && !IsTrimmed(t[|t| - 1])
    ensures Trim([' '] + t) == t
  {
    var s := [' '] + t;
    assert s[1..] == t;
    assert TrimStart(s) == t;
    assert TrimEnd(t) == t;
  }

  /**
   * Only `scan` trims the pieces of `--post-types`: a public type written with a
   * leading space (as in `post, page`) is an unknown type to `scan-posts` and
   * the same type to `scan`.
   */
  lemma SpacedTypeDiffers(t: string, available: set<string>)
    requires |t| > 0 && !IsTrimmed(t[0]) && !IsTrimmed(t[|t| - 1]) && Separator !in t
    requires t in available && [' '] + t !in available
    ensures Validate(ScanArgs(Some([' '] + t), None, false), available) == Invalid(UnknownPostTypes([[' '] + t]))
    ensures Cli.Validate(Cli.ScanArgs(Some([' '] + t), None, false), available) == Cli.Valid([t], DefaultBatchSize)
  {
    var spaced := [' '] + t;
    assert Separator !in spaced by {
      assert forall c :: c in spaced ==> c == ' ' || c in t;
    }
    SplitJoin([spaced], Separator);
    assert Split(spaced, Separator) == [spaced];
    TrimLeadingSpace(t);
    var trimmed := ParsePostTypes(Some(spaced));
    assert |trimmed| == 1 && trimmed[0] == t;
    assert trimmed == [t];
    assert InvalidTypes([spaced], available) == [spaced] by {
      assert [spaced][1..] == [];
    }
    assert InvalidTypes([t], available) == [] by {
      assert [t][1..] == [];
    }
  }

  class PostsMaintenanceCommand {
    const site: Store

    constructor (site: Store)
      ensures this.site == site
    {
      this.site := site;
    }

    /**
     * `scan_posts`: validate, warn and stop when there are no published posts,
     * show the sample on a dry run, otherwise stamp every published post.
     */
    method ScanPosts(args: ScanArgs, available: set<string>, catalog: seq<Post>, now: int) returns (outcome: ScanOutcome)
      modifies site`meta
      ensures var v := Validate(args, available);
        v.Invalid? ==> outcome == v.outcome && site.meta == old(site.meta)
      ensures var v := Validate(args, available);
        v.Valid? && |Published(catalog, v.postTypes)| == 0 ==> outcome == NoPosts && site.meta == old(site.meta)
      ensures var v := Validate(args, available);
        v.Valid? && |Published(catalog, v.postTypes)| > 0 && args.dryRun ==>
          outcome == Sample(SamplePosts(catalog, v.postTypes, v.batchSize, old(site.meta))) && site.meta == old(site.meta)
      ensures var v := Validate(args, available);
        v.Valid? && |Published(catalog, v.postTypes)| > 0 && !args.dryRun ==>
          var ids := Published(catalog, v.postTypes);
          outcome == Processed(|ids|) && site.meta == Stamp(old(site.meta), ids, Epoch(now))
    {
      var v := Validate(args, available);
      if v.Invalid? {
        return v.outcome;
      }
      var total := |Published(catalog, v.postTypes)|;
      if total == 0 {
        return NoPosts;
      }
      if args.dryRun {
        return Sample(SamplePosts(catalog, v.postTypes, v.batchSize, site.meta));
      }
      var processed, batches := ProcessAll(Published(catalog, v.postTypes), v.batchSize, total, now);
      outcome := Processed(processed);
    }

    /**
     * The offset loop of `scan_posts`: offsets 0, b, 2b, … below the total, each
     * page stamped in full; it reads ⌈n / b⌉ pages and stamps every post once.
     */
    method ProcessAll(ids: seq<int>, batchSize: int, total: int, now: int)
      returns (processed: nat, ghost batches: nat)
      requires MinBatchSize <= batchSize <= MaxBatchSize
      requires 0 < total == |ids|
      modifies site`meta
      ensures processed == total
      ensures batches == CeilDiv(total, batchSize)
      ensures site.meta == Stamp(old(site.meta), ids, Epoch(now))
    {
      processed := 0;
      var offset := 0;
      batches := 0;
      while offset < total
        invariant offset >= 0
        invariant batches + CeilDiv(total - offset, batchSize) == CeilDiv(total, batchSize)
        invariant processed == if offset <= total then offset else total
        invariant site.meta == Stamp(old(site.meta), ids[..processed], Epoch(now))
        decreases total - offset
      {
        var posts := Page(ids, offset, batchSize);
        if |posts| == 0 {
          break;
        }
        assert processed == offset;
        site.StampRun(old(site.meta), ids, processed, posts, Epoch(now));
        processed := processed + |posts|;
        offset := offset + batchSize;
        batches := batches + 1;
      }
      assert processed == total;
      assert ids[..processed] == ids;
    }
  }

  /**
   * A live `scan-posts` over a table with unique ids leaves `scan-stats` for the
   * same post types reporting every post scanned and none unscanned.
   */
  lemma StatsAfterFullScan(postTypesArg: Option<string>, available: set<string>, catalog: seq<Post>, meta: map<int, MetaValue>, now: int)
    requires UniqueIds(catalog)
    requires forall t :: t in SplitPostTypes(postTypesArg) ==> t in available
    requires |Published(catalog, SplitPostTypes(postTypesArg))| > 0
    ensures var ids := Published(catalog, SplitPostTypes(postTypesArg));
      var r := ScanStats(postTypesArg, available, catalog, Stamp(meta, ids, Epoch(now)));
      r.Report? && r.stats.scanned == r.stats.total && r.stats.unscanned == 0
  {
    var types := SplitPostTypes(postTypesArg);
    var ids := Published(catalog, types);
    var stamped := Stamp(meta, ids, Epoch(now));
    MatchingDistinct(catalog, types, {Publish});
    StampedExactly(meta, ids, Epoch(now));
    ScannedBound(ids, stamped);
  }
}
