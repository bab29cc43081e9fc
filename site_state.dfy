/**
 * The persisted state of the scan engine: the `wpmudev_scan_*` options, the
 * single pending `wpmudev_process_posts_batch` cron event, the daily cron event
 * and the post meta the scan writes. A deleted option is `None`; readers apply
 * the default that `get_option` would.
 */
module SiteState {
  import opened Wrappers
  import opened Content

  /** `wpmudev_scan_status` (default `idle`). */
  datatype Status = Idle | Running | Completed

  datatype NoticeKind = Success | Error

  /** Which message a notification carries. */
  datatype NoticeReason =
    | StartStalled              // "Scan failed to start properly. Please try again."
    | TimedOut                  // "Scan timed out after 5 minutes. ..."
    | Finished(processed: int)  // "Scan completed successfully! Processed %d posts."

  /** `wpmudev_scan_notification`. */
  datatype Notice = Notice(kind: NoticeKind, reason: NoticeReason, timestamp: int)

  /** `wpmudev_scan_progress`. */
  datatype Progress = Progress(processed: int, total: int, currentBatch: int, postTypes: seq<string>)

  /** A scheduled `wpmudev_process_posts_batch` event with its arguments and due time. */
  datatype BatchEvent = BatchEvent(postTypes: seq<string>, batchSize: int, offset: int, due: int)

  /** A snapshot of everything the engine reads and writes. */
  datatype State = State(
    status: Status,
    progress: Option<Progress>,
    notice: Option<Notice>,
    startTime: Option<int>,     // wpmudev_scan_start_time
    lastScanTime: Option<int>,  // wpmudev_last_scan_time
    pending: Option<BatchEvent>,
    dailyNext: Option<int>,     // next run of wpmudev_daily_posts_scan
    meta: map<int, MetaValue>)

  /** The options table, cron and post meta of one site. */
  class Store {
    var status: Status
    var progress: Option<Progress>
    var notice: Option<Notice>
    var startTime: Option<int>
    var lastScanTime: Option<int>
    var pending: Option<BatchEvent>
    var dailyNext: Option<int>
    var meta: map<int, MetaValue>

    /** A fresh site: no option stored, nothing scheduled, no meta. */
    constructor ()
      ensures Snapshot() == State(Idle, None, None, None, None, None, None, map[])
    {
      status, progress, notice := Idle, None, None;
      startTime, lastScanTime := None, None;
      pending, dailyNext, meta := None, None, map[];
    }

    function Snapshot(): State
      reads this
    {
      State(status, progress, notice, startTime, lastScanTime, pending, dailyNext, meta)
    }

    /** A `foreach` over `ids` calling `update_post_meta( $id, 'wpmudev_test_last_scan', v )`. */
    method StampEach(ids: seq<int>, v: MetaValue)
      modifies this`meta
      ensures meta == Stamp(old(meta), ids, v)
    {
      var i := 0;
      while i < |ids|
        invariant 0 <= i <= |ids|
        invariant meta == Stamp(old(meta), ids[..i], v)
      {
        StampSnoc(old(meta), ids[..i], ids[i], v);
        assert ids[..i + 1] == ids[..i] + [ids[i]];
        meta := meta[ids[i] := v];
        i := i + 1;
      }
      assert ids[..i] == ids;
    }

    /** Stamps the next run of `ids` after the first `done`, which are already stamped over `base`. */
    method StampRun(ghost base: map<int, MetaValue>, ids: seq<int>, done: nat, run: seq<int>, v: MetaValue)
      requires done + |run| <= |ids|
      requires forall i :: 0 <= i < |run| ==> run[i] == ids[done + i]
      requires meta == Stamp(base, ids[..done], v)
      modifies this`meta
      ensures meta == Stamp(base, ids[..done + |run|], v)
    {
      StampNextRun(base, ids, done, run, v);
      StampEach(run, v);
    }
  }

  /** `get_option( 'wpmudev_scan_start_time', 0 )`. */
  function StartTimeOr0(s: State): int
  {
    s.startTime.GetOr(0)
  }

  /**
   * The state after a reset (admin AJAX handler and `wp wpmudev posts reset`):
   * status idle, and the pending batch event, progress, notification and start
   * time deleted; last scan time, the daily event and post meta are kept.
   */
  function Cleared(s: State): (r: State)
    ensures r.status == Idle && r.pending.None? && r.progress.None? && r.notice.None? && r.startTime.None?
    ensures r.lastScanTime == s.lastScanTime && r.dailyNext == s.dailyNext && r.meta == s.meta
  {
    s.(status := Idle, pending := None, progress := None, notice := None, startTime := None)
  }

  /** Resetting twice is resetting once. */
  lemma ResetIdempotent(s: State)
    ensures Cleared(Cleared(s)) == Cleared(s)
  {
  }

  /**
   * What every handler keeps true: progress exists exactly while a scan runs,
   * `processed` stays within [0, total], and a running scan has a start time and
   * one pending batch event whose offset is the progress cursor.
   */
  ghost predicate Consistent(s: State)
  {
    && (s.progress.Some? <==> s.status == Running)
    && (s.progress.Some? ==>
          0 <= s.progress.value.processed <= s.progress.value.total
          && s.progress.value.currentBatch >= 0)
    && (s.status == Running ==>
          && s.startTime.Some?
          && s.pending.Some?
          && s.pending.value.offset == s.progress.value.currentBatch
          && s.pending.value.postTypes == s.progress.value.postTypes)
    && (s.pending.Some? ==> s.pending.value.offset >= 0)
  }

  lemma ResetConsistent(s: State)
    ensures Consistent(Cleared(s))
  {
  }
}
