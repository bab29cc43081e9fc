/**
 * The admin page's scan engine (class PostsMaintenance): the AJAX handlers,
 * the background scan that re-schedules itself one batch at a time through
 * WP-cron, the 300-second overall timeout, the 60-second start-up watchdog run
 * by the progress poll, reset, and the daily trigger.
 *
 * Each handler is a method on the site's store, proved equal to a function on
 * `State` snapshots; the lemmas here and in module Lifecycle are about those
 * functions.
 */
module Admin {
  import opened Wrappers
  import opened Batching
  import opened Content
  import opened PostTypeArgs
  import opened SiteState

  /** A scan that has not made progress this long after its start is reclaimed by the poll. */
  const StartupTimeout := 60
  /** A batch that runs this long after the scan's start ends the scan with an error. */
  const OverallTimeout := 300
  /** Delay between one batch and the next. */
  const InterBatchDelay := 1

  /** The AJAX scan request after defaults and the batch-size clamp. */
  datatype ScanRequest = ScanRequest(postTypes: seq<string>, batchSize: int)

  /** `post_types` defaults to post and page; `batch_size` defaults to 10 and is clamped into [1, 100]. */
  function ParseScanRequest(postTypes: Option<seq<string>>, batchSize: Option<int>): (r: ScanRequest)
    ensures 1 <= r.batchSize <= 100
    ensures batchSize.None? ==> r.batchSize == DefaultBatchSize
    ensures batchSize.Some? && 1 <= batchSize.value <= 100 ==> r.batchSize == batchSize.value
    ensures batchSize.Some? && batchSize.value < 1 ==> r.batchSize == 1
    ensures batchSize.Some? && batchSize.value > 100 ==> r.batchSize == 100
    ensures r.postTypes == postTypes.GetOr(DefaultPostTypes)
  {
    ScanRequest(postTypes.GetOr(DefaultPostTypes), ClampBatchSize(batchSize.GetOr(DefaultBatchSize)))
  }

  /** start_background_scan: a new scan replaces whatever was there, with one batch event at offset 0. */
  function Started(s: State, postTypes: seq<string>, batchSize: int, total: nat, now: int): State
  {
    s.(status := Running,
       startTime := Some(now),
       notice := None,
       progress := Some(Progress(0, total, 0, postTypes)),
       pending := Some(BatchEvent(postTypes, batchSize, 0, now)))
  }

  /** The overall-timeout test of process_posts_batch (an unset start time never times out). */
  predicate ScanTimedOut(s: State, now: int)
  {
    StartTimeOr0(s) != 0 && now - StartTimeOr0(s) > OverallTimeout
  }

  /**
   * process_posts_batch after the query returned `posts`: every returned post is
   * stamped, `processed` grows by their number but never past `total`, and the
   * cursor becomes offset + batchSize. Then, in this order: a timed-out scan ends
   * in idle with an error; a scan that got no posts or reached its total ends in
   * completed with a success notice; otherwise the next batch is scheduled.
   *
   * With the progress option missing (a batch event left scheduled by the
   * watchdog), `get_option` gives an empty array: `processed` and `total` are
   * PHP nulls, `null >= null` holds, and the scan completes reporting
   * `%d` of null, that is 0 posts.
   */
  function AfterBatch(s: State, postTypes: seq<string>, batchSize: int, offset: int, posts: seq<int>, now: int): (r: State)
    ensures r.meta == Stamp(s.meta, posts, Epoch(now))
    ensures r.startTime == s.startTime && r.dailyNext == s.dailyNext
    ensures ScanTimedOut(s, now) || !BatchEnds(s, posts) ==> r.lastScanTime == s.lastScanTime
    ensures ScanTimedOut(s, now) ==>
      r.status == Idle && r.notice == Some(Notice(Error, TimedOut, now)) && r.pending.None? && r.progress.None?
    ensures !ScanTimedOut(s, now) && BatchEnds(s, posts) ==>
      && r.status == Completed && r.pending.None? && r.progress.None? && r.lastScanTime == Some(now)
    ensures !ScanTimedOut(s, now) && BatchEnds(s, posts) && s.progress.Some? ==>
      r.notice == Some(Notice(Success, Finished(Min(s.progress.value.processed + |posts|, s.progress.value.total)), now))
    ensures !ScanTimedOut(s, now) && s.progress.None? ==>
      r.notice == Some(Notice(Success, Finished(0), now))
    ensures !ScanTimedOut(s, now) && !BatchEnds(s, posts) ==>
      && r.status == s.status && r.notice == s.notice
      && r.pending == Some(BatchEvent(postTypes, batchSize, offset + batchSize, now + InterBatchDelay))
      && r.progress.Some?
    ensures r.progress.Some? ==> s.progress.Some? && r.progress.value == s.progress.value.(
      processed := Min(s.progress.value.processed + |posts|, s.progress.value.total),
      currentBatch := offset + batchSize)
  {
    var stamped := s.(meta := Stamp(s.meta, posts, Epoch(now)));
    if ScanTimedOut(s, now) then
      stamped.(status := Idle, notice := Some(Notice(Error, TimedOut, now)), pending := None, progress := None)
    else
      match s.progress
      case None =>
        stamped.(status := Completed, lastScanTime := Some(now),
                 notice := Some(Notice(Success, Finished(0), now)), pending := None, progress := None)
      case Some(p) =>
        var sum := p.processed + |posts|;
        var progress := p.(processed := if sum > p.total then p.total else sum, currentBatch := offset + batchSize);
        if |posts| == 0 || progress.processed >= progress.total then
          stamped.(status := Completed, lastScanTime := Some(now),
                   notice := Some(Notice(Success, Finished(Min(progress.processed, progress.total)), now)),
                   pending := None, progress := None)
        else
          stamped.(progress := Some(progress),
                   pending := Some(BatchEvent(postTypes, batchSize, offset + batchSize, now + InterBatchDelay)))
  }

  /**
   * Whether a batch that returned `posts` ends the scan: the progress option is
   * missing, the batch got nothing, or the clamped count reached the total
   * (without waiting for an empty batch).
   */
  predicate BatchEnds(s: State, posts: seq<int>)
  {
    || s.progress.None?
    || |posts| == 0
    || s.progress.value.processed + |posts| >= s.progress.value.total
  }

  function Min(a: int, b: int): int
  {
    if a <= b then a else b
  }

  /** The watchdog of the progress poll: running, no progress yet, started over 60 s ago. */
  predicate Stalled(s: State, now: int)
  {
    && s.status == Running
    && (s.progress.None? || s.progress.value.processed == 0)
    && StartTimeOr0(s) > 0
    && now - StartTimeOr0(s) > StartupTimeout
  }

  /**
   * The state after the progress poll. A stalled scan becomes idle with an error
   * notice and loses its progress; the pending batch event is NOT cancelled.
   * Anything else is left exactly as it was.
   */
  function Watched(s: State, now: int): (r: State)
    ensures r == s <==> !Stalled(s, now)
    ensures Stalled(s, now) ==>
      r == s.(status := Idle, notice := Some(Notice(Error, StartStalled, now)), progress := None)
  {
    if Stalled(s, now) then
      s.(status := Idle, notice := Some(Notice(Error, StartStalled, now)), progress := None)
    else s
  }

  /** The JSON answer of the progress poll. */
  datatype ProgressReport = ProgressReport(percent: real, processed: int, total: int, isRunning: bool, status: Status)

  /**
   * The poll reports the progress it read before the watchdog (the deleted
   * option is not re-read) and the status after it; the percentage is 0 unless
   * a positive total is known.
   */
  function Reported(s: State, now: int): (r: ProgressReport)
    ensures r.status == Watched(s, now).status
    ensures r.isRunning <==> r.status == Running
    ensures s.progress.None? ==> r.processed == 0 && r.total == 0 && r.percent == 0.0
    ensures s.progress.Some? ==> r.processed == s.progress.value.processed && r.total == s.progress.value.total
    ensures r.total <= 0 ==> r.percent == 0.0
    ensures r.total > 0 ==> r.percent * (r.total as real) == (r.processed as real) * 100.0
  {
    var status := Watched(s, now).status;
    match s.progress
    case None => ProgressReport(0.0, 0, 0, status == Running, status)
    case Some(p) =>
      var percent := if p.total > 0 then (p.processed as real / p.total as real) * 100.0 else 0.0;
      ProgressReport(percent, p.processed, p.total, status == Running, status)
  }

  /** ajax_clear_notification deletes the notification and nothing else. */
  function WithoutNotice(s: State): (r: State)
    ensures r.notice.None? && r == s.(notice := None)
  {
    s.(notice := None)
  }

  /** schedule_daily_scan: a daily event starting now, unless one is already scheduled. */
  function DailyScheduled(s: State, now: int): (r: State)
    ensures r.dailyNext.Some?
    ensures s.dailyNext.Some? ==> r == s
    ensures s.dailyNext.None? ==> r == s.(dailyNext := Some(now))
  {
    if s.dailyNext.Some? then s else s.(dailyNext := Some(now))
  }

  class PostsMaintenance {
    const site: Store

    constructor (site: Store)
      ensures this.site == site
    {
      this.site := site;
    }

    /** ajax_scan_posts: defaults and clamp, then a new scan, whatever the current status. */
    method AjaxScanPosts(postTypes: Option<seq<string>>, batchSize: Option<int>, catalog: seq<Post>, now: int)
      modifies site
      ensures var r := ParseScanRequest(postTypes, batchSize);
        site.Snapshot() == Started(old(site.Snapshot()), r.postTypes, r.batchSize, |Published(catalog, r.postTypes)|, now)
    {
      var request := ParseScanRequest(postTypes, batchSize);
      StartBackgroundScan(request.postTypes, request.batchSize, catalog, now);
    }

    /** start_background_scan: snapshot the total and schedule the first batch at offset 0, due now. */
    method StartBackgroundScan(postTypes: seq<string>, batchSize: int, catalog: seq<Post>, now: int)
      modifies site
      ensures site.Snapshot() == Started(old(site.Snapshot()), postTypes, batchSize, |Published(catalog, postTypes)|, now)
    {
      site.pending := None;
      site.notice := None;
      site.startTime := Some(now);
      site.status := Running;
      var total := |Published(catalog, postTypes)|;
      site.progress := Some(Progress(0, total, 0, postTypes));
      site.pending := Some(BatchEvent(postTypes, batchSize, 0, now));
    }

    /**
     * process_posts_batch, the hook of the batch event. WP-cron takes an event
     * off the schedule before running its hook, so no batch event is pending on
     * entry; `catalog` is the posts table at the time the batch runs.
     */
    method ProcessPostsBatch(postTypes: seq<string>, batchSize: int, offset: int, catalog: seq<Post>, now: int)
      requires batchSize >= 1 && offset >= 0
      requires site.pending.None?
      modifies site
      ensures site.Snapshot() ==
        AfterBatch(old(site.Snapshot()), postTypes, batchSize, offset, Page(Published(catalog, postTypes), offset, batchSize), now)
    {
      var posts := Page(Published(catalog, postTypes), offset, batchSize);
      site.StampEach(posts, Epoch(now));
      var processed := |posts|;

      // The count the completion notice reports, and whether the total is reached.
      var actual, reachedTotal;
      match site.progress {
        case Some(p) =>
          var progress := p.(processed := p.processed + processed, currentBatch := offset + batchSize);
          if progress.processed > progress.total {
            progress := progress.(processed := progress.total);
          }
          site.progress := Some(progress);
          actual := Min(progress.processed, progress.total);
          reachedTotal := progress.processed >= progress.total;
        case None =>
          // An empty array: null counts, which compare equal and print as 0.
          actual, reachedTotal := 0, true;
      }

      var scanStart := site.startTime.GetOr(0);
      if scanStart != 0 && now - scanStart > OverallTimeout {
        site.status := Idle;
        site.notice := Some(Notice(Error, TimedOut, now));
        site.pending := None;
        site.progress := None;
        return;
      }

      if |posts| == 0 || reachedTotal {
        site.status := Completed;
        site.lastScanTime := Some(now);
        site.notice := Some(Notice(Success, Finished(actual), now));
        site.pending := None;
        site.progress := None;
      } else {
        site.pending := Some(BatchEvent(postTypes, batchSize, offset + batchSize, now + InterBatchDelay));
      }
    }

    /** ajax_get_scan_progress: runs the watchdog, then reports. */
    method AjaxGetScanProgress(now: int) returns (report: ProgressReport)
      modifies site
      ensures site.Snapshot() == Watched(old(site.Snapshot()), now)
      ensures report == Reported(old(site.Snapshot()), now)
    {
      var progress := site.progress;
      var status := site.status;
      if status == Running {
        if progress.None? || progress.value.processed == 0 {
          var scanStart := site.startTime.GetOr(0);
          if scanStart > 0 && now - scanStart > StartupTimeout {
            site.status := Idle;
            status := Idle;
            site.notice := Some(Notice(Error, StartStalled, now));
            site.progress := None;
          }
        }
      }
      var percent := 0.0;
      if progress.Some? && progress.value.total > 0 {
        percent := (progress.value.processed as real / progress.value.total as real) * 100.0;
      }
      var processed := if progress.Some? then progress.value.processed else 0;
      var total := if progress.Some? then progress.value.total else 0;
      report := ProgressReport(percent, processed, total, status == Running, status);
    }

    /** ajax_reset_scan_status. */
    method AjaxResetScanStatus()
      modifies site
      ensures site.Snapshot() == Cleared(old(site.Snapshot()))
    {
      site.status := Idle;
      site.pending := None;
      site.progress := None;
      site.notice := None;
      site.startTime := None;
    }

    /** ajax_clear_notification. */
    method AjaxClearNotification()
      modifies site
      ensures site.Snapshot() == WithoutNotice(old(site.Snapshot()))
    {
      site.notice := None;
    }

    /** schedule_daily_scan, run on every `init`. */
    method ScheduleDailyScan(now: int)
      modifies site
      ensures site.Snapshot() == DailyScheduled(old(site.Snapshot()), now)
    {
      if site.dailyNext.None? {
        site.dailyNext := Some(now);
      }
    }

    /**
     * run_daily_scan: the stored post types and batch size (defaults post, page
     * and 10) start a scan; the stored batch size is not clamped.
     */
    method RunDailyScan(storedPostTypes: Option<seq<string>>, storedBatchSize: Option<int>, catalog: seq<Post>, now: int)
      modifies site
      ensures var types := storedPostTypes.GetOr(DefaultPostTypes);
        site.Snapshot() == Started(old(site.Snapshot()), types, storedBatchSize.GetOr(DefaultBatchSize), |Published(catalog, types)|, now)
    {
      var postTypes := storedPostTypes.GetOr(DefaultPostTypes);
      var batchSize := storedBatchSize.GetOr(DefaultBatchSize);
      StartBackgroundScan(postTypes, batchSize, catalog, now);
    }
  }

  /**
   * Starting a scan does not depend on any earlier scan: a running scan is not
   * refused but replaced, its progress, notice and pending event discarded.
   */
  lemma StartIgnoresPriorScan(s: State, t: State, postTypes: seq<string>, batchSize: int, total: nat, now: int)
    requires s.lastScanTime == t.lastScanTime && s.dailyNext == t.dailyNext && s.meta == t.meta
    ensures Started(s, postTypes, batchSize, total, now) == Started(t, postTypes, batchSize, total, now)
  {
  }

  lemma StartConsistent(s: State, postTypes: seq<string>, batchSize: int, total: nat, now: int)
    ensures Consistent(Started(s, postTypes, batchSize, total, now))
  {
  }

  lemma WatchdogConsistent(s: State, now: int)
    requires Consistent(s)
    ensures Consistent(Watched(s, now))
  {
  }

  /** A scan that has stamped at least one post is never reclaimed by the poll. */
  lemma WatchdogSparesProgress(s: State, now: int)
    requires Consistent(s) && s.status == Running && s.progress.value.processed > 0
    ensures Watched(s, now) == s
  {
  }

  /** The reclaimed scan's batch event stays scheduled. */
  lemma WatchdogKeepsPendingEvent(s: State, now: int)
    requires Consistent(s) && Stalled(s, now)
    ensures Watched(s, now).status == Idle && Watched(s, now).pending.Some?
    ensures Watched(s, now).pending == s.pending
  {
  }

  lemma ClearNoticeConsistent(s: State)
    requires Consistent(s)
    ensures Consistent(WithoutNotice(s))
  {
  }

  /** Scheduling the daily event twice is scheduling it once. */
  lemma DailyScheduleIdempotent(s: State, now: int, later: int)
    ensures DailyScheduled(DailyScheduled(s, now), later) == DailyScheduled(s, now)
  {
  }
}
