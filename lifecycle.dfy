/**
 * A scan as a sequence of batch events: WP-cron ticking at a sequence of
 * times and running the pending `wpmudev_process_posts_batch` event once it is
 * due, the invariant each batch keeps, the monotone cursor, and the number of
 * batches a scan over an unchanged posts table takes.
 */
module Lifecycle {
  import opened Wrappers
  import opened Batching
  import opened Content
  import opened SiteState
  import opened Admin

  /**
   * WP-cron runs the pending batch event at `now` once its time has come,
   * whatever the scan status (a batch size below 1 or a negative offset are not
   * modelled).
   */
  predicate CanFire(s: State, now: int)
  {
    && s.pending.Some? && s.pending.value.due <= now
    && s.pending.value.batchSize >= 1 && s.pending.value.offset >= 0
  }

  /** Cron takes the pending event off the schedule and runs its hook against `catalog` at `now`. */
  function Fire(s: State, catalog: seq<Post>, now: int): State
    requires CanFire(s, now)
  {
    var e := s.pending.value;
    AfterBatch(s.(pending := None), e.postTypes, e.batchSize, e.offset,
               Page(Published(catalog, e.postTypes), e.offset, e.batchSize), now)
  }

  /** One cron tick at `now`: the pending event runs if it is due, otherwise nothing happens. */
  function Tick(s: State, catalog: seq<Post>, now: int): State
  {
    if CanFire(s, now) then Fire(s, catalog, now) else s
  }

  /** The state after cron ticks at each of `times` in turn. */
  function Run(s: State, catalog: seq<Post>, times: seq<int>): State
    decreases |times|
  {
    if |times| == 0 then s else Tick(Run(s, catalog, times[..|times| - 1]), catalog, times[|times| - 1])
  }

  /** Every batch keeps the engine's invariant, whatever the posts table now holds. */
  lemma FireConsistent(s: State, catalog: seq<Post>, now: int)
    requires Consistent(s) && CanFire(s, now)
    ensures Consistent(Fire(s, catalog, now))
  {
  }

  /**
   * A batch never lowers `processed` and never moves the cursor back: while the
   * scan keeps running, the next event's offset is exactly one batch further and
   * it is due one second later, and the total stays fixed.
   */
  lemma FireAdvances(s: State, catalog: seq<Post>, now: int)
    requires Consistent(s) && CanFire(s, now)
    ensures var r := Fire(s, catalog, now);
      r.status == Running ==>
        && s.progress.Some? && r.pending.Some? && r.progress.Some?
        && r.pending.value.offset == s.pending.value.offset + s.pending.value.batchSize
        && r.pending.value.batchSize == s.pending.value.batchSize
        && r.pending.value.due == now + InterBatchDelay
        && s.progress.value.processed <= r.progress.value.processed <= r.progress.value.total
        && r.progress.value.total == s.progress.value.total
  {
  }

  /** A tick before the pending event is due, or with nothing pending, changes nothing. */
  lemma NotDueNoChange(s: State, catalog: seq<Post>, now: int)
    requires s.pending.None? || now < s.pending.value.due
    ensures Tick(s, catalog, now) == s
  {
  }

  /**
   * The batch event the watchdog leaves scheduled still runs: the scan it
   * reclaimed (idle, with an error notice) ends completed, with a success
   * notice reporting 0 posts in place of the error.
   */
  lemma ReclaimedEventCompletes(s: State, catalog: seq<Post>, now: int, later: int)
    requires Consistent(s) && Stalled(s, now)
    requires s.pending.value.batchSize >= 1 && s.pending.value.due <= later && !ScanTimedOut(s, later)
    ensures var w := Watched(s, now);
      var r := Tick(w, catalog, later);
      && w.status == Idle && w.notice == Some(Notice(Error, StartStalled, now))
      && r.status == Completed && r.notice == Some(Notice(Success, Finished(0), later))
      && r.pending.None? && r.progress.None? && r.lastScanTime == Some(later)
  {
    var w := Watched(s, now);
    assert CanFire(w, later);
  }

  /** Ticking through `xs` and then `ys` is ticking through `xs + ys`. */
  lemma {:induction false} RunConcat(s: State, catalog: seq<Post>, xs: seq<int>, ys: seq<int>)
    ensures Run(s, catalog, xs + ys) == Run(Run(s, catalog, xs), catalog, ys)
    decreases |ys|
  {
    if |ys| == 0 {
      assert xs + ys == xs;
    } else {
      var zs := ys[..|ys| - 1];
      assert (xs + ys)[..|xs + ys| - 1] == xs + zs;
      assert (xs + ys)[|xs + ys| - 1] == ys[|ys| - 1];
      RunConcat(s, catalog, xs, zs);
    }
  }

  /** With no batch event pending, ticks change nothing. */
  lemma {:induction false} RunWithoutEvent(s: State, catalog: seq<Post>, times: seq<int>)
    requires s.pending.None?
    ensures Run(s, catalog, times) == s
    decreases |times|
  {
    if |times| > 0 {
      RunWithoutEvent(s, catalog, times[..|times| - 1]);
    }
  }

  /**
   * Once no batch event is pending (after completion, a timeout or a reset,
   * which all clear it), further cron ticks change nothing.
   */
  lemma RunStops(s: State, catalog: seq<Post>, times: seq<int>, more: seq<int>)
    requires Run(s, catalog, times).pending.None?
    ensures Run(s, catalog, times + more) == Run(s, catalog, times)
  {
    RunConcat(s, catalog, times, more);
    RunWithoutEvent(Run(s, catalog, times), catalog, more);
  }

  /** The number of batches a scan over `n` posts takes: one even when there are none. */
  function BatchesToComplete(n: nat, batchSize: int): nat
    requires batchSize >= 1
  {
    if n == 0 then 1 else CeilDiv(n, batchSize)
  }

  /** Where batch `j` of a run from `offset` starts: `offset + j * batchSize`, one batch at a time. */
  function BatchStart(offset: int, j: nat, batchSize: int): (o: int)
    requires batchSize >= 1
    ensures o >= offset
    decreases j
  {
    if j == 0 then offset else BatchStart(offset + batchSize, j - 1, batchSize)
  }

  /** The batch-by-batch start is the product the engine's offsets amount to. */
  lemma {:induction false} BatchStartIs(offset: int, j: nat, batchSize: int)
    requires batchSize >= 1
    ensures BatchStart(offset, j, batchSize) == offset + j * batchSize
    decreases j
  {
    if j > 0 {
      BatchStartIs(offset + batchSize, j - 1, batchSize);
      assert offset + batchSize + (j - 1) * batchSize == offset + j * batchSize;
    }
  }

  /** Batch `j + 1` starts one page after batch `j`. */
  lemma {:induction false} BatchStartNext(offset: int, j: nat, batchSize: int)
    requires batchSize >= 1
    ensures BatchStart(offset, j + 1, batchSize) == BatchStart(offset, j, batchSize) + batchSize
    decreases j
  {
    if j > 0 {
      BatchStartNext(offset + batchSize, j - 1, batchSize);
    }
  }

  /** Each of the `CeilDiv(n, batchSize)` batches over `n` posts from `offset` starts before their end. */
  lemma {:induction false} BatchWithin(offset: int, n: int, batchSize: int, j: nat)
    requires batchSize >= 1 && j < CeilDiv(n, batchSize)
    ensures BatchStart(offset, j, batchSize) < offset + n
    decreases j
  {
    if j > 0 {
      BatchWithin(offset + batchSize, n - batchSize, batchSize, j - 1);
    }
  }

  /** The last of the `CeilDiv(n, batchSize)` batches over `n` posts from `offset` reaches their end. */
  lemma {:induction false} BatchLast(offset: int, n: int, batchSize: int, j: nat)
    requires batchSize >= 1 && j + 1 == CeilDiv(n, batchSize)
    ensures offset + n <= BatchStart(offset, j, batchSize) + batchSize
    decreases j
  {
    if j > 0 {
      BatchLast(offset + batchSize, n - batchSize, batchSize, j - 1);
    }
  }

  /** When batch `k` of a scan started at `start` is due: at the start, then one second after the batch before. */
  function Due(start: int, times: seq<int>, k: nat): int
    requires k <= |times|
  {
    if k == 0 then start else times[k - 1] + InterBatchDelay
  }

  /**
   * Firing times that keep a scan started at `start` on schedule: each batch
   * fires at or after its event is due and within the overall timeout of the
   * start.
   */
  ghost predicate OnSchedule(times: seq<int>, start: int)
  {
    forall k :: 0 <= k < |times| ==> Due(start, times, k) <= times[k] && times[k] - start <= OverallTimeout
  }

  /**
   * The post meta after the batches at `offset`, `offset + batchSize`, … have
   * run at `times[0]`, `times[1]`, …: each page stamped with its own time.
   */
  function BatchStamps(meta: map<int, MetaValue>, ids: seq<int>, offset: int, batchSize: int, times: seq<int>): map<int, MetaValue>
    requires offset >= 0 && batchSize >= 1
    decreases |times|
  {
    if |times| == 0 then meta
    else BatchStamps(Stamp(meta, Page(ids, offset, batchSize), Epoch(times[0])), ids, offset + batchSize, batchSize, times[1..])
  }

  /** The batch after those at `times` stamps the page where it starts. */
  lemma {:induction false} BatchStampsSnoc(meta: map<int, MetaValue>, ids: seq<int>, offset: int, batchSize: int, times: seq<int>, t: int)
    requires offset >= 0 && batchSize >= 1
    ensures BatchStamps(meta, ids, offset, batchSize, times + [t])
      == Stamp(BatchStamps(meta, ids, offset, batchSize, times), Page(ids, BatchStart(offset, |times|, batchSize), batchSize), Epoch(t))
    decreases |times|
  {
    if |times| == 0 {
      assert times + [t] == [t];
      assert [t][1..] == [];
    } else {
      var stamped := Stamp(meta, Page(ids, offset, batchSize), Epoch(times[0]));
      assert (times + [t])[0] == times[0];
      assert (times + [t])[1..] == times[1..] + [t];
      BatchStampsSnoc(stamped, ids, offset + batchSize, batchSize, times[1..], t);
    }
  }

  /**
   * A scan over the unchanged published posts `ids`, started at `start`, whose
   * next batch at `offset` is due at `due`, with post meta `meta`.
   */
  function Scanning(s: State, postTypes: seq<string>, batchSize: int, ids: seq<int>, start: int,
                    offset: int, meta: map<int, MetaValue>, due: int): State
  {
    Started(s, postTypes, batchSize, |ids|, start).(
      progress := Some(Progress(offset, |ids|, offset, postTypes)),
      pending := Some(BatchEvent(postTypes, batchSize, offset, due)),
      meta := meta)
  }

  /** The state a scan over `ids` ends in when its last batch runs at `last`. */
  function CompletedState(s: State, ids: seq<int>, start: int, meta: map<int, MetaValue>, last: int): State
  {
    s.(status := Completed, startTime := Some(start), lastScanTime := Some(last),
       notice := Some(Notice(Success, Finished(|ids|), last)),
       progress := None, pending := None, meta := meta)
  }

  /** A full batch that does not reach the total moves the scan one batch further. */
  lemma ScanningStep(s: State, catalog: seq<Post>, postTypes: seq<string>, batchSize: int, ids: seq<int>, start: int,
                     offset: int, meta: map<int, MetaValue>, due: int, now: int)
    requires ids == Published(catalog, postTypes)
    requires batchSize >= 1 && 0 <= offset && offset + batchSize < |ids|
    requires due <= now && now - start <= OverallTimeout
    ensures Tick(Scanning(s, postTypes, batchSize, ids, start, offset, meta, due), catalog, now)
      == Scanning(s, postTypes, batchSize, ids, start, offset + batchSize,
                  Stamp(meta, Page(ids, offset, batchSize), Epoch(now)), now + InterBatchDelay)
  {
    var m := Scanning(s, postTypes, batchSize, ids, start, offset, meta, due);
    assert CanFire(m, now);
  }

  /** The batch that reaches the total, or finds an empty table, completes the scan. */
  lemma ScanningLast(s: State, catalog: seq<Post>, postTypes: seq<string>, batchSize: int, ids: seq<int>, start: int,
                     offset: int, meta: map<int, MetaValue>, due: int, now: int)
    requires ids == Published(catalog, postTypes)
    requires batchSize >= 1 && ((offset == 0 && ids == []) || (0 <= offset < |ids| <= offset + batchSize))
    requires due <= now && now - start <= OverallTimeout
    ensures Tick(Scanning(s, postTypes, batchSize, ids, start, offset, meta, due), catalog, now)
      == CompletedState(s, ids, start, Stamp(meta, Page(ids, offset, batchSize), Epoch(now)), now)
  {
    var m := Scanning(s, postTypes, batchSize, ids, start, offset, meta, due);
    assert CanFire(m, now);
  }

  /**
   * The state of a scan over `ids` started at `start` once its first `k`
   * batches ran at `times[..k]`, leaving post meta `metas[k]`: scanning from
   * batch `k`, or completed after the last of the `|times|` batches.
   */
  function StateAfter(s: State, postTypes: seq<string>, batchSize: int, ids: seq<int>, start: int,
                      times: seq<int>, metas: seq<map<int, MetaValue>>, k: nat): State
    requires batchSize >= 1 && 0 < |times| && k <= |times| && |metas| == |times| + 1
  {
    if k < |times| then
      Scanning(s, postTypes, batchSize, ids, start, BatchStart(0, k, batchSize), metas[k], Due(start, times, k))
    else
      CompletedState(s, ids, start, metas[k], times[|times| - 1])
  }

  /** Post meta `metas[k + 1]` is `metas[k]` with batch `k` stamped at `times[k]`. */
  ghost predicate StampsInTurn(ids: seq<int>, batchSize: int, times: seq<int>, metas: seq<map<int, MetaValue>>)
    requires batchSize >= 1
  {
    && |metas| == |times| + 1
    && forall k :: 0 <= k < |times| ==>
         metas[k + 1] == Stamp(metas[k], Page(ids, BatchStart(0, k, batchSize), batchSize), Epoch(times[k]))
  }

  /** Ticks that each lead from one state to the next run from the first state to state `j`. */
  lemma {:induction false} RunStepsTo(states: seq<State>, catalog: seq<Post>, times: seq<int>, j: nat)
    requires |states| == |times| + 1 && j <= |times|
    requires forall k :: 0 <= k < |times| ==> Tick(states[k], catalog, times[k]) == states[k + 1]
    ensures Run(states[0], catalog, times[..j]) == states[j]
    decreases j
  {
    if j == 0 {
      assert times[..0] == [];
    } else {
      assert times[..j][..j - 1] == times[..j - 1];
      RunStepsTo(states, catalog, times, j - 1);
    }
  }

  /** Ticks that each lead from one state to the next run from the first state through all the others. */
  lemma RunSteps(states: seq<State>, catalog: seq<Post>, times: seq<int>)
    requires |states| == |times| + 1
    requires forall k :: 0 <= k < |times| ==> Tick(states[k], catalog, times[k]) == states[k + 1]
    ensures forall j :: 0 <= j <= |times| ==> Run(states[0], catalog, times[..j]) == states[j]
  {
    forall j | 0 <= j <= |times| ensures Run(states[0], catalog, times[..j]) == states[j] {
      RunStepsTo(states, catalog, times, j);
    }
  }

  /** On schedule, a batch before the last takes the scan one batch further. */
  lemma ScanStepBefore(s: State, catalog: seq<Post>, postTypes: seq<string>, batchSize: int, ids: seq<int>, start: int,
                       times: seq<int>, metas: seq<map<int, MetaValue>>, k: nat)
    requires ids == Published(catalog, postTypes)
    requires batchSize >= 1 && |times| == BatchesToComplete(|ids|, batchSize) && |metas| == |times| + 1
    requires OnSchedule(times, start) && k + 1 < |times|
    requires metas[k + 1] == Stamp(metas[k], Page(ids, BatchStart(0, k, batchSize), batchSize), Epoch(times[k]))
    ensures Tick(StateAfter(s, postTypes, batchSize, ids, start, times, metas, k), catalog, times[k])
      == StateAfter(s, postTypes, batchSize, ids, start, times, metas, k + 1)
  {
    BatchWithin(0, |ids|, batchSize, k + 1);
    BatchStartNext(0, k, batchSize);
    ScanningStep(s, catalog, postTypes, batchSize, ids, start, BatchStart(0, k, batchSize), metas[k], Due(start, times, k), times[k]);
  }

  /** On schedule, the last batch completes the scan. */
  lemma ScanStepLast(s: State, catalog: seq<Post>, postTypes: seq<string>, batchSize: int, ids: seq<int>, start: int,
                     times: seq<int>, metas: seq<map<int, MetaValue>>, k: nat)
    requires ids == Published(catalog, postTypes)
    requires batchSize >= 1 && |times| == BatchesToComplete(|ids|, batchSize) && |metas| == |times| + 1
    requires OnSchedule(times, start) && k + 1 == |times|
    requires metas[k + 1] == Stamp(metas[k], Page(ids, BatchStart(0, k, batchSize), batchSize), Epoch(times[k]))
    ensures Tick(StateAfter(s, postTypes, batchSize, ids, start, times, metas, k), catalog, times[k])
      == StateAfter(s, postTypes, batchSize, ids, start, times, metas, k + 1)
  {
    if |ids| > 0 {
      BatchWithin(0, |ids|, batchSize, k);
      BatchLast(0, |ids|, batchSize, k);
    }
    ScanningLast(s, catalog, postTypes, batchSize, ids, start, BatchStart(0, k, batchSize), metas[k], Due(start, times, k), times[k]);
  }

  /** On schedule, every batch takes the scan from its state before to its state after. */
  lemma ScanSteps(s: State, catalog: seq<Post>, postTypes: seq<string>, batchSize: int, ids: seq<int>, start: int,
                  times: seq<int>, metas: seq<map<int, MetaValue>>, states: seq<State>)
    requires ids == Published(catalog, postTypes)
    requires batchSize >= 1 && |times| == BatchesToComplete(|ids|, batchSize)
    requires OnSchedule(times, start) && StampsInTurn(ids, batchSize, times, metas)
    requires |states| == |times| + 1
    requires forall k :: 0 <= k <= |times| ==> states[k] == StateAfter(s, postTypes, batchSize, ids, start, times, metas, k)
    ensures forall k :: 0 <= k < |times| ==> Tick(states[k], catalog, times[k]) == states[k + 1]
  {
    forall k | 0 <= k < |times| ensures Tick(states[k], catalog, times[k]) == states[k + 1] {
      if k + 1 < |times| {
        ScanStepBefore(s, catalog, postTypes, batchSize, ids, start, times, metas, k);
      } else {
        ScanStepLast(s, catalog, postTypes, batchSize, ids, start, times, metas, k);
      }
    }
  }

  /**
   * With the post meta after each batch given by `metas`, ticking on schedule
   * keeps the scan running before its last batch and completes it after.
   */
  lemma ScanRuns(s: State, catalog: seq<Post>, postTypes: seq<string>, batchSize: int, ids: seq<int>, start: int,
                 times: seq<int>, metas: seq<map<int, MetaValue>>)
    requires ids == Published(catalog, postTypes)
    requires batchSize >= 1 && |times| == BatchesToComplete(|ids|, batchSize)
    requires OnSchedule(times, start) && StampsInTurn(ids, batchSize, times, metas) && metas[0] == s.meta
    ensures var s0 := Started(s, postTypes, batchSize, |ids|, start);
      && (forall j :: 0 <= j < |times| ==> Run(s0, catalog, times[..j]).status == Running)
      && Run(s0, catalog, times) == CompletedState(s, ids, start, metas[|times|], times[|times| - 1])
  {
    var s0 := Started(s, postTypes, batchSize, |ids|, start);
    var states := seq(|times| + 1, k requires 0 <= k <= |times| => StateAfter(s, postTypes, batchSize, ids, start, times, metas, k));
    ScanSteps(s, catalog, postTypes, batchSize, ids, start, times, metas, states);
    assert states[0] == s0;
    RunSteps(states, catalog, times);
    assert times[..|times|] == times;
  }

  /** Batch `k` stamps its page on the meta left by the batches before it. */
  lemma BatchStampsPrefix(meta: map<int, MetaValue>, ids: seq<int>, batchSize: int, times: seq<int>, k: nat)
    requires batchSize >= 1 && k < |times|
    ensures BatchStamps(meta, ids, 0, batchSize, times[..k + 1])
      == Stamp(BatchStamps(meta, ids, 0, batchSize, times[..k]), Page(ids, BatchStart(0, k, batchSize), batchSize), Epoch(times[k]))
  {
    BatchStampsSnoc(meta, ids, 0, batchSize, times[..k], times[k]);
    assert times[..k] + [times[k]] == times[..k + 1];
  }

  /** The meta after each prefix of the batches is stamped batch by batch. */
  lemma BatchStampsInTurn(meta: map<int, MetaValue>, ids: seq<int>, batchSize: int, times: seq<int>)
    requires batchSize >= 1
    ensures StampsInTurn(ids, batchSize, times,
                         seq(|times| + 1, k requires 0 <= k <= |times| => BatchStamps(meta, ids, 0, batchSize, times[..k])))
  {
    var metas := seq(|times| + 1, k requires 0 <= k <= |times| => BatchStamps(meta, ids, 0, batchSize, times[..k]));
    forall k | 0 <= k < |times|
      ensures metas[k + 1] == Stamp(metas[k], Page(ids, BatchStart(0, k, batchSize), batchSize), Epoch(times[k]))
    {
      BatchStampsPrefix(meta, ids, batchSize, times, k);
    }
  }

  /**
   * Termination: over an unchanged table of n published posts, with cron firing
   * each batch on schedule within the overall timeout, the scan is still running
   * after each of the first max(1, ceil(n / b)) - 1 batches and has completed
   * after that many, every page stamped with the time of its own batch, the
   * notice reporting n and the last scan time that of the last batch.
   */
  lemma ScanCompletes(s: State, catalog: seq<Post>, postTypes: seq<string>, batchSize: int, start: int, times: seq<int>)
    requires batchSize >= 1
    requires |times| == BatchesToComplete(|Published(catalog, postTypes)|, batchSize)
    requires OnSchedule(times, start)
    ensures var ids := Published(catalog, postTypes);
      var s0 := Started(s, postTypes, batchSize, |ids|, start);
      && (forall j :: 0 <= j < |times| ==> Run(s0, catalog, times[..j]).status == Running)
      && Run(s0, catalog, times) == CompletedState(s, ids, start, BatchStamps(s.meta, ids, 0, batchSize, times), times[|times| - 1])
  {
    var ids := Published(catalog, postTypes);
    var metas := seq(|times| + 1, k requires 0 <= k <= |times| => BatchStamps(s.meta, ids, 0, batchSize, times[..k]));
    BatchStampsInTurn(s.meta, ids, batchSize, times);
    assert times[..0] == [] && times[..|times|] == times;
    ScanRuns(s, catalog, postTypes, batchSize, ids, start, times, metas);
  }

  /** Batch `k` of a run whose every tick comes when its event is due fires at least `k` seconds after the start. */
  lemma {:induction false} FiresNoEarlier(times: seq<int>, start: int, k: nat)
    requires k < |times| && forall i :: 0 <= i <= k ==> Due(start, times, i) <= times[i]
    ensures times[k] >= start + k
    decreases k
  {
    if k > 0 {
      FiresNoEarlier(times, start, k - 1);
    }
  }

  /**
   * On-schedule firing times exist for at most 301 batches: a scan that needs
   * more, that is one over more than 301 * b posts, cannot finish inside the
   * overall timeout.
   */
  lemma OnScheduleBound(times: seq<int>, start: int)
    requires OnSchedule(times, start)
    ensures |times| <= OverallTimeout + 1
  {
    if |times| > 0 {
      FiresNoEarlier(times, start, |times| - 1);
    }
  }

  /** On schedule, a batch before the last of a longer scan takes it one batch further. */
  lemma ScanStepPrefix(s: State, catalog: seq<Post>, postTypes: seq<string>, batchSize: int, ids: seq<int>, start: int,
                       times: seq<int>, metas: seq<map<int, MetaValue>>, k: nat)
    requires ids == Published(catalog, postTypes)
    requires batchSize >= 1 && 0 < |times| < BatchesToComplete(|ids|, batchSize) && |metas| == |times| + 1
    requires OnSchedule(times, start) && k < |times|
    requires metas[k + 1] == Stamp(metas[k], Page(ids, BatchStart(0, k, batchSize), batchSize), Epoch(times[k]))
    ensures Tick(Scanning(s, postTypes, batchSize, ids, start, BatchStart(0, k, batchSize), metas[k], Due(start, times, k)), catalog, times[k])
      == Scanning(s, postTypes, batchSize, ids, start, BatchStart(0, k + 1, batchSize), metas[k + 1], Due(start, times, k + 1))
  {
    assert |ids| > 0;
    BatchWithin(0, |ids|, batchSize, k + 1);
    BatchStartNext(0, k, batchSize);
    ScanningStep(s, catalog, postTypes, batchSize, ids, start, BatchStart(0, k, batchSize), metas[k], Due(start, times, k), times[k]);
  }

  /**
   * On schedule, the first `|times|` batches of a scan that needs more leave it
   * running at batch `|times|`, due one second after the last of them.
   */
  lemma ScanRunsPrefix(s: State, catalog: seq<Post>, postTypes: seq<string>, batchSize: int, ids: seq<int>, start: int,
                       times: seq<int>, metas: seq<map<int, MetaValue>>)
    requires ids == Published(catalog, postTypes)
    requires batchSize >= 1 && |times| < BatchesToComplete(|ids|, batchSize)
    requires OnSchedule(times, start) && StampsInTurn(ids, batchSize, times, metas) && metas[0] == s.meta
    ensures Run(Started(s, postTypes, batchSize, |ids|, start), catalog, times)
      == Scanning(s, postTypes, batchSize, ids, start, BatchStart(0, |times|, batchSize), metas[|times|], Due(start, times, |times|))
  {
    var states := seq(|times| + 1, k requires 0 <= k <= |times| =>
      Scanning(s, postTypes, batchSize, ids, start, BatchStart(0, k, batchSize), metas[k], Due(start, times, k)));
    forall k | 0 <= k < |times| ensures Tick(states[k], catalog, times[k]) == states[k + 1] {
      ScanStepPrefix(s, catalog, postTypes, batchSize, ids, start, times, metas, k);
    }
    assert states[0] == Started(s, postTypes, batchSize, |ids|, start);
    RunSteps(states, catalog, times);
    assert times[..|times|] == times;
  }

  /** A due batch that fires more than 300 s after a (non-zero) start ends the scan idle with an error. */
  lemma ScanningTimesOut(s: State, catalog: seq<Post>, postTypes: seq<string>, batchSize: int, ids: seq<int>, start: int,
                         offset: int, meta: map<int, MetaValue>, due: int, now: int)
    requires batchSize >= 1 && offset >= 0 && start != 0
    requires due <= now && now - start > OverallTimeout
    ensures var r := Tick(Scanning(s, postTypes, batchSize, ids, start, offset, meta, due), catalog, now);
      && r.status == Idle && r.notice == Some(Notice(Error, TimedOut, now))
      && r.pending.None? && r.progress.None?
  {
    var m := Scanning(s, postTypes, batchSize, ids, start, offset, meta, due);
    assert CanFire(m, now);
  }

  /**
   * A scan whose batches ran on schedule at `times` without reaching the end,
   * and whose next batch fires more than 300 s after the start, times out:
   * idle, an error notice, no event and no progress.
   */
  lemma ScanTimesOut(s: State, catalog: seq<Post>, postTypes: seq<string>, batchSize: int, start: int, times: seq<int>, t: int)
    requires batchSize >= 1 && start != 0
    requires |times| < BatchesToComplete(|Published(catalog, postTypes)|, batchSize)
    requires OnSchedule(times, start)
    requires Due(start, times, |times|) <= t && t - start > OverallTimeout
    ensures var ids := Published(catalog, postTypes);
      var r := Run(Started(s, postTypes, batchSize, |ids|, start), catalog, times + [t]);
      && r.status == Idle && r.notice == Some(Notice(Error, TimedOut, t))
      && r.pending.None? && r.progress.None?
  {
    var ids := Published(catalog, postTypes);
    var metas := seq(|times| + 1, k requires 0 <= k <= |times| => BatchStamps(s.meta, ids, 0, batchSize, times[..k]));
    BatchStampsInTurn(s.meta, ids, batchSize, times);
    assert times[..0] == [];
    ScanRunsPrefix(s, catalog, postTypes, batchSize, ids, start, times, metas);
    assert (times + [t])[..|times|] == times;
    ScanningTimesOut(s, catalog, postTypes, batchSize, ids, start, BatchStart(0, |times|, batchSize), metas[|times|],
                     Due(start, times, |times|), t);
  }

  /**
   * When every tick comes as soon as its event is due or later, and there are
   * more than 301 of them, some tick comes more than 300 s after the start. The
   * first such tick `m` is tick 301 at the latest.
   */
  lemma FirstLateTick(times: seq<int>, start: int) returns (m: nat)
    requires |times| > OverallTimeout + 1
    requires forall k :: 0 <= k < |times| ==> Due(start, times, k) <= times[k]
    ensures m <= OverallTimeout + 1 && m < |times| && times[m] - start > OverallTimeout
    ensures OnSchedule(times[..m], start) && Due(start, times[..m], m) == Due(start, times, m)
  {
    m := 0;
    while m < |times| && times[m] - start <= OverallTimeout
      invariant 0 <= m <= |times|
      invariant forall k :: 0 <= k < m ==> times[k] - start <= OverallTimeout
      decreases |times| - m
    {
      m := m + 1;
    }
    if m == |times| {
      FiresNoEarlier(times, start, |times| - 1);
      assert false;
    }
    var prefix := times[..m];
    forall k | 0 <= k < m ensures Due(start, prefix, k) <= prefix[k] {
      assert Due(start, prefix, k) == Due(start, times, k);
    }
    OnScheduleBound(prefix, start);
  }

  /** Once the ticks up to `j` leave no event pending, the later ticks change nothing. */
  lemma RunStopsAt(s: State, catalog: seq<Post>, times: seq<int>, j: nat)
    requires j <= |times| && Run(s, catalog, times[..j]).pending.None?
    ensures Run(s, catalog, times) == Run(s, catalog, times[..j])
  {
    RunStops(s, catalog, times[..j], times[j..]);
    assert times[..j] + times[j..] == times;
  }

  /**
   * A scan over more than 301 * b posts needs more than 301 batches, and it times
   * out even when cron fires every batch as soon as it is due. After as many ticks
   * as it has batches, the scan is idle, with no event and no progress. Its notice
   * is the timeout error of the first tick more than 300 s after the start.
   */
  lemma LargeScanTimesOut(s: State, catalog: seq<Post>, postTypes: seq<string>, batchSize: int, start: int, times: seq<int>)
    requires batchSize >= 1 && start != 0
    requires BatchesToComplete(|Published(catalog, postTypes)|, batchSize) > OverallTimeout + 1
    requires |times| >= BatchesToComplete(|Published(catalog, postTypes)|, batchSize)
    requires forall k :: 0 <= k < |times| ==> Due(start, times, k) <= times[k]
    ensures var ids := Published(catalog, postTypes);
      var r := Run(Started(s, postTypes, batchSize, |ids|, start), catalog, times);
      && r.status == Idle && r.pending.None? && r.progress.None?
      && exists k :: 0 <= k < |times| && times[k] - start > OverallTimeout && r.notice == Some(Notice(Error, TimedOut, times[k]))
  {
    var ids := Published(catalog, postTypes);
    var s0 := Started(s, postTypes, batchSize, |ids|, start);
    var m := FirstLateTick(times, start);
    ScanTimesOut(s, catalog, postTypes, batchSize, start, times[..m], times[m]);
    assert times[..m] + [times[m]] == times[..m + 1];
    RunStopsAt(s0, catalog, times, m + 1);
  }

  /** Batches after a post's own batch leave its stamp alone when ids are unique. */
  lemma {:induction false} BatchStampsKeep(meta: map<int, MetaValue>, ids: seq<int>, offset: int, batchSize: int, times: seq<int>, x: int)
    requires offset >= 0 && batchSize >= 1
    requires x in meta && forall q :: offset <= q < |ids| ==> ids[q] != x
    ensures var r := BatchStamps(meta, ids, offset, batchSize, times);
      x in r && r[x] == meta[x]
    decreases |times|
  {
    if |times| > 0 {
      var page := Page(ids, offset, batchSize);
      StampedExactly(meta, page, Epoch(times[0]));
      assert x !in page;
      BatchStampsKeep(Stamp(meta, page, Epoch(times[0])), ids, offset + batchSize, batchSize, times[1..], x);
    }
  }

  /** With unique ids, post `i` of the first batch keeps the time of that batch. */
  lemma BatchStampsFirst(meta: map<int, MetaValue>, ids: seq<int>, offset: int, batchSize: int, times: seq<int>, i: int)
    requires Distinct(ids) && offset >= 0 && batchSize >= 1
    requires 0 < |times| && 0 <= i < batchSize && offset + i < |ids|
    ensures var r := BatchStamps(meta, ids, offset, batchSize, times);
      ids[offset + i] in r && r[ids[offset + i]] == Epoch(times[0])
  {
    var page := Page(ids, offset, batchSize);
    var stamped := Stamp(meta, page, Epoch(times[0]));
    var x := ids[offset + i];
    assert BatchStamps(meta, ids, offset, batchSize, times) == BatchStamps(stamped, ids, offset + batchSize, batchSize, times[1..]);
    assert page[i] == x;
    StampedExactly(meta, page, Epoch(times[0]));
    forall q | offset + batchSize <= q < |ids| ensures ids[q] != x {
      assert offset + i < q;
    }
    BatchStampsKeep(stamped, ids, offset + batchSize, batchSize, times[1..], x);
  }

  /**
   * With unique ids, post `i` of batch `j` ends up with the time of batch `j`:
   * each post holds the time of the batch that read it.
   */
  lemma {:induction false} BatchStampsAt(meta: map<int, MetaValue>, ids: seq<int>, offset: int, batchSize: int,
                                         times: seq<int>, j: nat, i: int)
    requires Distinct(ids) && offset >= 0 && batchSize >= 1
    requires j < |times| && 0 <= i < batchSize && BatchStart(offset, j, batchSize) + i < |ids|
    ensures var r := BatchStamps(meta, ids, offset, batchSize, times);
      var k := BatchStart(offset, j, batchSize) + i;
      ids[k] in r && r[ids[k]] == Epoch(times[j])
    decreases j
  {
    if j == 0 {
      BatchStampsFirst(meta, ids, offset, batchSize, times, i);
    } else {
      var stamped := Stamp(meta, Page(ids, offset, batchSize), Epoch(times[0]));
      assert BatchStart(offset, j, batchSize) == BatchStart(offset + batchSize, j - 1, batchSize);
      BatchStampsAt(stamped, ids, offset + batchSize, batchSize, times[1..], j - 1, i);
      assert times[1..][j - 1] == times[j];
      assert BatchStamps(meta, ids, offset, batchSize, times) == BatchStamps(stamped, ids, offset + batchSize, batchSize, times[1..]);
    }
  }

  /**
   * After a completed scan over a posts table with unique ids, post `i` of
   * batch `j` carries the time at which batch `j` ran.
   */
  lemma EachPostStampedAtItsBatch(s: State, catalog: seq<Post>, postTypes: seq<string>, batchSize: int, start: int,
                                  times: seq<int>, j: nat, i: int)
    requires UniqueIds(catalog) && batchSize >= 1
    requires |times| == BatchesToComplete(|Published(catalog, postTypes)|, batchSize)
    requires OnSchedule(times, start)
    requires j < |times| && 0 <= i < batchSize && j * batchSize + i < |Published(catalog, postTypes)|
    ensures var ids := Published(catalog, postTypes);
      var r := Run(Started(s, postTypes, batchSize, |ids|, start), catalog, times);
      ids[j * batchSize + i] in r.meta && r.meta[ids[j * batchSize + i]] == Epoch(times[j])
  {
    var ids := Published(catalog, postTypes);
    ScanCompletes(s, catalog, postTypes, batchSize, start, times);
    MatchingDistinct(catalog, postTypes, {Publish});
    BatchStartIs(0, j, batchSize);
    BatchStampsAt(s.meta, ids, 0, batchSize, times, j, i);
  }

  /**
   * 25 posts in batches of 10 complete on the third batch, when `processed`
   * reaches the total, without a fourth, empty batch.
   */
  lemma TwentyFivePostsTakeThreeBatches(s: State, catalog: seq<Post>, postTypes: seq<string>, start: int, times: seq<int>)
    requires |Published(catalog, postTypes)| == 25 && |times| == 3 && OnSchedule(times, start)
    ensures var s0 := Started(s, postTypes, 10, 25, start);
      && Run(s0, catalog, times[..2]).status == Running
      && Run(s0, catalog, times).status == Completed
      && Run(s0, catalog, times).notice == Some(Notice(Success, Finished(25), times[2]))
  {
    CeilDivUnique(25, 10, 3);
    ScanCompletes(s, catalog, postTypes, 10, start, times);
  }
}
