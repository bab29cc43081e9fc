# Posts maintenance scan — a Dafny model

This project models the posts-maintenance scan of the WPMU DEV plugin test
repository. The scan walks the published posts of some post types in batches
and stamps each post with the `wpmudev_test_last_scan` meta. It has four entry
points, and the model covers all of them:

- **The admin engine** (`PostsMaintenance`). An AJAX request starts a scan.
  The scan then re-schedules itself through WP-cron one batch at a time: each
  `wpmudev_process_posts_batch` event handles one offset and schedules the next.
  A 300-second overall timeout and a 60-second start-up watchdog can end it.
  The watchdog runs inside the progress poll. Reset, notification clearing and
  the daily trigger complete the engine.
- **`wp wpmudev posts scan` / `reset`** (`PostsMaintenanceCLI`). A synchronous
  paged loop with a 1000-batch safety cap, plus a dry-run twin.
- **`wp wpmudev scan-posts` / `scan-stats`** (`Posts_Maintenance_Command`). An
  older command with an offset loop, its own validation order, a dry-run
  sample, and scan statistics.
- **The unit-test double** (`Posts_Maintenance_CLI` in `tests/`). It clamps the
  batch size, chunks the id list and stamps every id.

The options table, the cron schedule and the post meta form one mutable store,
`SiteState.Store`. Its `Snapshot()` is a `State` value:

- the `wpmudev_scan_*` options, where a deleted option is `None`;
- the single pending batch event;
- the next daily event;
- the post meta map.

Each handler is a method on that store. Its `ensures` ties the new snapshot to
a pure function of the old one. The lemmas are about those functions:

- the invariant `Consistent`;
- monotone progress;
- how a scan ends: after max(1, ⌈n/b⌉) batches when cron fires them on time
  and that is at most 301 batches (n ≤ 301·b), and otherwise by the 300-second
  overall timeout;
- idempotent reset.

The posts table is a sequence of `Post` records in query order. `time()` is a
parameter `now`, and so is the table each query reads.

Modules, one per file:

- `Wrappers`: Option.
- `Batching`: clamp, ceiling division, offset pages, `array_chunk`.
- `Content`: posts, queries, post meta.
- `PostTypeArgs`: `explode`, `implode`, `trim`, `array_diff`.
- `SiteState`: the store, reset, the invariant.
- `Admin`: the admin engine.
- `Lifecycle`: runs of cron events.
- `Cli`: `posts scan` and `posts reset`.
- `Command`: `scan-posts` and `scan-stats`.
- `TestDouble`: the unit-test scan.

Behaviours of the code that the model keeps as written:

- Starting a scan is never refused while one is running. `ajax_scan_posts`
  calls `start_background_scan` whatever the status
  (`app/admin-pages/class-posts-maintenance.php:147-173`). The only guards are
  the start time written at `app/admin-pages/class-posts-maintenance.php:306`,
  which the code comments as preventing duplicate processing, and the admin
  page disabling its start button while a scan runs
  (`app/admin-pages/class-posts-maintenance.php:552`).
  `Admin.StartIgnoresPriorScan` states this.
- A scan completes on the batch where `processed >= total`
  (`app/admin-pages/class-posts-maintenance.php:420-421`). So 25 posts at batch
  size 10 take 3 batches (`Lifecycle.TwentyFivePostsTakeThreeBatches`).
- The stall watchdog in the progress poll sets the status to idle, writes an
  error notice and deletes the progress. It does not unschedule the pending
  batch event (`app/admin-pages/class-posts-maintenance.php:193-213`,
  `Admin.WatchdogKeepsPendingEvent`). When that event later runs, it reads no
  progress, completes the scan and replaces the error with a notice of 0
  processed posts (`Lifecycle.ReclaimedEventCompletes`).
- The PHP code writes only the statuses `idle`, `running` and `completed`;
  errors go into the notification. The admin script also knows an `error`
  status (`assets/js/posts-maintenance-admin.js:377-388`), which the model never
  produces.

## Model

| member | source | states |
|---|---|---|
| Batching.ClampBatchSize | tests/class-posts-maintenance-test.php:34 | `max(1, min(100, b))`: the result lies in [1, 100], equals the request inside that range, and is 1 below it and 100 above it |
| Batching.CeilDivBounds | app/admin-pages/class-posts-maintenance.php:421-445 | ⌈n/b⌉ batches of b cover n posts, and one batch fewer does not |
| Batching.CeilDivUnique | app/cli/class-posts-maintenance-cli.php:167-222 | the page count j with (j−1)·b < n ≤ j·b is exactly ⌈n/b⌉ |
| Batching.CeilDivBelow | app/admin-pages/class-posts-maintenance.php:443-445 | batch j of a scan (offset j·b) is still inside the list exactly when j < ⌈n/b⌉ |
| Batching.LastBatchOffset | app/admin-pages/class-posts-maintenance.php:421 | for n > 0 the last batch starts below n and reaches n |
| Batching.Page | app/cli/class-posts-maintenance-command.php:145-156 | a `posts_per_page`/`offset` query returns at most `limit` ids; a full page when enough ids remain, the remainder otherwise, and nothing past the end; each id is the one at `offset + i` |
| Batching.Chunk | tests/class-posts-maintenance-test.php:51 | `array_chunk`: every chunk has between 1 and b ids, and every chunk but the last has exactly b |
| Batching.ChunkFlatten | tests/class-posts-maintenance-test.php:51 | concatenating the chunks gives back the id list |
| Batching.ChunkCount | tests/class-posts-maintenance-test.php:51 | there are ⌈n/b⌉ chunks |
| Content.Matching | tests/class-posts-maintenance-test.php:37-44 | a query returns the id of every post whose type and status were asked for, and no other id |
| Content.MatchingDistinct | app/admin-pages/class-posts-maintenance.php:340-354 | over a posts table with unique ids, a query never returns an id twice |
| Content.StampedExactly | app/admin-pages/class-posts-maintenance.php:380-384 | `Stamp`, the stamping loop: afterwards every listed post holds the value, every other post keeps its meta, and no other key appears |
| Content.StampConcat | tests/class-posts-maintenance-test.php:54-61 | stamping batch after batch equals stamping the concatenated list once |
| Content.StampSnoc | app/cli/class-posts-maintenance-cli.php:199-203 | one more `update_post_meta` extends the stamped list by that id |
| Content.StampNextRun | app/cli/class-posts-maintenance-cli.php:198-204 | stamping the ids of the next page after the first `done` ids extends the stamped prefix by that page |
| PostTypeArgs.Split | app/cli/class-posts-maintenance-command.php:60 | `explode(',', s)` yields at least one piece, and no piece contains a comma |
| PostTypeArgs.JoinSplit | app/cli/class-posts-maintenance-command.php:60 | `implode(',', explode(',', s)) == s` |
| PostTypeArgs.SplitJoin | app/cli/class-posts-maintenance-command.php:60 | `explode(',', implode(',', parts)) == parts` for comma-free pieces |
| PostTypeArgs.TrimStart | app/cli/class-posts-maintenance-cli.php:103 | left `trim`: a suffix of the input; everything cut is blank; the result starts with a non-blank |
| PostTypeArgs.TrimEnd | app/cli/class-posts-maintenance-cli.php:103 | right `trim`: a prefix of the input; everything cut is blank; the result ends with a non-blank |
| PostTypeArgs.TrimmedPieces | app/cli/class-posts-maintenance-cli.php:103 | cutting blanks off the start and then off the end leaves a piece of the input, with only blanks cut on either side |
| PostTypeArgs.Trim | app/cli/class-posts-maintenance-cli.php:103 | `trim`: a contiguous piece of the input with only blanks cut on either side, and no blank at either end |
| PostTypeArgs.SplitPostTypes | tests/class-posts-maintenance-test.php:29 | untrimmed `--post-types`: the default `post,page`, or the `explode` pieces, none containing a comma, whose `implode` is the argument |
| PostTypeArgs.ParsePostTypes | app/cli/class-posts-maintenance-cli.php:102-104 | trimmed `--post-types`: the default `post,page`, or one trimmed piece per `explode` piece |
| PostTypeArgs.InvalidTypes | app/cli/class-posts-maintenance-cli.php:119-120 | `array_diff`: a type is reported exactly when it was requested and is not public |
| SiteState.Cleared | app/admin-pages/class-posts-maintenance.php:249-258 | reset: status idle; no pending batch event, progress, notification or start time; last scan time, daily event and post meta kept |
| SiteState.ResetIdempotent | app/admin-pages/class-posts-maintenance.php:249-258 | resetting twice is resetting once |
| SiteState.ResetConsistent | app/cli/class-posts-maintenance-cli.php:390-399 | the reset state satisfies the engine invariant from any state |
| SiteState.Store.StampEach | app/cli/class-posts-maintenance-command.php:103-107 | the `foreach` of `update_post_meta` leaves the meta map equal to `Stamp` of the old map |
| SiteState.Store.StampRun | app/cli/class-posts-maintenance-command.php:103-107 | stamping one more page of the id list extends the stamped prefix by that page |
| Admin.ParseScanRequest | app/admin-pages/class-posts-maintenance.php:159-163 | post types default to post and page; the batch size defaults to 10 and is clamped into [1, 100] |
| Admin.AfterBatch | app/admin-pages/class-posts-maintenance.php:366-445 | every returned id is stamped with `now`. Processed becomes min(processed + k, total), and the cursor becomes offset + b. A timeout ends the scan idle with an error and no event or progress, and takes precedence. Otherwise no progress option (a reclaimed or reset scan), no posts or processed ≥ total completes the scan: last scan time now, a success notice with the clamped count (0 without progress), no event or progress. Otherwise one event is scheduled at offset + b, due now + 1. The start time and the daily event never change, and the last scan time changes only on completion; a continuing scan keeps its progress |
| Admin.Watched | app/admin-pages/class-posts-maintenance.php:194-215 | the poll changes the state exactly when the scan is running, has no progress or processed 0, started (start > 0), and started over 60 s ago. It then sets status idle, an error notice, and no progress |
| Admin.Reported | app/admin-pages/class-posts-maintenance.php:217-231 | the answer carries the status after the watchdog. `is_running` holds iff that status is running. The counts come from the progress read before the watchdog, or 0 and 0. The percentage is 0 unless the total is positive, and then equals processed·100/total |
| Admin.WithoutNotice | app/admin-pages/class-posts-maintenance.php:284 | clearing the notification deletes it and changes nothing else |
| Admin.DailyScheduled | app/admin-pages/class-posts-maintenance.php:452-456 | a daily event exists afterwards; an existing one is kept, and a missing one is created at now |
| Admin.PostsMaintenance.AjaxScanPosts | app/admin-pages/class-posts-maintenance.php:147-173 | the handler starts a new scan from the parsed and clamped request, whatever the current status |
| Admin.PostsMaintenance.StartBackgroundScan | app/admin-pages/class-posts-maintenance.php:301-332 | the new state is `Started`: status running, start time now, notification deleted. Progress {0, total of published posts, 0, types}. Exactly one pending batch event, at offset 0, due now |
| Admin.PostsMaintenance.ProcessPostsBatch | app/admin-pages/class-posts-maintenance.php:363-446 | with or without a progress option, the handler's new state is `AfterBatch` of the old one, applied to the page the query returns at `offset` |
| Admin.PostsMaintenance.AjaxGetScanProgress | app/admin-pages/class-posts-maintenance.php:178-232 | the handler's new state is `Watched`, and its answer is `Reported`, both of the old state |
| Admin.PostsMaintenance.AjaxResetScanStatus | app/admin-pages/class-posts-maintenance.php:237-266 | the handler's new state is `Cleared` of the old one |
| Admin.PostsMaintenance.AjaxClearNotification | app/admin-pages/class-posts-maintenance.php:271-291 | the handler's new state is `WithoutNotice` of the old one |
| Admin.PostsMaintenance.ScheduleDailyScan | app/admin-pages/class-posts-maintenance.php:452-456 | the handler's new state is `DailyScheduled` of the old one |
| Admin.PostsMaintenance.RunDailyScan | app/admin-pages/class-posts-maintenance.php:461-466 | the daily hook starts a scan with the stored post types and batch size (defaults post, page and 10), unclamped |
| Admin.StartIgnoresPriorScan | app/admin-pages/class-posts-maintenance.php:166 | the state after a start does not depend on the earlier status, progress, notification, start time or pending event: there is no single-flight refusal |
| Admin.StartConsistent | app/admin-pages/class-posts-maintenance.php:301-332 | a started scan satisfies the invariant |
| Admin.WatchdogConsistent | app/admin-pages/class-posts-maintenance.php:194-215 | the poll preserves the invariant |
| Admin.WatchdogSparesProgress | app/admin-pages/class-posts-maintenance.php:196 | a running scan that has stamped a post is never reclaimed by the poll |
| Admin.WatchdogKeepsPendingEvent | app/admin-pages/class-posts-maintenance.php:199-213 | a reclaimed scan is idle, but its batch event stays scheduled |
| Admin.ClearNoticeConsistent | app/admin-pages/class-posts-maintenance.php:284 | clearing the notification preserves the invariant |
| Admin.DailyScheduleIdempotent | app/admin-pages/class-posts-maintenance.php:453 | scheduling the daily event twice is scheduling it once |
| Lifecycle.FireConsistent | app/admin-pages/class-posts-maintenance.php:363-446 | `Fire`, cron running the due batch event, preserves the invariant, whatever the posts table now holds |
| Lifecycle.FireAdvances | app/admin-pages/class-posts-maintenance.php:387-396 | while a scan keeps running, processed never decreases and stays ≤ total. The total is fixed, and the next event's offset is exactly one batch further on, with the same batch size, due one second after this batch |
| Lifecycle.NotDueNoChange | app/admin-pages/class-posts-maintenance.php:443-445 | a cron tick before the pending event is due (it is scheduled at `time() + 1`), or with no event pending, changes nothing |
| Lifecycle.ReclaimedEventCompletes | app/admin-pages/class-posts-maintenance.php:199-213 | after the watchdog reclaims a stalled scan (idle, error notice), the event it left scheduled still runs once due and completes the scan, replacing the error with a success notice reporting 0 posts |
| Lifecycle.RunConcat | app/admin-pages/class-posts-maintenance.php:443-445 | `Run`, cron ticking at each of a list of times: ticking through one list and then another is ticking through both in turn |
| Lifecycle.RunStops | app/admin-pages/class-posts-maintenance.php:437-441 | once no batch event is pending (after completion, a timeout or a reset, each of which deletes it), further cron ticks change nothing |
| Lifecycle.ScanningStep | app/admin-pages/class-posts-maintenance.php:443-445 | a due batch, inside the timeout, whose page is full and short of the total stamps its page at its time and schedules the next batch one page further, due one second later |
| Lifecycle.ScanningLast | app/admin-pages/class-posts-maintenance.php:420-441 | the due batch that reaches the total, or that finds an empty table, completes the scan: its page stamped, last scan time and notice at its time, no event or progress |
| Lifecycle.ScanCompletes | app/admin-pages/class-posts-maintenance.php:420-445 | over an unchanged table of n published posts, with cron firing each batch no earlier than it is due and within 300 s of the start, the scan is still running after each of the first max(1, ⌈n/b⌉) − 1 batches and has completed after max(1, ⌈n/b⌉): each page stamped with its own batch's time, the notice reporting n, the last scan time that of the last batch. Such firing times exist only for at most 301 batches (`OnScheduleBound`), so this covers n ≤ 301·b |
| Lifecycle.OnScheduleBound | app/admin-pages/class-posts-maintenance.php:401-402 | with each batch due one second after the one before and all within 300 s of the start, at most 301 batches fire |
| Lifecycle.ScanningTimesOut | app/admin-pages/class-posts-maintenance.php:401-416 | a due batch that fires more than 300 s after a non-zero start time ends the scan idle, with the timeout error, no event and no progress |
| Lifecycle.ScanTimesOut | app/admin-pages/class-posts-maintenance.php:401-416 | a scan whose batches ran on schedule without reaching its last batch, and whose next due batch fires more than 300 s after the start, ends idle with the timeout error at that time, no event and no progress |
| Lifecycle.LargeScanTimesOut | app/admin-pages/class-posts-maintenance.php:401-445 | a scan needing more than 301 batches (n > 301·b) times out even when cron fires every batch as soon as it is due: after as many ticks as it has batches it is idle, with no event, no progress and the timeout error of the first tick past 300 s |
| Lifecycle.BatchStampsAt | app/admin-pages/class-posts-maintenance.php:380-384 | with unique ids, post i of batch j keeps the time of batch j once every batch has run: later batches never overwrite it |
| Lifecycle.EachPostStampedAtItsBatch | app/admin-pages/class-posts-maintenance.php:366-384 | after a completed scan over a table with unique ids, post j·b + i carries the time at which batch j ran |
| Lifecycle.TwentyFivePostsTakeThreeBatches | app/admin-pages/class-posts-maintenance.php:420-421 | 25 posts at batch size 10, fired on schedule, are still running after two batches and complete on the third, reporting 25 |
| Cli.Validate | app/cli/class-posts-maintenance-cli.php:100-124 | the batch size is checked first and must lie in [1, 100]. Then the trimmed types must be public, and the error names exactly the non-public ones. Validation passes iff both hold |
| Cli.FullPagesReachTotal | app/cli/class-posts-maintenance-cli.php:167 | a loop ending on `processed == total` after full pages reports all n posts and ⌈n/b⌉ batches: the closed forms `PagedProcessed` and `PagedBatches` |
| Cli.ShortPageEndsRun | app/cli/class-posts-maintenance-cli.php:216-219 | a loop ending on a short page reports all n posts and ⌈n/b⌉ batches in `PagedProcessed` and `PagedBatches` |
| Cli.CapEndsRun | app/cli/class-posts-maintenance-cli.php:171-173 | over more than 1000·b posts the loop stops at the cap, reporting 1000·b posts and 1001 batches in `PagedProcessed` and `PagedBatches` |
| Cli.PostsMaintenanceCli.Scan | app/cli/class-posts-maintenance-cli.php:100-149 | validation errors and the zero-total warning write nothing. Otherwise the result reports min(n, 1000·b) posts and the loop's batch count (≥ 1, so the average is defined). A dry run writes nothing; a live run stamps exactly the first min(n, 1000·b) posts |
| Cli.PostsMaintenanceCli.ExecuteScan | app/cli/class-posts-maintenance-cli.php:159-235 | pages 1, 2, … until the total is reached, a page is short or empty, or the 1001st batch starts. Processed is min(n, 1000·b), and exactly those first posts are stamped. The batch count is ⌈n/b⌉, or 1001 when the cap stops the loop |
| Cli.PostsMaintenanceCli.DryRunScan | app/cli/class-posts-maintenance-cli.php:245-322 | the same counters as the live loop, without touching post meta |
| Cli.PostsMaintenanceCli.Reset | app/cli/class-posts-maintenance-cli.php:383-402 | a confirmed reset leaves `Cleared` of the old state, the same state as the admin reset; a declined one changes nothing |
| Command.Validate | app/cli/class-posts-maintenance-command.php:59-75 | the untrimmed types are checked first, and the error names exactly the non-public ones. Then the batch size must lie in [1, 100]. Validation passes iff both hold |
| Command.SamplePosts | app/cli/class-posts-maintenance-command.php:164-187 | the dry-run sample is the first min(n, b) published posts from offset 0, each with its stored stamp or none |
| Command.ScannedBound | app/cli/class-posts-maintenance-command.php:254-270 | the distinct stamped posts number at most the posts queried, and exactly that many when the ids are distinct and all stamped |
| Command.ScannedSnoc | app/cli/class-posts-maintenance-command.php:254-270 | listing one more post adds it to the stamped set exactly when it carries a stamp |
| Command.PercentagesSum | app/cli/class-posts-maintenance-command.php:236-237 | the scanned and unscanned percentages add up to 100 |
| Command.ScanStats | app/cli/class-posts-maintenance-command.php:207-246 | non-public types are an error naming exactly those types; no published posts is the warning. Otherwise total = n > 0, scanned = distinct stamped published posts, and unscanned = total − scanned ≥ 0 |
| Command.ValidationOrderDiffers | app/cli/class-posts-maintenance-command.php:64-75 | with an unknown type and batch size 0, this command reports the type while `scan` reports the batch size |
| Command.SpacedTypeDiffers | app/cli/class-posts-maintenance-command.php:60-70 | a public type written after a space (`post, page`) is an unknown type to `scan-posts`, but that same type to `scan` |
| Command.PostsMaintenanceCommand.ScanPosts | app/cli/class-posts-maintenance-command.php:59-117 | validation errors and the zero-total warning write nothing, and a dry run shows the sample without writing. A live run reports n and stamps every published post |
| Command.PostsMaintenanceCommand.ProcessAll | app/cli/class-posts-maintenance-command.php:94-116 | offsets 0, b, 2b, … below the total: exactly ⌈n/b⌉ queries, n posts processed, and every published post stamped |
| Command.StatsAfterFullScan | app/cli/class-posts-maintenance-command.php:227 | after a live `scan-posts` over a table with unique ids, `scan-stats` for the same types reports every post scanned and none unscanned |
| TestDouble.PostsMaintenanceCli.Scan | tests/class-posts-maintenance-test.php:27-62 | without a dry run, every id of the requested types with any listed status gets the one `current_time('mysql')` value, whatever the batch size, and all other meta is kept. A dry run, or an empty list, writes nothing |
| TestDouble.PostsMaintenanceCli.StampBatches | tests/class-posts-maintenance-test.php:54-61 | the outer `foreach` over the chunks stamps their concatenation, or nothing on a dry run |
| TestDouble.PostsMaintenanceCli.StampBatch | tests/class-posts-maintenance-test.php:55-59 | the inner `foreach` stamps every id of one chunk, or nothing on a dry run |

## Left out

- The Google Drive pages and REST endpoints, the React and jQuery admin UI, the
  admin page HTML, menu registration and asset loading are not part of this
  model.
- Nonce and capability checks, `wp_send_json_*`, `wp_die`, WP-CLI progress
  bars, log lines and exit codes are transport. The model returns the outcome
  instead.
- `time()`, `microtime()` and `current_time('mysql')` are parameters. One call
  of a handler or command sees one value of `now`, although the code reads the
  clock several times.
- WP-cron is one pending-event slot and one daily slot. `Lifecycle.Run` takes
  the times at which cron ticks as input; a tick before the pending event is due
  runs nothing. The page loads that trigger cron and `spawn_cron` are not
  modelled. Neither is concurrency between a manual start, the daily start, an
  in-flight batch and a poll.
- `WP_Query` and `get_posts` are filters over a fixed sequence of posts in
  query order. The admin engine and `scan-posts` use WordPress's default
  order, while `posts scan` orders by ID. The model does not tell these orders
  apart: each caller's `catalog` is taken in its own query order.
- Admin.PostsMaintenance.ProcessPostsBatch: the progress written part-way
  through the batch (`app/admin-pages/class-posts-maintenance.php:396`) is not
  a separate state; the model gives the state at the end of the call, where a
  timeout or completion has deleted it again.
- Admin.PostsMaintenance.RunDailyScan: a stored batch size outside [1, 100] is
  passed on unclamped. The batches that would then run with a size below 1 are
  not modelled: `ProcessPostsBatch` requires a size of at least 1, and
  `Lifecycle.Tick` never fires such an event.
- Admin.Reported: the float percentage is a `real`. PHP float rounding and
  integer division are not modelled.
- Cli.PostsMaintenanceCli.Scan: the average is a `real` quotient, without the
  two-decimal rounding. The total run time is not modelled.
- Command.ScanStats: the percentages are `real` quotients, without the
  one-decimal formatting. The date distribution query (`get_scan_dates`) and the
  SQL text are not modelled.
- Command.SamplePosts: each sample line shows the post id and its stored stamp
  or none. The title and type columns, and the formatting of the date, are not
  modelled.
- Post meta values are `Epoch(seconds)` for `time()` and `DateTime(text)` for
  `current_time('mysql')`. The MySQL date format itself is not modelled.
- Cli.PostsMaintenanceCli.Reset: the interactive `WP_CLI::confirm` prompt is a
  boolean input. A declined prompt ends the command with no change.
