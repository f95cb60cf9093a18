# par2guard job engine, modelled in Dafny

par2guard is a GTK front end to the `par2` command-line tool. At its core is
`Runner`, a sequential job queue. It launches one `par2` process at a time,
streams and filters its output into the log pane and keeps a trailing window
of that output. It classifies each finished job by its exit code and that
window, tallies the job's label per category, and posts an end-of-batch
summary for verify and repair batches. Around the runner sit a few pure
helpers: the PAR2 set key of a file name, the archive base name of a folder
(with the `DISC_RE` pattern), the de-duplicating `FileList.add_paths` and the
block-size normalisation of the create tab.

The project models these parts of `par2guard.py`:

| file | module | models |
|---|---|---|
| `wrappers.dfy` | `Wrappers` | `Option` |
| `text.dfy` | `Text` | the parts of Python's `str` used: `isspace`, `strip`, ASCII `lower`, `startswith`/`endswith`, `in`, `"".join`, integer rendering in f-strings and its inverse |
| `classifier.dfy` | `Classifier` | `Runner._summarize_one`: modes, categories, completion messages and the decision table |
| `output_filter.dfy` | `OutputFilter` | the worker closures `keep_tail`, `should_show` and `flush`; class `JobOutput` holds the worker's `tail`/`buf` state; `StreamOutput` is the read loop |
| `summary.dfy` | `Summary` | `_results` as a datatype and `Runner._format_summary`, both as a specification (`SummaryLines`) and as the method that builds the list of lines step by step |
| `runner.dfy` | `Runner` | class `Runner`: `run_many`, `run_one`, `cancel`, `_kick`, `is_running` and the worker's `finally` bookkeeping; every `GLib.idle_add` call is an event appended to the `log` field |
| `batch.dfy` | `Batch` | the worker thread from launch to `finally`; a whole batch driven to its end; cancellation under a running job and while idle |
| `naming.dfy` | `Naming` | `par2_set_key_from_filename`, `DISC_RE` as a hand-written matcher proved equal to the pattern's meaning, and `derive_archive_base` |
| `file_list.dfy` | `FileList` | `FileList.paths` and `FileList.add_paths` over a sequence of rows |
| `block_size.dfy` | `BlockSize` | `CreateTab._get_blocksize_bytes` and the block-size rounding in `CreateTab._on_create` |

What the runner posts is modelled as values:
- `on_text` text is a string.
- `on_state` gets a status string or idle.
- `on_done_msg` gets a `Note`: a job's completion `Message`, or a batch summary with its mode, count and result lists.

`MessageText`, `NoteText` and `SummaryText` give the exact strings the source posts. Summaries are stated line by line through `SummaryLines`.

### Behaviour of the code worth noting
- The trailing window deletes the oldest 60 lines once it holds more than 300, so it then keeps 241 lines. `TailOfIsSuffix` and `TailLength` give its exact length after N lines.
- `completed` can exceed `total` by one. `cancel` zeroes both counters while a job is still in flight, and that job's completion then makes `completed` one more than `total`. The same happens in `run_many` while a job runs.
  - `Runner.Runner.Valid` states the invariant that does hold: `total <= completed + |queue| + 1 <= total + 1`.
  - `Batch.CancelledRunReportsOne` shows the summary of a verify batch cancelled under its only job reporting "Checked: 1 items".
- `cancel` on an idle runner is not a no-op: it sets `_cancel_requested`. The next `_kick` clears the flag again, so the flag cannot be observed once a non-empty batch starts. `Batch.CancelWhenIdle` proves that the runner then stands exactly where an uncancelled one stands. A `run_many([])` after the cancel changes nothing, so the flag stays set until the next non-empty batch.
- `run_many` while a batch runs only appends the new jobs to the queue. It sets the total to the new queue length, resets `completed` to 0, replaces the six result lists with empty ones and takes the batch mode from the first new job. So the labels of the running batch's completed jobs are dropped from the final summary, and the job in flight and the jobs queued earlier are counted under the new batch's mode and wording. `Runner.Runner.RunMany` states this.

### Representation choices
- Python's `str.lower()` is modelled on ASCII letters. Only U+0130 and U+212A lower to something containing an ASCII letter, and no marker the classifier searches for, nor ".par2", can be produced that way.
- `str.isspace`, regex `\s` and `\d` are written out from their Unicode tables.
- `re.IGNORECASE` for the letters of "disc", "disk" and "cd" includes the non-ASCII characters Python's case folding groups with them.
- A folder path is the sequence of its component names.
- A string-typed `mode` is a datatype `Mode`, with `Other(name)` for the source's fallbacks such as "Working" and "Running". `Classifier.Canonical` marks the modes a string can denote (no `Other("verify")`). The contracts about jobs hold for every `Mode`, canonical or not.
- The empty classification key "" is `None`, and `_batch_mode == ""` is `None`.
- `_results` starts as `{}` in `__init__` and as six empty lists after `run_many`. The model uses the six empty lists from the start. This cannot be observed, because `.get(key, [])` reads both alike and nothing is appended before `run_many`.

## Model

| member | source | states |
|---|---|---|
| Text.StripEmptyIff | par2guard.py:415-417 | `line.strip()` is empty exactly when every character of the line is whitespace |
| Text.TrimStartSpec | par2guard.py:415 | `strip` removes a whitespace-only prefix and stops at the first non-whitespace character |
| Text.TrimEndSpec | par2guard.py:415 | `strip` removes a whitespace-only suffix and stops at the last non-whitespace character |
| Text.ContainsIff | par2guard.py:511 | the recursive `t in s` holds exactly when `t` occurs at some position of `s` |
| Text.ContainsWithin | par2guard.py:533 | an occurrence of a marker survives text added before and after it |
| Text.Lower | par2guard.py:533 | lower-casing keeps the length and maps each character on its own |
| Text.LowerAppend | par2guard.py:533 | lower-casing distributes over concatenation |
| Text.ConcatAppend | par2guard.py:443 | `"".join` of two lists is the concatenation of their joins |
| Text.NatToStringRoundTrip | par2guard.py:577-581 | a rendered count is a non-empty digit string that parses back to the count |
| Text.NatToStringInjective | par2guard.py:577-581 | different counts render differently |
| Classifier.ModeOf | par2guard.py:549-566 | reading a `mode` string is inverted by `ModeName`, recognises exactly "create", "verify" and "repair", and never yields `Other` of one of those names |
| Classifier.ModeRoundTrip | par2guard.py:549-566 | naming a mode and reading the name back gives the mode again, exactly for the modes a string can denote |
| Classifier.CategoryModeIsKeyPrefix | par2guard.py:313-320 | each of the six result keys starts with its kind's `mode` name and "_", and only verify and repair own keys |
| Classifier.FailedCategory | par2guard.py:512-526 | a failed job is filed as `verify_failed` for verify, `repair_failed` for repair, and nowhere for any other mode |
| Classifier.SummarizeOne | par2guard.py:497-566 | a job is filed only under its own kind; a verify or repair job is filed unless it was cancelled without a launch error; it counts as failed exactly on a launch error or an uncancelled non-zero exit other than verify's exit 1 |
| Classifier.LaunchErrorFirst | par2guard.py:510-527 | a launch error beats cancel, exit code and output: "not found" in any case gives the install advice, any other error is reported as "Error: " + error, and the job is a failure of its kind |
| Classifier.CancelSecond | par2guard.py:529-531 | with no launch error, a pending cancel gives "Cancelled." and no category, whatever the exit code and output |
| Classifier.VerifyExitOne | par2guard.py:536-540 | verify's exit code 1 is need-repair exactly when the lower-cased tail contains "repair is required" or "missing", and ok otherwise; the message is "Verification complete. Repair is required." for need-repair and "Verification complete." otherwise |
| Classifier.NonZeroExitFails | par2guard.py:542-547 | every other non-zero exit code gives the "Operation failed (exit code N)" message and the failure category of its kind |
| Classifier.CreateExitZero | par2guard.py:549-550 | a create job exiting 0 succeeds with no category |
| Classifier.VerifyExitZero | par2guard.py:552-557 | verify exit 0: need-repair exactly on one of its three markers, ok otherwise; the all-correct message only when no need-repair marker is present and an all-correct marker is |
| Classifier.RepairExitZero | par2guard.py:559-564 | repair exit 0: not-required, with "Repair not required.", exactly when "repair is not required" occurs; repaired otherwise, with "Repair completed successfully." exactly when "repair complete" or "repair is complete" occurs and the generic "Repair complete." when neither does |
| Classifier.JoinedWithin | par2guard.py:533 | a marker found in the joined tail is still found when more lines surround it |
| Classifier.NeedRepairStable | par2guard.py:533-557 | a need-repair verdict for verify is kept when more output surrounds the same lines |
| Classifier.VerifyExitCodesAgree | par2guard.py:536-557 | verify's exit codes 0 and 1 give the same category except when "file not found" is the only need-repair marker |
| OutputFilter.ShouldShowSpec | par2guard.py:408-434 | verbose shows every line; quiet mode hides whitespace-only lines and otherwise shows a line exactly when its stripped text starts with one of the twelve prefixes |
| OutputFilter.Shown | par2guard.py:468-471 | the shown lines are never more than the lines read |
| OutputFilter.ShownStep | par2guard.py:470-471 | one more line extends the shown lines by that line exactly when `should_show` accepts it |
| OutputFilter.TailLength | par2guard.py:403-406 | the window holds at most 300 lines, at most the lines seen, and at least min(N, 241) of the N seen |
| OutputFilter.TailLengthStep | par2guard.py:403-406 | one more line grows the window by one, or by one less 60 when it then exceeds 300 |
| OutputFilter.KeepTailSuffix | par2guard.py:403-406 | `keep_tail` turns a window ending at line m into a suffix ending at line m + 1 |
| OutputFilter.TailOfIsSuffix | par2guard.py:403-406 | after every `keep_tail` the window is exactly the last `TailLength(N)` lines seen, contiguous and in order |
| OutputFilter.TailBounds | par2guard.py:403-406 | the window is a contiguous suffix of the lines seen, of length at most 300 and at least min(N, 241) |
| OutputFilter.KeepTailOverflow | par2guard.py:405-406 | overflowing a full window deletes exactly its oldest 60 lines and keeps 241 |
| OutputFilter.JobOutput.constructor | par2guard.py:399-401 | the worker starts with an empty window, buffer and posted text |
| OutputFilter.JobOutput.KeepTail | par2guard.py:403-406 | the window takes one `keep_tail` step and nothing else changes |
| OutputFilter.JobOutput.Flush | par2guard.py:436-446 | an empty buffer posts nothing; otherwise the whole buffer is posted as one chunk and cleared when forced, at 60 lines or when the time is up, and left alone otherwise; together the posted chunks and the buffer are always exactly the shown lines |
| OutputFilter.JobOutput.FeedLine | par2guard.py:436-472 | each line joins the window and joins the buffer exactly when shown; the buffer is then posted as one chunk and emptied exactly when it is non-empty and holds 60 lines or the time is up, and is otherwise kept with nothing posted; the invariant between window, buffer and posted text is kept |
| OutputFilter.JobOutput.FeedAll | par2guard.py:468-472 | after the read loop, the window and the shown lines are those of all the lines read, and the chunks posted before are still there, in front |
| OutputFilter.JobOutput.Finish | par2guard.py:474-475 | the forced flush after exit posts the buffer as one final chunk, or nothing when it is empty, leaving every shown line posted exactly once and in order |
| OutputFilter.StreamOutput | par2guard.py:467-475 | the window handed to the classifier is `TailOf(lines)`, and the chunks posted join to exactly the shown lines |
| Summary.Results.Add | par2guard.py:488-489 | appending a label extends its category's list by that label and leaves the other five lists alone |
| Summary.Bullets | par2guard.py:585-591 | one line "- label\n" per label, in list order |
| Summary.AppendBullets | par2guard.py:585-586 | the append loop adds exactly the bullet lines of the labels |
| Summary.BuildLayout | par2guard.py:575-593 | the lines appended step by step are the specified summary layout |
| Summary.FormatSummary | par2guard.py:568-619 | the verify wording and lists for a verify batch, the repair ones for any other mode, joined into one text |
| Summary.ReadCountRoundTrip | par2guard.py:577-581 | a count line reads back as its count |
| Summary.LayoutHead | par2guard.py:576-581 | the second to fifth lines are the total and count lines, the fifth only when something failed |
| Summary.LayoutCounts | par2guard.py:577-581 | the total line reads back as the number of completed jobs and each count line as the length of its list |
| Summary.VerifyWordingKeepsFailedApart | par2guard.py:576-593 | no fixed line of the verify wording can be taken for the failed count or the failed title |
| Summary.RepairWordingKeepsFailedApart | par2guard.py:601-618 | no fixed line of the repair wording can be taken for the failed count or the failed title |
| Summary.BulletsApart | par2guard.py:586 | a label line is never a failed count or the failed title, whatever the label |
| Summary.LayoutFailedIff | par2guard.py:580-591 | a "Failed:" line appears exactly when the failed list is non-empty, and so does the "Failed items" section |
| Summary.NothingFailedApart | par2guard.py:580-591 | without failures no line starts with "Failed: " or is the failed title |
| Summary.LayoutLists | par2guard.py:583-593 | after the count lines come the items title and one line per itemised label in order, then the failed title and one line per failed label, then the closing rule |
| Summary.VerifySummary | par2guard.py:570-594 | the verify summary's counts read back as the total and the list lengths, failures show exactly when a verify job failed, and the items requiring repair are listed in order |
| Summary.RepairSummary | par2guard.py:596-619 | the repair summary (any mode but verify) counts and lists likewise, for repaired, not required and failed |
| Runner.StartEvents | par2guard.py:368-374 | `_kick` posts the label line only for a labelled job, and always ends with a busy status |
| Runner.FinishEvents | par2guard.py:388-392 | a drained queue posts a summary exactly when some job completed and the batch is verify or repair, then always idle |
| Runner.Record | par2guard.py:488-489 | a job with a category has its label appended to that category's list only; a job without one changes nothing |
| Runner.TextEvents | par2guard.py:446 | one `on_text` event per posted chunk, in order |
| Runner.NoDonesInStart | par2guard.py:368-374 | starting a job posts no completion message |
| Runner.Runner.constructor | par2guard.py:264-273 | a new runner is idle, with an empty queue, zero counters, no batch mode and an empty log |
| Runner.Runner.IsRunning | par2guard.py:275-278 | a runner with no job in flight has an empty queue and zero counters |
| Runner.Runner.Cancel | par2guard.py:286-291 | `cancel` empties the queue, zeroes both counters and sets the flag; the job in flight, the batch mode, the lists and the log are unchanged |
| Runner.Runner.Kick | par2guard.py:345-392 | busy: nothing changes; queued jobs: the head is popped (FIFO), the flag cleared and the start events posted; empty queue: mode and counters reset and the finish events posted |
| Runner.Runner.RunMany | par2guard.py:300-333 | an empty batch changes nothing; otherwise the queue is extended, total is the queue length, completed 0, the mode the first job's, the six lists empty, the banner posted and the queue kicked |
| Runner.Runner.RunOne | par2guard.py:335-343 | a batch of one job, labelled with its mode's name when no label is given |
| Runner.Runner.PostOutput | par2guard.py:446 | each flushed chunk is appended to the log as an `on_text` event |
| Runner.Runner.RecordOutcome | par2guard.py:480-492 | the job is classified with the flag as it stands, completed grows by one, its label joins its category's list, and its message and idle are posted |
| Runner.Runner.CompleteJob | par2guard.py:480-493 | `RecordOutcome` followed by `_kick`: the next job starts with completed one higher, or the batch finishes with the new lists |
| Batch.Work | par2guard.py:448-478 | a launched job returns its exit code, its `TailOf` window and chunks joining to its shown lines; a failed launch keeps `rc = 1`, an empty window and the error text |
| Batch.Classify | par2guard.py:484 | an uncancelled job is filed exactly when it is verify or repair, and under its own kind |
| Batch.Outcomes | par2guard.py:484 | one outcome per job, and job i's outcome is the classification of its own launch |
| Batch.JobMessages | par2guard.py:491 | one completion message per job, and the i-th message is job i's |
| Batch.Worker | par2guard.py:398-493 | the log grows by the job's chunks, its message and idle, then the next job's start events or the finish events; the lists and counters move on as in `CompleteJob` |
| Batch.DonesOfRun | par2guard.py:491-493 | a job's run adds exactly its own completion message to the log's messages |
| Batch.DonesOfFinish | par2guard.py:388-392 | a drained queue adds the summary message exactly when some job completed in a verify or repair batch |
| Batch.DonesOfOpening | par2guard.py:329-374 | the banner and the first job's start post no completion message |
| Batch.DriveBatch | par2guard.py:300-493 | a batch run to its end posts exactly one completion message per job, in job order, followed by one summary exactly when it is a verify or repair batch; the log opens with the banner and ends idle |
| Batch.StartBatch | par2guard.py:300-377 | `run_many` on an idle runner starts the first job with nothing completed |
| Batch.NextJob | par2guard.py:480-493 | job i completes and job i + 1 starts, with the messages and lists of the first i + 1 jobs |
| Batch.RunThenStartDones | par2guard.py:491-493 | a completion followed by the next job's start adds only that job's message |
| Batch.LastJob | par2guard.py:379-392 | the last completion drains the queue and posts the batch summary after all the job messages |
| Batch.RecordCount | par2guard.py:486-489 | recording a label raises the count of its category's kind by one and no other |
| Batch.OutcomesFiled | par2guard.py:510-566 | every job of a verify (or repair) batch run without cancel is filed under one of its kind's categories |
| Batch.UniformTally | par2guard.py:486-489 | when every job is filed under mode m, m's three lists hold one label per job and the other mode's lists are empty |
| Batch.TallyPrefix | par2guard.py:488-489 | labels are only appended: the lists after the first i jobs are prefixes of the final lists |
| Batch.TallyStep | par2guard.py:486-489 | the lists after job i are those before it with job i recorded |
| Batch.TallyPlaces | par2guard.py:488-489 | job i's label sits in its category's list just after the earlier jobs' labels of that category, so the lists keep completion order |
| Batch.BatchAddsUp | par2guard.py:388-389 | a verify (or repair) batch run to its end gets a summary whose total is the number of jobs, and the three counts of its kind add up to that total |
| Batch.CancelledRunReportsOne | par2guard.py:529-531 | a batch cancelled under its running job reports "Cancelled." untallied, yet summarises one completed job although `cancel` zeroed the total |
| Batch.CancelDuringFirstJob | par2guard.py:286-291 | `cancel` under the first job drops the queue; the job's message and the one-job summary are the only messages |
| Batch.FinishCancelled | par2guard.py:480-493 | the in-flight job of a cancelled batch completes with the flag pending, and the batch finishes |
| Batch.StartThenCancel | par2guard.py:286-333 | `run_many` then `cancel`: the first job runs with the flag set, nothing queued and both counters zero |
| Batch.CancelWhenIdle | par2guard.py:286-356 | on any idle runner, fresh or after finished batches, `cancel` then a non-empty `run_many` leaves exactly the state `run_many` alone leaves, with the first job running and the flag clear |
| Batch.CancelOnNewRunner | par2guard.py:264-356 | the same for two new runners |
| Naming.BeforeFirstSpec | par2guard.py:186 | `split(".vol", 1)[0]` is a prefix in which the separator does not start, followed by the separator unless it is the whole string |
| Naming.SplitAtFirst | par2guard.py:186 | with the first separator at k, the split keeps exactly the first k characters |
| Naming.SplitWithout | par2guard.py:186 | with no separator, the split keeps the whole string |
| Naming.SetKeyGroupsVolumes | par2guard.py:177-186 | `base.par2` and every `base.vol…par2`, in any case of the extension, get the key `base` |
| Naming.DiscMatchSound | par2guard.py:62-65 | what the matcher accepts, `^(disc\|disk\|cd)\s*\d+$` with IGNORECASE matches |
| Naming.DiscMatchComplete | par2guard.py:62-65 | what the pattern matches, the matcher accepts |
| Naming.DiscMatchIff | par2guard.py:62-65 | the matcher accepts exactly the names the pattern matches |
| Naming.DiscNameExample | par2guard.py:62-65 | "Disc 2" is a disc name |
| Naming.DiscNameNewlineExample | par2guard.py:62-65 | `$` also matches before a final newline: "cd12\n" is a disc name |
| Naming.NotDiscNameExample | par2guard.py:62-65 | "Disc 2 extras" is not a disc name |
| Naming.DiscTwoScan | par2guard.py:62-65 | on a name that is "Disc 2" or starts with "Disc 2 " (a space after the digit), the matcher reads the word "Disc", one space and the one digit "2" |
| Naming.DeriveArchiveBase | par2guard.py:82-99 | the user's base for a single folder; otherwise "parent - name" for a disc folder with a named parent, else the folder's name |
| Naming.DiscFolderExample | par2guard.py:90-97 | a disc folder is prefixed by its parent's name unless a user base applies to a single folder |
| Naming.DiscFolderUnder | par2guard.py:90-97 | any folder "Disc 2" with a named parent gets "parent - Disc 2", unless a user base applies to a single folder |
| Naming.OtherFolderExample | par2guard.py:93-99 | other folders, and a disc folder with no parent, keep their own name |
| FileList.FreshMembers | par2guard.py:675-681 | a path is appended exactly when it is non-empty, not already present and among those given |
| FileList.FreshNoDup | par2guard.py:675-681 | no path is appended twice |
| FileList.FreshAppend | par2guard.py:675-681 | adding a then b appends what adding a + b at once appends |
| FileList.FreshOfSeen | par2guard.py:679 | nothing is appended when every path given is empty or already present |
| FileList.FileList.constructor | par2guard.py:632 | a new list is empty |
| FileList.FileList.AddPaths | par2guard.py:675-681 | the rows become the old rows followed by the new non-empty paths not seen before, each at its first occurrence |
| FileList.AddPathsKeepsUnique | par2guard.py:675-681 | rows without duplicates or empty paths stay so |
| FileList.AddPathsIdempotent | par2guard.py:675-681 | adding the same paths a second time appends nothing |
| FileList.AddPathsTwice | par2guard.py:675-681 | two additions in turn leave the rows of one addition of both lists |
| BlockSize.Clamp | par2guard.py:759 | the spin button keeps its value within 1 to 1 GiB, and leaves values in range alone |
| BlockSize.BlockSizeOfSpec | par2guard.py:898-913 | only "Auto" (or no active label) leaves the size to par2; the presets are multiples of 4 within range; any other label reads the spin button |
| BlockSize.AlignDown | par2guard.py:944-945 | `bs - bs % 4` is a multiple of 4 at most 3 below `bs` |
| BlockSize.AlignDownIsLargest | par2guard.py:944-945 | it is the largest multiple of 4 not above `bs`, and an aligned size is left alone |
| BlockSize.AdjustNotice | par2guard.py:946-949 | the notice opens with "Block size adjusted from " and closes with " bytes (must be divisible by 4).\n" |
| BlockSize.PairRoundTrip | par2guard.py:947 | "<old> to <new>" reads back as the two sizes |
| BlockSize.NoticeRoundTrip | par2guard.py:946-949 | the notice reports both sizes: the old size and the rounded one read back from it unchanged |
| BlockSize.AdjustLog | par2guard.py:942-950 | a notice is logged exactly when the size is not left to par2 and not divisible by 4; it is then a single line reporting the chosen size and `bs - bs % 4` |
| BlockSize.TinyBlockSizeStaysUnaligned | par2guard.py:941-989 | as written, a custom size of 1 to 3 bytes is handed to par2 as "-s1": the size handed over is not a multiple of 4 |
| BlockSize.Normalize | par2guard.py:944-945 | the corrected rounding is a multiple of 4 and at least 4, and equals `bs - bs % 4` from 4 up |
| BlockSize.BlockSizeArgAligned | par2guard.py:941-989 | with the corrected rounding, a size handed to par2 is always a multiple of 4 within the spin range, "Auto" still gives no size, and an aligned choice is passed unchanged |
| BlockSize.BlockSizeArgAgrees | par2guard.py:941-989 | the correction changes nothing for custom sizes of 4 bytes or more |

## Left out

- The real process: `subprocess.Popen`, `which()`, the `SIGINT` sent by `cancel`, the worker thread, the lock and `daemon` threads. A job in flight is `Runner.current`, and what its process produced is a `Launch` value: output lines, exit code, or a launch error. The window between popping a job in `_kick` and assigning `_proc` in the worker is a concurrency matter and is not modelled.
- The 0.12 s flush timer is a boolean per line (`timeUp`). `time.time()` and floating point are not modelled.
- An exception raised after the process started is not modelled. Its output would not get the final forced flush. Every `Launch` either fails at launch, with `rc = 1` and an empty window, or runs to completion.
- `is_verbose()` is a boolean per line, supplied with the launch.
- `Runner.Runner.IsRunning`: `_proc.poll()` is not modelled; "running" means a job is in flight.
- `GLib.idle_add` ordering is modelled as the order of the calls. The main loop that delivers the events is not modelled.
- The GTK widgets are not modelled: `LogPane`, the `FileList` widget's buttons and removal, `CreateTab`/`VerifyRepairTab`, dialogs and `MainWindow`. The block-size combo box and spin button are reduced to their active label and value.
- Configuration I/O (`load_config`, `cfg_get`, `cfg_set`, including `block_size_kb`) is not modelled; it is file I/O.
- The filesystem scans are not modelled (`_add_folder`, `_add_folder_par2`, `_existing_par2_files`, `_delete_existing_par2_for_selection`); they use `listdir`, `rglob` and `remove`.
- `_coerce_int` is not modelled; it depends on the full `int()` parsing rules. Neither is the path handling of `os.path.relpath`/`dirname`.
- Argument-vector construction in `_on_create`/`_on_run` is not modelled beyond the `-s` block size; it is glue producing job tuples.
- The spin button's float value is modelled as an integer; `int(get_value())` of a whole number gives the same.
- Python's `str.lower()` beyond ASCII is not modelled; the representation notes above explain why that changes no result.
- Batch.Worker: its contract gives the log shape through `TextEvents(texts)` and does not restate what the chunks contain. `Batch.Work` and `OutputFilter.StreamOutput` state that they join to exactly the shown lines.
- Batch.Tally: the tally of a batch is defined over the sequence of job outcomes, which `Batch.Outcomes` builds from the launches through `Batch.Classify`; it is not a second implementation of the runner.
- Runner.Runner.Kick: the summary it posts is the `BatchDone` note, with mode, count and lists. Its text is `Summary.SummaryText`, which `Summary.FormatSummary` builds.

## Findings

| source | as written | input that shows it | evidently intended | confidence | as-written member | corrected member |
|---|---|---|---|---|---|---|
| par2guard.py:941-951 | `fixed = bs - (bs % 4)` is written back with `set_value(fixed)`, and the size is read again from the spin button when `-s` is built (par2guard.py:987-989). The spin button's range starts at 1 (par2guard.py:759), so a rounded-down 0 becomes 1, while the notice logged reports the size as adjusted "to 0" (`BlockSize.AdjustLog`). | custom block size 1, 2 or 3 bytes: par2 is handed `-s1` | a size par2 accepts: a multiple of 4, at least 4 | not executed | BlockSize.TinyBlockSizeStaysUnaligned (on BlockSize.BlockSizeArgAsWritten) | BlockSize.BlockSizeArgAligned (on BlockSize.BlockSizeArg, using BlockSize.Normalize) |
