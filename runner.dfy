/** `Runner` (par2guard.py:242-495): the sequential job queue, its batch
    accounting and the events it posts to the user interface. The external
    process is abstracted: a job "in flight" is the one whose process is
    running, and what it produced is handed to `CompleteJob`. */
module Runner {
  import opened Wrappers
  import opened Text
  import opened Classifier
  import opened OutputFilter
  import opened Summary

  /** One queued job: `(argv, cwd, mode, label)`. */
  datatype Job = Job(argv: seq<string>, cwd: Option<string>, mode: Mode, item: string)

  /** What `on_state` receives: a status string, or `False` for "idle". */
  datatype State = Busy(status: string) | Idle

  /** What `on_done_msg` is handed: a job's completion message, or the
      summary of a finished batch. `NoteText` gives the text itself. */
  datatype Note = JobDone(message: Message) | BatchDone(mode: Mode, completed: nat, results: Results)

  function NoteText(n: Note): string {
    match n
    case JobDone(m) => MessageText(m)
    case BatchDone(mode, completed, results) => SummaryText(mode, completed, results)
  }

  /** The `GLib.idle_add` calls, in the order they are made. */
  datatype Event = OnText(text: string) | OnState(state: State) | OnDone(note: Note)

  /** The banner word of `run_many`. */
  function Friendly(m: Mode): string {
    match m
    case Create => "Creating parity files"
    case Verify => "Verifying files"
    case Repair => "Repairing files"
    case Other(_) => "Working"
  }

  /** The status-line verb of `_kick`. */
  function Action(m: Mode): string {
    match m
    case Verify => "Verifying"
    case Repair => "Repairing"
    case Create => "Creating"
    case Other(_) => "Running"
  }

  function Banner(m: Mode): string {
    "\n" + Rule8 + " " + Friendly(m) + " " + Rule8 + "\n"
  }

  /** The events `_kick` posts when it starts `job` as number `done` of `total`:
      the job's label on its own line when it has one, then the status line. */
  function StartEvents(job: Job, done: nat, total: nat): (r: seq<Event>)
    ensures |r| == if job.item != "" then 2 else 1
    ensures r[|r| - 1].OnState? && r[|r| - 1].state.Busy?
  {
    (if job.item != "" then [OnText("\n(" + job.item + ")\n")] else [])
    + [OnState(Busy(Action(job.mode) + " " + NatToString(done) + " / " + NatToString(total)
                    + " items\U{2026}  (" + job.item + ")"))]
  }

  /** The events `_kick` posts when the queue is empty: a summary exactly when
      some job completed and the batch is a verify or repair batch, then idle. */
  function FinishEvents(batch: Option<Mode>, completed: nat, results: Results): (r: seq<Event>)
    ensures |r| == 1 || |r| == 2
    ensures r[|r| - 1] == OnState(Idle)
    ensures |r| == 2 <==> completed > 0 && batch.Some? && Tallyable(batch.value)
  {
    (if completed > 0 && batch.Some? && Tallyable(batch.value)
     then [OnDone(BatchDone(batch.value, completed, results))] else [])
    + [OnState(Idle)]
  }

  /** `_results[classification].append(label)` when there is a classification. */
  function Record(results: Results, category: Option<Category>, item: string): (r: Results)
    ensures category.None? ==> r == results
    ensures category.Some? ==> r.Get(category.value) == results.Get(category.value) + [item]
    ensures forall d :: category != Some(d) ==> r.Get(d) == results.Get(d)
  {
    if category.Some? then results.Add(category.value, item) else results
  }

  class Runner {
    var queue: seq<Job>
    /** The job whose process is running (`_proc` set and not yet exited). */
    var current: Option<Job>
    var cancelRequested: bool
    var total: nat
    var completed: nat
    /** `_batch_mode`; `None` stands for the empty string. */
    var batchMode: Option<Mode>
    var results: Results
    /** Every event posted so far. */
    var log: seq<Event>

    /** With no job in flight the runner is idle: empty queue, counters and
        batch mode reset. With one in flight, the in-flight job, the queue and
        the completed jobs account for the batch total, or for one more than it
        when `run_many` or `cancel` restarted the count under a running job. */
    predicate Valid()
      reads this
    {
      && (current.None? ==> queue == [] && total == 0 && completed == 0 && batchMode.None?)
      && (current.Some? ==> batchMode.Some? && total <= completed + |queue| + 1 <= total + 1)
    }

    constructor ()
      ensures Valid()
      ensures queue == [] && current.None? && !cancelRequested
      ensures total == 0 && completed == 0 && batchMode.None?
      ensures results == NoResults && log == []
    {
      queue, current, cancelRequested := [], None, false;
      total, completed, batchMode := 0, 0, None;
      results, log := NoResults, [];
    }

    /** `is_running`. */
    function IsRunning(): (b: bool)
      reads this
      requires Valid()
      ensures !b ==> queue == [] && total == 0 && completed == 0
    {
      current.Some?
    }

    /** `cancel`: drop the queued jobs, zero both counters and flag the
        cancellation; the running process, if any, is sent SIGINT and
        completes later through `CompleteJob`. */
    method Cancel()
      requires Valid()
      modifies this
      ensures Valid()
      ensures cancelRequested && queue == [] && total == 0 && completed == 0
      ensures current == old(current) && batchMode == old(batchMode)
      ensures results == old(results) && log == old(log)
    {
      cancelRequested := true;
      queue := [];
      total := 0;
      completed := 0;
    }

    /** `_kick`: nothing while a job runs; otherwise start the queue's head,
        or, with the queue empty, finish the batch. */
    method Kick()
      modifies this
      ensures old(current).Some? ==>
        && queue == old(queue) && current == old(current) && cancelRequested == old(cancelRequested)
        && total == old(total) && completed == old(completed) && batchMode == old(batchMode)
        && log == old(log)
      ensures old(current).None? && old(queue) != [] ==>
        && queue == old(queue)[1..] && current == Some(old(queue)[0]) && !cancelRequested
        && total == old(total) && completed == old(completed) && batchMode == old(batchMode)
        && log == old(log) + StartEvents(old(queue)[0], old(completed) + 1, old(total))
      ensures old(current).None? && old(queue) == [] ==>
        && queue == [] && current.None? && cancelRequested == old(cancelRequested)
        && total == 0 && completed == 0 && batchMode.None?
        && log == old(log) + FinishEvents(old(batchMode), old(completed), old(results))
      ensures results == old(results)
    {
      if current.Some? {
        return;
      }
      if queue != [] {
        var job := queue[0];
        queue := queue[1..];
        cancelRequested := false;
        var done := completed + 1;
        if job.item != "" {
          log := log + [OnText("\n(" + job.item + ")\n")];
        }
        log := log + [OnState(Busy(Action(job.mode) + " " + NatToString(done) + " / " + NatToString(total)
                                   + " items\U{2026}  (" + job.item + ")"))];
        current := Some(job);
        return;
      }
      var mode, count := batchMode, completed;
      batchMode := None;
      total := 0;
      completed := 0;
      if count > 0 && mode.Some? && Tallyable(mode.value) {
        log := log + [OnDone(BatchDone(mode.value, count, results))];
      }
      log := log + [OnState(Idle)];
    }

    /** `run_many`: an empty batch changes nothing. Otherwise the jobs join the
        queue, the total becomes the queue's length, the completed count and the
        six result lists are reset, the batch mode is the first job's, the
        banner is posted, and the queue is kicked. */
    method RunMany(jobs: seq<Job>)
      requires Valid()
      modifies this
      ensures Valid()
      ensures jobs == [] ==>
        && queue == old(queue) && current == old(current) && cancelRequested == old(cancelRequested)
        && total == old(total) && completed == old(completed) && batchMode == old(batchMode)
        && results == old(results) && log == old(log)
      ensures jobs != [] ==>
        var q := old(queue) + jobs;
        && total == |q| && completed == 0 && batchMode == Some(jobs[0].mode) && results == NoResults
        && (old(current).Some? ==>
              queue == q && current == old(current) && cancelRequested == old(cancelRequested)
              && log == old(log) + [OnText(Banner(jobs[0].mode))])
        && (old(current).None? ==>
              queue == q[1..] && current == Some(q[0]) && !cancelRequested
              && log == old(log) + [OnText(Banner(jobs[0].mode))] + StartEvents(q[0], 1, |q|))
    {
      if jobs == [] {
        return;
      }
      queue := queue + jobs;
      total := |queue|;
      completed := 0;
      batchMode := Some(jobs[0].mode);
      results := NoResults;
      log := log + [OnText(Banner(jobs[0].mode))];
      assert queue != [];
      Kick();
    }

    /** `run_one`: a batch of one job, labelled with the mode's name when no
        label is given. */
    method RunOne(argv: seq<string>, cwd: Option<string>, mode: Mode, item: string)
      requires Valid()
      modifies this
      ensures Valid()
      ensures var job := Job(argv, cwd, mode, if item != "" then item else ModeName(mode));
        var q := old(queue) + [job];
        && total == |q| && completed == 0 && batchMode == Some(mode) && results == NoResults
        && (old(current).Some? ==>
              queue == q && current == old(current) && cancelRequested == old(cancelRequested)
              && log == old(log) + [OnText(Banner(mode))])
        && (old(current).None? ==>
              queue == [] && current == Some(job) && !cancelRequested
              && log == old(log) + [OnText(Banner(mode))] + StartEvents(job, 1, 1))
    {
      RunMany([Job(argv, cwd, mode, if item != "" then item else ModeName(mode))]);
    }

    /** The chunks the worker's `flush` posts to `on_text` while the job runs. */
    method PostOutput(texts: seq<string>)
      modifies this`log
      ensures log == old(log) + TextEvents(texts)
    {
      var i := 0;
      while i < |texts|
        invariant 0 <= i <= |texts|
        invariant log == old(log) + TextEvents(texts[..i])
      {
        log := log + [OnText(texts[i])];
        assert texts[..i + 1][..i] == texts[..i];
        i := i + 1;
      }
      assert texts[..|texts|] == texts;
    }

    /** The worker's `finally` block once the in-flight job's process has
        ended with exit code `rc`, trailing output `tail` and launch error
        `err`: the job is classified (a pending cancel counts), the completed
        count grows by one, the label joins its category's list, the job's
        message and "idle" are posted, and the queue is kicked. */
    method CompleteJob(rc: int, tail: seq<string>, err: Option<string>)
      requires Valid() && current.Some?
      modifies this
      ensures Valid()
      ensures var job := old(current).value;
        var o := SummarizeOne(job.mode, rc, tail, err, old(cancelRequested));
        var res := Record(old(results), o.category, job.item);
        var posted := old(log) + [OnDone(JobDone(o.message)), OnState(Idle)];
        && results == res
        && (old(queue) != [] ==>
              && queue == old(queue)[1..] && current == Some(old(queue)[0]) && !cancelRequested
              && total == old(total) && completed == old(completed) + 1 && batchMode == old(batchMode)
              && log == posted + StartEvents(old(queue)[0], old(completed) + 2, old(total)))
        && (old(queue) == [] ==>
              && queue == [] && current.None? && cancelRequested == old(cancelRequested)
              && total == 0 && completed == 0 && batchMode.None?
              && log == posted + FinishEvents(old(batchMode), old(completed) + 1, results))
    {
      RecordOutcome(rc, tail, err);
      Kick();
    }

    /** The bookkeeping of the `finally` block before its `_kick()`: the
        process is gone, the job is classified with the pending-cancel flag as
        it stands, counted, recorded under its category, and its message and
        "idle" are posted. */
    method RecordOutcome(rc: int, tail: seq<string>, err: Option<string>)
      requires current.Some?
      modifies this
      ensures var job := old(current).value;
        var o := SummarizeOne(job.mode, rc, tail, err, old(cancelRequested));
        && results == Record(old(results), o.category, job.item)
        && log == old(log) + [OnDone(JobDone(o.message)), OnState(Idle)]
      ensures current.None? && completed == old(completed) + 1
      ensures queue == old(queue) && cancelRequested == old(cancelRequested)
      ensures total == old(total) && batchMode == old(batchMode)
    {
      var job := current.value;
      current := None;
      var o := SummarizeOne(job.mode, rc, tail, err, cancelRequested);
      completed := completed + 1;
      if o.category.Some? {
        results := results.Add(o.category.value, job.item);
      }
      log := log + [OnDone(JobDone(o.message))];
      log := log + [OnState(Idle)];
    }
  }

  /** The `on_text` events of a sequence of posted chunks. */
  function TextEvents(texts: seq<string>): (r: seq<Event>)
    ensures |r| == |texts|
    ensures forall i :: 0 <= i < |texts| ==> r[i] == OnText(texts[i])
  {
    if texts == [] then [] else TextEvents(texts[..|texts| - 1]) + [OnText(texts[|texts| - 1])]
  }

  /** The messages posted to `on_done_msg`, in order. */
  function Dones(log: seq<Event>): seq<Note> {
    if log == [] then []
    else Dones(log[..|log| - 1]) + (if log[|log| - 1].OnDone? then [log[|log| - 1].note] else [])
  }

  lemma {:induction false} DonesAppend(a: seq<Event>, b: seq<Event>)
    ensures Dones(a + b) == Dones(a) + Dones(b)
    decreases |b|
  {
    if b != [] {
      var n := |b| - 1;
      assert (a + b)[..|a + b| - 1] == a + b[..n];
      DonesAppend(a, b[..n]);
    } else {
      assert a + b == a;
    }
  }

  lemma {:induction false} NoDonesInStart(job: Job, done: nat, total: nat, texts: seq<string>)
    ensures Dones(StartEvents(job, done, total)) == []
    ensures Dones(TextEvents(texts)) == []
  {
    var s := StartEvents(job, done, total);
    if |s| == 2 {
      DonesAppend(s[..1], s[1..]);
      assert s == s[..1] + s[1..];
    }
    TextsHaveNoDones(texts);
  }

  lemma {:induction false} TextsHaveNoDones(texts: seq<string>)
    ensures Dones(TextEvents(texts)) == []
  {
    if texts != [] {
      var t := TextEvents(texts);
      assert t[..|t| - 1] == TextEvents(texts[..|texts| - 1]);
      TextsHaveNoDones(texts[..|texts| - 1]);
    }
  }
}
