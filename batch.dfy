/** Whole runs of the `Runner` (par2guard.py:300-495): the worker of each job
    (par2guard.py:398-493) feeding one job's output and outcome back, a full
    batch driven to its end, and cancellation under a running job. */
module Batch {
  import opened Wrappers
  import opened Text
  import opened Classifier
  import opened OutputFilter
  import opened Summary
  import opened Runner

  /** What became of one job's launch: the process ran, printing `lines` (with
      the verbosity and the flush timer as consulted at each line) and exiting
      with `rc`; or the launch raised, with the exception's text. */
  datatype Launch =
    | Launched(lines: seq<string>, verbose: seq<bool>, timeUp: seq<bool>, rc: int)
    | LaunchFailed(error: string)

  predicate WellFormed(l: Launch) {
    l.Launched? ==> |l.verbose| == |l.lines| && |l.timeUp| == |l.lines|
  }

  /** The worker's `rc`, `tail` and `err` when it reaches `finally`: a failed
      launch keeps the initial `rc = 1` and the empty window. */
  function ExitCode(l: Launch): int {
    if l.Launched? then l.rc else 1
  }

  function TailSeen(l: Launch): seq<string> {
    if l.Launched? then TailOf(l.lines) else []
  }

  function LaunchError(l: Launch): Option<string> {
    if l.Launched? then None else Some(l.error)
  }

  /** The worker body up to `finally`: stream the output, or report the launch error. */
  method Work(l: Launch) returns (rc: int, tail: seq<string>, err: Option<string>, texts: seq<string>)
    requires WellFormed(l)
    ensures rc == ExitCode(l) && tail == TailSeen(l) && err == LaunchError(l)
    ensures l.Launched? ==> Concat(texts) == Concat(Shown(l.lines, l.verbose))
    ensures l.LaunchFailed? ==> texts == []
  {
    rc := 1;
    err := None;
    if l.LaunchFailed? {
      tail, texts := [], [];
      err := Some(l.error);
      return;
    }
    tail, texts := StreamOutput(l.lines, l.verbose, l.timeUp);
    rc := l.rc;
  }

  /** The outcome of a job that ran with no cancel pending. */
  function Classify(job: Job, l: Launch): (o: Outcome)
    ensures o.category.Some? <==> Tallyable(job.mode)
    ensures o.category.Some? ==> CategoryMode(o.category.value) == job.mode
  {
    SummarizeOne(job.mode, ExitCode(l), TailSeen(l), LaunchError(l), false)
  }

  /** The outcome of each job of a batch that runs with no cancel pending, in
      order: job `i`'s outcome depends on its own launch alone. */
  function Outcomes(jobs: seq<Job>, launches: seq<Launch>): (os: seq<Outcome>)
    requires |launches| == |jobs|
    ensures |os| == |jobs|
    ensures forall i :: 0 <= i < |jobs| ==> os[i] == Classify(jobs[i], launches[i])
  {
    if jobs == [] then []
    else
      var n := |jobs| - 1;
      Outcomes(jobs[..n], launches[..n]) + [Classify(jobs[n], launches[n])]
  }

  /** The completion message of each job, in order: the `i`-th message is job
      `i`'s. */
  function JobMessages(os: seq<Outcome>): (r: seq<Note>)
    ensures |r| == |os|
    ensures forall i :: 0 <= i < |os| ==> r[i] == JobDone(os[i].message)
  {
    if os == [] then []
    else
      var n := |os| - 1;
      JobMessages(os[..n]) + [JobDone(os[n].message)]
  }

  /** The result lists after the jobs have completed in order, with outcomes `os`. */
  function Tally(jobs: seq<Job>, os: seq<Outcome>): Results
    requires |os| == |jobs|
  {
    if jobs == [] then NoResults
    else
      var n := |jobs| - 1;
      Record(Tally(jobs[..n], os[..n]), os[n].category, jobs[n].item)
  }

  /** The summary posted at the end of a batch, if it gets one. */
  function BatchSummary(jobs: seq<Job>, os: seq<Outcome>): seq<Note>
    requires |os| == |jobs|
  {
    if jobs != [] && Tallyable(jobs[0].mode)
    then [BatchDone(jobs[0].mode, |jobs|, Tally(jobs, os))] else []
  }

  lemma {:induction false} DonesOfCompletion(before: seq<Event>, message: Note, after: seq<Event>)
    ensures Dones(before + [OnDone(message), OnState(Idle)] + after)
         == Dones(before) + [message] + Dones(after)
  {
    var mid := [OnDone(message), OnState(Idle)];
    DonesAppend(before + mid, after);
    DonesAppend(before, mid);
    assert mid[..1] == [OnDone(message)];
    DonesAppend(mid[..1], mid[1..]);
    assert mid == mid[..1] + mid[1..];
    assert Dones([OnDone(message)]) == Dones([]) + [message];
  }

  /** The completion messages of a log extended by one job's run: its output
      chunks, its message and "idle", then whatever `_kick` posted. */
  lemma {:induction false} DonesOfRun(before: seq<Event>, texts: seq<string>, message: Note, rest: seq<Event>)
    ensures Dones(before + TextEvents(texts) + [OnDone(message), OnState(Idle)] + rest)
         == Dones(before) + [message] + Dones(rest)
  {
    var posted := before + TextEvents(texts);
    TextsHaveNoDones(texts);
    DonesAppend(before, TextEvents(texts));
    assert Dones(posted) == Dones(before);
    DonesOfCompletion(posted, message, rest);
  }

  lemma {:induction false} DonesOfFinish(batch: Option<Mode>, completed: nat, results: Results)
    ensures Dones(FinishEvents(batch, completed, results))
         == if completed > 0 && batch.Some? && Tallyable(batch.value)
            then [BatchDone(batch.value, completed, results)] else []
  {
    var f := FinishEvents(batch, completed, results);
    if |f| == 2 {
      assert f[..1] == [f[0]] && f[1..] == [OnState(Idle)];
      DonesAppend(f[..1], f[1..]);
      assert f == f[..1] + f[1..];
      assert Dones([f[0]]) == Dones([]) + [f[0].note];
    }
  }

  /** The banner and the first job's start post no completion message. */
  lemma {:induction false} DonesOfOpening(job: Job, total: nat)
    ensures Dones([OnText(Banner(job.mode))] + StartEvents(job, 1, total)) == []
  {
    NoDonesInStart(job, 1, total, []);
    DonesAppend([OnText(Banner(job.mode))], StartEvents(job, 1, total));
    assert Dones([OnText(Banner(job.mode))]) == [];
  }

  /** The worker thread of the in-flight job, from launch to its `finally`
      block: the output is streamed to the log, the job is classified (with
      the pending-cancel flag as it stands), tallied and reported, and the
      queue is kicked. */
  method Worker(r: Runner, l: Launch) returns (texts: seq<string>)
    requires r.Valid() && r.current.Some? && WellFormed(l)
    modifies r
    ensures r.Valid()
    ensures var job := old(r.current).value;
      var o := SummarizeOne(job.mode, ExitCode(l), TailSeen(l), LaunchError(l), old(r.cancelRequested));
      var posted := old(r.log) + TextEvents(texts) + [OnDone(JobDone(o.message)), OnState(Idle)];
      && r.results == Record(old(r.results), o.category, job.item)
      && (old(r.queue) != [] ==>
            && r.queue == old(r.queue)[1..] && r.current == Some(old(r.queue)[0]) && !r.cancelRequested
            && r.total == old(r.total) && r.completed == old(r.completed) + 1
            && r.batchMode == old(r.batchMode)
            && r.log == posted + StartEvents(old(r.queue)[0], old(r.completed) + 2, old(r.total)))
      && (old(r.queue) == [] ==>
            && r.queue == [] && r.current.None? && r.cancelRequested == old(r.cancelRequested)
            && r.total == 0 && r.completed == 0 && r.batchMode.None?
            && r.log == posted + FinishEvents(old(r.batchMode), old(r.completed) + 1, r.results))
  {
    var rc, tail, err;
    rc, tail, err, texts := Work(l);
    r.PostOutput(texts);
    r.CompleteJob(rc, tail, err);
  }

  /** One more job done: the messages and the tally of a prefix grow by that
      job's, and the queue behind it loses its head. */
  lemma {:induction false} PrefixStep(jobs: seq<Job>, os: seq<Outcome>, i: nat)
    requires |os| == |jobs| && i + 1 < |jobs|
    ensures JobMessages(os[..i + 1]) == JobMessages(os[..i]) + [JobDone(os[i].message)]
    ensures Tally(jobs[..i + 1], os[..i + 1]) == Record(Tally(jobs[..i], os[..i]), os[i].category, jobs[i].item)
    ensures jobs[i + 1..][0] == jobs[i + 1] && jobs[i + 1..][1..] == jobs[i + 2..]
  {
    assert jobs[..i + 1][..i] == jobs[..i] && os[..i + 1][..i] == os[..i];
  }

  /** A whole batch, started on an idle runner and left to run: every job is
      started in order, gets its output streamed and its outcome classified;
      exactly one completion message is posted per job, in order, followed by
      the summary for a verify or repair batch; the log opens with the banner
      and ends with "idle". */
  method DriveBatch(jobs: seq<Job>, launches: seq<Launch>) returns (log: seq<Event>)
    requires |launches| == |jobs|
    requires forall i :: 0 <= i < |launches| ==> WellFormed(launches[i])
    ensures var os := Outcomes(jobs, launches);
      Dones(log) == JobMessages(os) + BatchSummary(jobs, os)
    ensures jobs == [] ==> log == []
    ensures jobs != [] ==> log[0] == OnText(Banner(jobs[0].mode)) && log[|log| - 1] == OnState(Idle)
  {
    if jobs == [] {
      var r := new Runner();
      r.RunMany(jobs);
      return r.log;
    }
    var n := |jobs|;
    ghost var os := Outcomes(jobs, launches);
    var r := StartBatch(jobs, os);
    var i := 0;
    while i < n - 1
      invariant 0 <= i <= n - 1
      invariant Midway(r, jobs, os, i)
    {
      NextJob(r, jobs, os, launches[i], i);
      i := i + 1;
    }
    LastJob(r, jobs, os, launches[n - 1]);
    log := r.log;
  }

  /** The runner of `DriveBatch` while job `i` runs: the jobs before it have
      completed, the ones after it are queued, and the messages and the tally
      are those of the completed jobs. */
  predicate Midway(r: Runner, jobs: seq<Job>, os: seq<Outcome>, i: nat)
    reads r
  {
    && |os| == |jobs| && i < |jobs|
    && r.Valid()
    && |r.log| > 0 && r.log[0] == OnText(Banner(jobs[0].mode))
    && r.current == Some(jobs[i]) && r.queue == jobs[i + 1..] && !r.cancelRequested
    && r.total == |jobs| && r.completed == i && r.batchMode == Some(jobs[0].mode)
    && r.results == Tally(jobs[..i], os[..i])
    && Dones(r.log) == JobMessages(os[..i])
  }

  /** `run_many` on an idle runner starts the first job. */
  method StartBatch(jobs: seq<Job>, ghost os: seq<Outcome>) returns (r: Runner)
    requires |os| == |jobs| && jobs != []
    ensures fresh(r) && Midway(r, jobs, os, 0)
  {
    r := new Runner();
    r.RunMany(jobs);
    assert r.log == [OnText(Banner(jobs[0].mode))] + StartEvents(jobs[0], 1, |jobs|);
    DonesOfOpening(jobs[0], |jobs|);
    assert jobs[..0] == [] && os[..0] == [];
  }

  /** Job `i` completes, with outcome `os[i]`, and job `i + 1` starts. */
  method NextJob(r: Runner, jobs: seq<Job>, ghost os: seq<Outcome>, l: Launch, i: nat)
    requires Midway(r, jobs, os, i) && i + 1 < |jobs| && WellFormed(l) && os[i] == Classify(jobs[i], l)
    modifies r
    ensures Midway(r, jobs, os, i + 1)
  {
    ghost var before := r.log;
    ghost var o := os[i];
    assert o == SummarizeOne(jobs[i].mode, ExitCode(l), TailSeen(l), LaunchError(l), r.cancelRequested);
    var texts := Worker(r, l);
    PrefixStep(jobs, os, i);
    assert r.results == Tally(jobs[..i + 1], os[..i + 1]);
    RunThenStartDones(before, texts, JobDone(o.message), jobs[i + 1], i + 2, |jobs|, r.log);
  }

  /** A job's completion followed by the start of the next job adds that
      job's note and nothing else. */
  lemma {:induction false} RunThenStartDones(before: seq<Event>, texts: seq<string>, message: Note,
                                             next: Job, done: nat, total: nat, log: seq<Event>)
    requires before != []
    requires log == before + TextEvents(texts) + [OnDone(message), OnState(Idle)] + StartEvents(next, done, total)
    ensures Dones(log) == Dones(before) + [message] && log[0] == before[0]
  {
    DonesOfRun(before, texts, message, StartEvents(next, done, total));
    NoDonesInStart(next, done, total, []);
  }

  /** The last job completes, with the last outcome, and the batch finishes. */
  method LastJob(r: Runner, jobs: seq<Job>, ghost os: seq<Outcome>, l: Launch)
    requires jobs != [] && Midway(r, jobs, os, |jobs| - 1) && WellFormed(l)
    requires os[|jobs| - 1] == Classify(jobs[|jobs| - 1], l)
    modifies r
    ensures Dones(r.log) == JobMessages(os) + BatchSummary(jobs, os)
    ensures r.log[0] == OnText(Banner(jobs[0].mode)) && r.log[|r.log| - 1] == OnState(Idle)
  {
    var n := |jobs|;
    ghost var before := r.log;
    ghost var message := JobDone(os[n - 1].message);
    var texts := Worker(r, l);
    BatchEnd(jobs, os);
    assert r.results == Tally(jobs, os);
    ghost var finish := FinishEvents(Some(jobs[0].mode), n, r.results);
    assert r.log == before + TextEvents(texts) + [OnDone(message), OnState(Idle)] + finish;
    DonesOfRun(before, texts, message, finish);
    DonesOfFinish(Some(jobs[0].mode), n, r.results);
  }

  /** The messages and the tally of a whole batch extend those of all its
      jobs but the last. */
  lemma {:induction false} BatchEnd(jobs: seq<Job>, os: seq<Outcome>)
    requires |os| == |jobs| && jobs != []
    ensures var n := |jobs| - 1;
      && JobMessages(os) == JobMessages(os[..n]) + [JobDone(os[n].message)]
      && Tally(jobs, os) == Record(Tally(jobs[..n], os[..n]), os[n].category, jobs[n].item)
  {
  }

  /** The number of labels in the six lists of one kind of batch. */
  function CountOf(r: Results, m: Mode): nat {
    if m == Verify then |r.verifyOk| + |r.verifyNeedRepair| + |r.verifyFailed|
    else if m == Repair then |r.repairRepaired| + |r.repairNotRequired| + |r.repairFailed|
    else 0
  }

  /** Recording one label adds it to the count of its category's mode only. */
  lemma {:induction false} RecordCount(r: Results, c: Option<Category>, item: string, m: Mode)
    ensures CountOf(Record(r, c, item), m)
         == CountOf(r, m) + (if c.Some? && Tallyable(m) && CategoryMode(c.value) == m then 1 else 0)
  {
    if c.Some? {
      match c.value
      case VerifyOk =>
      case VerifyNeedRepair =>
      case VerifyFailed =>
      case RepairRepaired =>
      case RepairNotRequired =>
      case RepairFailed =>
    }
  }

  predicate AllOfMode(jobs: seq<Job>, m: Mode) {
    forall i :: 0 <= i < |jobs| ==> jobs[i].mode == m
  }

  /** Every outcome carries a category of mode `m`. */
  predicate AllFiledUnder(os: seq<Outcome>, m: Mode) {
    forall i :: 0 <= i < |os| ==> os[i].category.Some? && CategoryMode(os[i].category.value) == m
  }

  /** Every job of a verify batch (or of a repair batch) is classified into
      one of its mode's categories. */
  lemma {:induction false} OutcomesFiled(jobs: seq<Job>, launches: seq<Launch>, m: Mode)
    requires |launches| == |jobs| && Tallyable(m) && AllOfMode(jobs, m)
    ensures AllFiledUnder(Outcomes(jobs, launches), m)
  {
    forall i | 0 <= i < |jobs|
      ensures Outcomes(jobs, launches)[i].category.Some?
      ensures CategoryMode(Outcomes(jobs, launches)[i].category.value) == m
    {
      assert jobs[i].mode == m;
    }
  }

  /** When every job lands in one of mode `m`'s three lists, the counts of
      that mode add up to the number of jobs and the other mode's lists stay
      empty. */
  lemma {:induction false} UniformTally(jobs: seq<Job>, os: seq<Outcome>, m: Mode)
    requires |os| == |jobs| && Tallyable(m) && AllFiledUnder(os, m)
    ensures CountOf(Tally(jobs, os), m) == |jobs|
    ensures CountOf(Tally(jobs, os), if m == Verify then Repair else Verify) == 0
  {
    if jobs != [] {
      var n := |jobs| - 1;
      assert AllFiledUnder(os[..n], m) by {
        forall i | 0 <= i < n ensures os[..n][i] == os[i] { }
      }
      UniformTally(jobs[..n], os[..n], m);
      var t := Tally(jobs[..n], os[..n]);
      RecordCount(t, os[n].category, jobs[n].item, m);
      RecordCount(t, os[n].category, jobs[n].item, if m == Verify then Repair else Verify);
    }
  }

  predicate IsPrefix(a: seq<string>, b: seq<string>) {
    |a| <= |b| && b[..|a|] == a
  }

  /** Labels are only ever appended: the lists after the first `i` jobs are
      prefixes of the final lists. */
  lemma {:induction false} TallyPrefix(jobs: seq<Job>, os: seq<Outcome>, i: nat, c: Category)
    requires |os| == |jobs| && i <= |jobs|
    ensures IsPrefix(Tally(jobs[..i], os[..i]).Get(c), Tally(jobs, os).Get(c))
    decreases |jobs| - i
  {
    if i == |jobs| {
      assert jobs[..i] == jobs && os[..i] == os;
    } else {
      TallyPrefix(jobs, os, i + 1, c);
      TallyStep(jobs, os, i);
      var t := Tally(jobs[..i], os[..i]);
      RecordExtends(t, os[i].category, jobs[i].item, c);
      PrefixTrans(t.Get(c), Tally(jobs[..i + 1], os[..i + 1]).Get(c), Tally(jobs, os).Get(c));
    }
  }

  /** Recording a label extends each list, or leaves it as it was. */
  lemma {:induction false} RecordExtends(r: Results, category: Option<Category>, item: string, c: Category)
    ensures IsPrefix(r.Get(c), Record(r, category, item).Get(c))
  {
    var s := Record(r, category, item).Get(c);
    assert s == r.Get(c) || s == r.Get(c) + [item];
    assert s[..|r.Get(c)|] == r.Get(c);
  }

  lemma {:induction false} PrefixTrans(a: seq<string>, b: seq<string>, c: seq<string>)
    requires IsPrefix(a, b) && IsPrefix(b, c)
    ensures IsPrefix(a, c)
  {
    assert c[..|a|] == c[..|b|][..|a|];
  }

  /** The lists after `i + 1` jobs are those after `i` jobs with job `i` recorded. */
  lemma {:induction false} TallyStep(jobs: seq<Job>, os: seq<Outcome>, i: nat)
    requires |os| == |jobs| && i < |jobs|
    ensures Tally(jobs[..i + 1], os[..i + 1]) == Record(Tally(jobs[..i], os[..i]), os[i].category, jobs[i].item)
  {
    assert jobs[..i + 1][..i] == jobs[..i] && os[..i + 1][..i] == os[..i];
  }

  /** Job `i`'s label sits in its category's list just after the labels of
      the earlier jobs of that category: the lists keep completion order. */
  lemma {:induction false} TallyPlaces(jobs: seq<Job>, os: seq<Outcome>, i: nat)
    requires |os| == |jobs| && i < |jobs| && os[i].category.Some?
    ensures var c := os[i].category.value;
      var k := |Tally(jobs[..i], os[..i]).Get(c)|;
      k < |Tally(jobs, os).Get(c)| && Tally(jobs, os).Get(c)[k] == jobs[i].item
  {
    var c := os[i].category.value;
    TallyStep(jobs, os, i);
    TallyPrefix(jobs, os, i + 1, c);
    var before := Tally(jobs[..i], os[..i]).Get(c);
    var step := Tally(jobs[..i + 1], os[..i + 1]).Get(c);
    var final := Tally(jobs, os).Get(c);
    assert step == before + [jobs[i].item];
    assert final[|before|] == final[..|step|][|before|] == step[|before|];
  }

  /** A verify batch (or a repair batch) run to its end gets a summary whose
      total is the number of jobs, and every job is counted in exactly one of
      that mode's three lists: "Checked" equals "OK" plus "Require repair"
      plus "Failed" (likewise "Processed" for repair), and the other mode's
      lists stay empty. */
  lemma {:induction false} BatchAddsUp(jobs: seq<Job>, launches: seq<Launch>, m: Mode)
    requires |launches| == |jobs| && jobs != [] && Tallyable(m) && AllOfMode(jobs, m)
    ensures var os := Outcomes(jobs, launches); var t := Tally(jobs, os);
      && BatchSummary(jobs, os) == [BatchDone(m, |jobs|, t)]
      && CountOf(t, m) == |jobs|
      && CountOf(t, if m == Verify then Repair else Verify) == 0
  {
    OutcomesFiled(jobs, launches, m);
    UniformTally(jobs, Outcomes(jobs, launches), m);
    assert jobs[0].mode == m;
  }

  /** The completion messages of a batch cancelled while its first job ran:
      that job's message, then the summary of a verify or repair batch, which
      counts the one completed job. */
  function CancelledRunDones(job: Job, l: Launch): seq<Note> {
    var o := SummarizeOne(job.mode, ExitCode(l), TailSeen(l), LaunchError(l), true);
    [JobDone(o.message)] + (if Tallyable(job.mode) then [BatchDone(job.mode, 1, Record(NoResults, o.category, job.item))] else [])
  }

  /** Unless its launch failed, the cancelled job reports "Cancelled." and is
      tallied nowhere, yet the summary still reports one completed job,
      although `cancel` had set the total to zero. */
  lemma {:induction false} CancelledRunReportsOne(job: Job, l: Launch)
    requires l.Launched?
    ensures CancelledRunDones(job, l)
         == [JobDone(Cancelled)] + (if Tallyable(job.mode) then [BatchDone(job.mode, 1, NoResults)] else [])
    ensures job.mode == Verify ==>
      ReadCount(SummaryLines(Verify, 1, NoResults)[1], "Checked: ", " items\n") == Some(1)
  {
    CancelSecond(job.mode, ExitCode(l), TailSeen(l));
    VerifySummary(1, NoResults);
  }

  /** `cancel` while the first job of a batch runs: the queued jobs are
      dropped and both counters zeroed, then the running job completes with
      the cancel pending, and the batch finishes. */
  method CancelDuringFirstJob(jobs: seq<Job>, l: Launch) returns (log: seq<Event>)
    requires jobs != [] && WellFormed(l)
    ensures Dones(log) == CancelledRunDones(jobs[0], l)
  {
    var r := StartThenCancel(jobs);
    DonesOfOpening(jobs[0], |jobs|);
    FinishCancelled(r, jobs[0], l);
    log := r.log;
  }

  /** The in-flight job of a cancelled batch completes. */
  method FinishCancelled(r: Runner, job: Job, l: Launch)
    requires r.Valid() && WellFormed(l)
    requires r.current == Some(job) && r.cancelRequested && r.queue == []
    requires r.completed == 0 && r.batchMode == Some(job.mode) && r.results == NoResults
    requires Dones(r.log) == []
    modifies r
    ensures Dones(r.log) == CancelledRunDones(job, l)
  {
    ghost var before := r.log;
    ghost var o := SummarizeOne(job.mode, ExitCode(l), TailSeen(l), LaunchError(l), true);
    var texts := Worker(r, l);
    assert r.results == Record(NoResults, o.category, job.item);
    ghost var finish := FinishEvents(Some(job.mode), 1, r.results);
    assert r.log == before + TextEvents(texts) + [OnDone(JobDone(o.message)), OnState(Idle)] + finish;
    CancelledTail(job, l, before, texts, r.log, r.results);
  }

  lemma {:induction false} CancelledTail(job: Job, l: Launch, before: seq<Event>, texts: seq<string>, log: seq<Event>, results: Results)
    requires Dones(before) == []
    requires var o := SummarizeOne(job.mode, ExitCode(l), TailSeen(l), LaunchError(l), true);
      && results == Record(NoResults, o.category, job.item)
      && log == before + TextEvents(texts) + [OnDone(JobDone(o.message)), OnState(Idle)] + FinishEvents(Some(job.mode), 1, results)
    ensures Dones(log) == CancelledRunDones(job, l)
  {
    var o := SummarizeOne(job.mode, ExitCode(l), TailSeen(l), LaunchError(l), true);
    SingleRunDones(before, texts, JobDone(o.message), job.mode, log, results);
  }

  /** The notes of a one-job batch: the job's note, then the summary. */
  lemma {:induction false} SingleRunDones(before: seq<Event>, texts: seq<string>, message: Note, m: Mode, log: seq<Event>, results: Results)
    requires Dones(before) == []
    requires log == before + TextEvents(texts) + [OnDone(message), OnState(Idle)] + FinishEvents(Some(m), 1, results)
    ensures Dones(log) == [message] + (if Tallyable(m) then [BatchDone(m, 1, results)] else [])
  {
    DonesOfRun(before, texts, message, FinishEvents(Some(m), 1, results));
    DonesOfFinish(Some(m), 1, results);
  }

  /** A fresh runner given `jobs` and then `cancel`: the first job runs, with
      the cancel pending, nothing queued and both counters zero. */
  method StartThenCancel(jobs: seq<Job>) returns (r: Runner)
    requires jobs != []
    ensures fresh(r) && r.Valid()
    ensures r.current == Some(jobs[0]) && r.cancelRequested && r.queue == []
    ensures r.total == 0 && r.completed == 0 && r.batchMode == Some(jobs[0].mode) && r.results == NoResults
    ensures r.log == [OnText(Banner(jobs[0].mode))] + StartEvents(jobs[0], 1, |jobs|)
  {
    r := new Runner();
    r.RunMany(jobs);
    r.Cancel();
  }

  /** The runner's whole observable state. */
  datatype Snapshot = Snapshot(
    queue: seq<Job>, current: Option<Job>, cancelRequested: bool, total: nat, completed: nat,
    batchMode: Option<Mode>, results: Results, log: seq<Event>)

  function SnapshotOf(r: Runner): Snapshot
    reads r
  {
    Snapshot(r.queue, r.current, r.cancelRequested, r.total, r.completed, r.batchMode, r.results, r.log)
  }

  /** `cancel` on an idle runner leaves no trace: the flag it raises is
      cleared by the `_kick` that starts the next batch, so an idle runner
      cancelled before `run_many` (whatever batches it finished before) ends
      up exactly where the same runner uncancelled does. */
  method CancelWhenIdle(a: Runner, b: Runner, jobs: seq<Job>)
    requires a != b && a.Valid() && b.Valid()
    requires a.current.None? && jobs != []
    requires SnapshotOf(a) == SnapshotOf(b)
    modifies a, b
    ensures SnapshotOf(a) == SnapshotOf(b)
    ensures a.current == Some(jobs[0]) && !a.cancelRequested
  {
    a.RunMany(jobs);
    b.Cancel();
    b.RunMany(jobs);
  }

  /** The same for two new runners: the snapshots after `run_many` agree. */
  method CancelOnNewRunner(jobs: seq<Job>) returns (plain: Snapshot, cancelled: Snapshot)
    requires jobs != []
    ensures plain == cancelled
    ensures plain.current == Some(jobs[0]) && !plain.cancelRequested
  {
    var a := new Runner();
    var b := new Runner();
    CancelWhenIdle(a, b, jobs);
    plain, cancelled := SnapshotOf(a), SnapshotOf(b);
  }
}
