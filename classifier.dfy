/** `Runner._summarize_one` (par2guard.py:497-566): the outcome of one finished
    job, decided from its operation kind, exit code, trailing output, launch
    error and the pending-cancel flag. */
module Classifier {
  import opened Wrappers
  import opened Text

  /** The job's `mode` string. The program only ever builds "create", "verify"
      and "repair" jobs; `Other` carries any other string, for which the source
      has defensive fallbacks. */
  datatype Mode = Create | Verify | Repair | Other(name: string)

  function ModeName(m: Mode): string {
    match m
    case Create => "create"
    case Verify => "verify"
    case Repair => "repair"
    case Other(n) => n
  }

  /** The modes a `mode` string can denote: `Other` never carries the name of
      one of the three operations. */
  predicate Canonical(m: Mode) {
    m.Other? ==> m.name != "create" && m.name != "verify" && m.name != "repair"
  }

  /** Reading a `mode` string; `ModeName` inverts it. */
  function ModeOf(s: string): (m: Mode)
    ensures ModeName(m) == s
    ensures s == "create" <==> m == Create
    ensures s == "verify" <==> m == Verify
    ensures s == "repair" <==> m == Repair
    ensures Canonical(m)
  {
    if s == "create" then Create
    else if s == "verify" then Verify
    else if s == "repair" then Repair
    else Other(s)
  }

  /** Naming a mode and reading the name back gives the mode again, exactly
      for the modes a `mode` string can denote. */
  lemma {:induction false} ModeRoundTrip(m: Mode)
    ensures ModeOf(ModeName(m)) == m <==> Canonical(m)
  {
    if m.Other? && Canonical(m) {
      assert ModeOf(m.name) == Other(m.name);
    }
  }

  /** The kinds of batch that get an end-of-batch summary and a tally. */
  predicate Tallyable(m: Mode) {
    m == Verify || m == Repair
  }

  /** The classification keys of `_results`. The source's empty key ""
      ("not tallied") is `None` in the model. */
  datatype Category =
    | VerifyOk | VerifyNeedRepair | VerifyFailed
    | RepairRepaired | RepairNotRequired | RepairFailed

  function CategoryKey(c: Category): string {
    match c
    case VerifyOk => "verify_ok"
    case VerifyNeedRepair => "verify_need_repair"
    case VerifyFailed => "verify_failed"
    case RepairRepaired => "repair_repaired"
    case RepairNotRequired => "repair_not_required"
    case RepairFailed => "repair_failed"
  }

  /** The operation kind a category belongs to. */
  function CategoryMode(c: Category): Mode {
    if c in {VerifyOk, VerifyNeedRepair, VerifyFailed} then Verify else Repair
  }

  /** A category's key starts with the name of its kind and an underscore,
      and only verify and repair jobs have categories. */
  lemma {:induction false} CategoryModeIsKeyPrefix(c: Category)
    ensures StartsWith(CategoryKey(c), ModeName(CategoryMode(c)) + "_")
    ensures Tallyable(CategoryMode(c))
  {
    match c
    case VerifyOk => assert CategoryKey(c)[..7] == "verify_";
    case VerifyNeedRepair => assert CategoryKey(c)[..7] == "verify_";
    case VerifyFailed => assert CategoryKey(c)[..7] == "verify_";
    case RepairRepaired => assert CategoryKey(c)[..7] == "repair_";
    case RepairNotRequired => assert CategoryKey(c)[..7] == "repair_";
    case RepairFailed => assert CategoryKey(c)[..7] == "repair_";
  }

  predicate IsFailure(c: Category) {
    c == VerifyFailed || c == RepairFailed
  }

  /** The category of a failed job: the failure bucket of its kind, none for create. */
  function FailedCategory(m: Mode): (r: Option<Category>)
    ensures r.Some? <==> Tallyable(m)
    ensures r.Some? ==> IsFailure(r.value) && CategoryMode(r.value) == m
  {
    if m == Verify then Some(VerifyFailed)
    else if m == Repair then Some(RepairFailed)
    else None
  }

  /** The completion messages `_summarize_one` chooses from; `MessageText`
      gives the text the user sees. */
  datatype Message =
    | NotFound | LaunchErrorText(error: string) | Cancelled
    | VerifyNeedsRepairDone | VerifyDone | VerifyAllCorrect
    | CreateDone | RepairNotNeeded | RepairCompleted | RepairDone | OtherDone
    | Failed(rc: int)

  function MessageText(m: Message): string {
    match m
    case NotFound => "Error: 'par2' not found. Install it (Mint/Ubuntu): sudo apt install par2"
    case LaunchErrorText(e) => "Error: " + e
    case Cancelled => "Cancelled."
    case VerifyNeedsRepairDone => "Verification complete. Repair is required."
    case VerifyDone => "Verification complete."
    case VerifyAllCorrect => "All files verified successfully. Repair not required."
    case CreateDone => "Parity files created successfully."
    case RepairNotNeeded => "Repair not required."
    case RepairCompleted => "Repair completed successfully."
    case RepairDone => "Repair complete."
    case OtherDone => "Operation completed successfully."
    case Failed(rc) => "Operation failed (exit code " + IntToString(rc) + "). See log for details."
  }

  /** What one finished job displays and where it is tallied. */
  datatype Outcome = Outcome(message: Message, category: Option<Category>)

  /** The lower-cased joined trailing window the markers are searched in. */
  function Joined(tail: seq<string>): string {
    Lower(Concat(tail))
  }

  /** The need-repair markers for a verify run that exited with code 1. */
  predicate ExitOneNeedsRepair(joined: string) {
    Contains(joined, "repair is required") || Contains(joined, "missing")
  }

  /** The need-repair markers for a verify run that exited with code 0. */
  predicate ExitZeroNeedsRepair(joined: string) {
    Contains(joined, "repair is required") || Contains(joined, "file not found") || Contains(joined, "missing")
  }

  /** `err` is the launch error text (`str(e)`), `cancelled` the value of
      `_cancel_requested` when the job is classified. */
  function SummarizeOne(mode: Mode, rc: int, tail: seq<string>, err: Option<string>, cancelled: bool): (r: Outcome)
    // A job is tallied only under its own kind's categories ...
    ensures r.category.Some? ==> CategoryMode(r.category.value) == mode
    // ... and every verify or repair job is tallied unless it was cancelled first.
    ensures r.category.None? <==> !Tallyable(mode) || (err.None? && cancelled)
    // A job counts as failed exactly when it could not be launched, or when it
    // ran uncancelled to a non-zero exit code other than verify's exit code 1.
    ensures (r.category.Some? && IsFailure(r.category.value))
            <==> Tallyable(mode) && (err.Some? || (!cancelled && rc != 0 && !(mode == Verify && rc == 1)))
  {
    if err.Some? then
      if Contains(Lower(err.value), "not found") then Outcome(NotFound, FailedCategory(mode))
      else Outcome(LaunchErrorText(err.value), FailedCategory(mode))
    else if cancelled then
      Outcome(Cancelled, None)
    else
      var joined := Joined(tail);
      if rc != 0 then
        if mode == Verify && rc == 1 then
          if ExitOneNeedsRepair(joined) then Outcome(VerifyNeedsRepairDone, Some(VerifyNeedRepair))
          else Outcome(VerifyDone, Some(VerifyOk))
        else
          Outcome(Failed(rc), FailedCategory(mode))
      else
        match mode
        case Create => Outcome(CreateDone, None)
        case Verify =>
          if ExitZeroNeedsRepair(joined) then Outcome(VerifyNeedsRepairDone, Some(VerifyNeedRepair))
          else if Contains(joined, "all files are correct") || Contains(joined, "repair is not required") then
            Outcome(VerifyAllCorrect, Some(VerifyOk))
          else Outcome(VerifyDone, Some(VerifyOk))
        case Repair =>
          if Contains(joined, "repair is not required") then Outcome(RepairNotNeeded, Some(RepairNotRequired))
          else if Contains(joined, "repair complete") || Contains(joined, "repair is complete") then
            Outcome(RepairCompleted, Some(RepairRepaired))
          else Outcome(RepairDone, Some(RepairRepaired))
        case Other(_) => Outcome(OtherDone, None)
  }

  /** A launch error beats the cancel flag, the exit code and the output:
      "not found" (any case) gives the installation advice, anything else is
      reported verbatim, and the job is a failure of its kind. */
  lemma {:induction false} LaunchErrorFirst(mode: Mode, rc: int, tail: seq<string>, e: string, cancelled: bool)
    ensures SummarizeOne(mode, rc, tail, Some(e), cancelled)
         == Outcome(if Contains(Lower(e), "not found") then NotFound else LaunchErrorText(e), FailedCategory(mode))
  {
  }

  /** Without a launch error, a pending cancel beats every exit code and output. */
  lemma {:induction false} CancelSecond(mode: Mode, rc: int, tail: seq<string>)
    ensures SummarizeOne(mode, rc, tail, None, true) == Outcome(Cancelled, None)
  {
  }

  /** Verify's exit code 1 is never a failure: it means need-repair exactly when
      the output mentions "repair is required" or "missing", and ok otherwise. */
  lemma {:induction false} VerifyExitOne(tail: seq<string>)
    ensures SummarizeOne(Verify, 1, tail, None, false).category
         == if ExitOneNeedsRepair(Joined(tail)) then Some(VerifyNeedRepair) else Some(VerifyOk)
    ensures SummarizeOne(Verify, 1, tail, None, false).message
         == if ExitOneNeedsRepair(Joined(tail)) then VerifyNeedsRepairDone else VerifyDone
  {
  }

  /** Every other non-zero exit code is a failure of the job's kind. */
  lemma {:induction false} NonZeroExitFails(mode: Mode, rc: int, tail: seq<string>)
    requires rc != 0 && !(mode == Verify && rc == 1)
    ensures SummarizeOne(mode, rc, tail, None, false) == Outcome(Failed(rc), FailedCategory(mode))
  {
  }

  /** Exit code 0: a create job succeeds untallied. */
  lemma {:induction false} CreateExitZero(tail: seq<string>)
    ensures SummarizeOne(Create, 0, tail, None, false) == Outcome(CreateDone, None)
  {
  }

  /** Exit code 0 for verify: the need-repair markers are checked before the
      all-correct markers, and ok is the default. */
  lemma {:induction false} VerifyExitZero(tail: seq<string>)
    ensures var r := SummarizeOne(Verify, 0, tail, None, false);
      && (r.category == Some(VerifyNeedRepair) <==> ExitZeroNeedsRepair(Joined(tail)))
      && (r.category == Some(VerifyOk) <==> !ExitZeroNeedsRepair(Joined(tail)))
      && (r.message == VerifyAllCorrect
          <==> !ExitZeroNeedsRepair(Joined(tail))
               && (Contains(Joined(tail), "all files are correct") || Contains(Joined(tail), "repair is not required")))
  {
  }

  /** Exit code 0 for repair: "repair is not required" is checked before the
      repair-complete markers, and repaired is the default. */
  lemma {:induction false} RepairExitZero(tail: seq<string>)
    ensures var r := SummarizeOne(Repair, 0, tail, None, false);
      && (r.category == Some(RepairNotRequired) <==> Contains(Joined(tail), "repair is not required"))
      && (r.category == Some(RepairRepaired) <==> !Contains(Joined(tail), "repair is not required"))
      && (r.message == RepairNotNeeded <==> Contains(Joined(tail), "repair is not required"))
      && (r.message == RepairCompleted
          <==> !Contains(Joined(tail), "repair is not required")
               && (Contains(Joined(tail), "repair complete") || Contains(Joined(tail), "repair is complete")))
      && (r.message == RepairDone
          <==> !Contains(Joined(tail), "repair is not required")
               && !Contains(Joined(tail), "repair complete") && !Contains(Joined(tail), "repair is complete"))
  {
  }

  /** The joined window of a longer output contains that of a shorter one. */
  lemma {:induction false} JoinedWithin(before: seq<string>, tail: seq<string>, after: seq<string>, marker: string)
    requires Contains(Joined(tail), marker)
    ensures Contains(Joined(before + tail + after), marker)
  {
    ConcatAppend(before + tail, after);
    ConcatAppend(before, tail);
    LowerAppend(Concat(before) + Concat(tail), Concat(after));
    LowerAppend(Concat(before), Concat(tail));
    ContainsWithin(Lower(Concat(before)), Joined(tail), Lower(Concat(after)), marker);
  }

  /** A verify verdict of need-repair is stable: more output around the same
      lines, with the same exit code, never turns it into ok or failed. */
  lemma {:induction false} NeedRepairStable(rc: int, before: seq<string>, tail: seq<string>, after: seq<string>)
    requires SummarizeOne(Verify, rc, tail, None, false).category == Some(VerifyNeedRepair)
    ensures SummarizeOne(Verify, rc, before + tail + after, None, false).category == Some(VerifyNeedRepair)
  {
    var j := Joined(tail);
    if Contains(j, "repair is required") {
      JoinedWithin(before, tail, after, "repair is required");
    } else if Contains(j, "missing") {
      JoinedWithin(before, tail, after, "missing");
    } else {
      JoinedWithin(before, tail, after, "file not found");
    }
  }

  /** Verify's exit codes 0 and 1 give the same category, except when "file not
      found" is the only need-repair marker in the output. */
  lemma {:induction false} VerifyExitCodesAgree(tail: seq<string>)
    ensures var j := Joined(tail);
      (SummarizeOne(Verify, 0, tail, None, false).category == SummarizeOne(Verify, 1, tail, None, false).category)
      <==> (ExitOneNeedsRepair(j) || !Contains(j, "file not found"))
  {
  }
}
