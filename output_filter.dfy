/** The per-job output handling of `Runner._start.worker` (par2guard.py:398-475):
    the bounded trailing window kept for classification (`keep_tail`), the
    display filter (`should_show`) and the batched forwarding of shown lines to
    the log (`flush`). */
module OutputFilter {
  import opened Text

  /** `keep_tail`: once the window holds more than `TailCap` lines, the oldest
      `TailDrop` are deleted. */
  const TailCap := 300
  const TailDrop := 60
  /** `flush` forwards the buffer once it holds this many lines. */
  const FlushLines := 60

  /** The lines shown in quiet mode start (after `strip()`) with one of these. */
  const ImportantPrefixes: seq<string> := [
    "Block size:",
    "Source file count:",
    "Source block count:",
    "Recovery block count:",
    "Recovery file count:",
    "There are",
    "All files are correct",
    "Repair is required",
    "Repair completed",
    "Repair not required",
    "Verification complete",
    "Parity files created successfully"]

  predicate HasImportantPrefix(s: string) {
    exists i :: 0 <= i < |ImportantPrefixes| && StartsWith(s, ImportantPrefixes[i])
  }

  /** `should_show`, with `verbose` the value `is_verbose()` returns for this line. */
  predicate ShouldShow(line: string, verbose: bool) {
    if verbose then true
    else
      var stripped := Strip(line);
      if stripped == "" then false
      else HasImportantPrefix(stripped)
  }

  /** Verbose mode shows every line; quiet mode hides whitespace-only lines and
      otherwise shows a line exactly when its stripped text starts with an
      important prefix. */
  lemma {:induction false} ShouldShowSpec(line: string, verbose: bool)
    ensures verbose ==> ShouldShow(line, verbose)
    ensures !verbose && AllSpace(line) ==> !ShouldShow(line, verbose)
    ensures !verbose ==> (ShouldShow(line, verbose) <==> HasImportantPrefix(Strip(line)))
  {
    StripEmptyIff(line);
  }

  /** The lines among `lines` that `should_show` lets through, in order. */
  function Shown(lines: seq<string>, verbose: seq<bool>): (r: seq<string>)
    requires |verbose| == |lines|
    ensures |r| <= |lines|
  {
    if lines == [] then []
    else
      var n := |lines| - 1;
      Shown(lines[..n], verbose[..n]) + (if ShouldShow(lines[n], verbose[n]) then [lines[n]] else [])
  }

  /** Extending the output by one line extends what is shown by at most that line. */
  lemma {:induction false} ShownStep(lines: seq<string>, verbose: seq<bool>, i: nat)
    requires |verbose| == |lines| && i < |lines|
    ensures Shown(lines[..i + 1], verbose[..i + 1])
         == Shown(lines[..i], verbose[..i]) + (if ShouldShow(lines[i], verbose[i]) then [lines[i]] else [])
  {
    assert lines[..i + 1][..i] == lines[..i];
    assert verbose[..i + 1][..i] == verbose[..i];
  }

  /** One `keep_tail(line)` call on the window `tail`. */
  function KeepTailStep(tail: seq<string>, line: string): seq<string> {
    var t := tail + [line];
    if |t| > TailCap then t[TailDrop..] else t
  }

  /** The window after `keep_tail` has been called on each of `lines` in turn. */
  function TailOf(lines: seq<string>): seq<string> {
    if lines == [] then [] else KeepTailStep(TailOf(lines[..|lines| - 1]), lines[|lines| - 1])
  }

  /** Closed form of the window's length after `n` lines: it grows to 301, drops
      to 241, and from then on cycles through 241..300. */
  function TailLength(n: nat): (r: nat)
    ensures r <= n && r <= TailCap
    ensures r >= if n < TailCap - TailDrop + 1 then n else TailCap - TailDrop + 1
  {
    if n <= TailCap then n else TailCap - TailDrop + 1 + (n - TailCap - 1) % TailDrop
  }

  /** One more line moves the closed form on by one `keep_tail` step. */
  lemma {:induction false} TailLengthStep(m: nat)
    ensures TailLength(m + 1) == if TailLength(m) + 1 > TailCap then TailLength(m) + 1 - TailDrop else TailLength(m) + 1
  {
    if m > TailCap {
      var k := m - TailCap - 1;
      assert (k + 1) % TailDrop == if k % TailDrop == TailDrop - 1 then 0 else k % TailDrop + 1;
    }
  }

  /** A window that is the last `n` of the first `m` lines becomes, after
      `keep_tail(lines[m])`, a suffix of the first `m + 1` lines. */
  lemma {:induction false} KeepTailSuffix(lines: seq<string>, m: nat, n: nat)
    requires m < |lines| && n <= m
    ensures var t := KeepTailStep(lines[m - n..m], lines[m]);
      t == lines[m + 1 - |t|..m + 1] && |t| == if n + 1 > TailCap then n + 1 - TailDrop else n + 1
  {
    assert lines[m - n..m] + [lines[m]] == lines[m - n..m + 1];
  }

  /** The window is exactly the last `TailLength(|lines|)` lines seen, in order. */
  lemma {:induction false} TailOfIsSuffix(lines: seq<string>)
    ensures |TailOf(lines)| == TailLength(|lines|)
    ensures TailOf(lines) == lines[|lines| - TailLength(|lines|)..]
  {
    if lines != [] {
      var m := |lines| - 1;
      TailOfIsSuffix(lines[..m]);
      assert lines[..m][m - TailLength(m)..] == lines[m - TailLength(m)..m];
      KeepTailSuffix(lines, m, TailLength(m));
      TailLengthStep(m);
    }
  }

  /** The bounds on the window: at most 300 lines, at least min(N, 241) of the N
      seen, and a contiguous suffix of them. */
  lemma {:induction false} TailBounds(lines: seq<string>)
    ensures |TailOf(lines)| <= TailCap
    ensures |TailOf(lines)| >= if |lines| < TailCap - TailDrop + 1 then |lines| else TailCap - TailDrop + 1
    ensures exists k :: 0 <= k <= |lines| && TailOf(lines) == lines[k..]
  {
    TailOfIsSuffix(lines);
  }

  /** Overflowing the window deletes exactly its oldest 60 lines. */
  lemma {:induction false} KeepTailOverflow(tail: seq<string>, line: string)
    requires |tail| == TailCap
    ensures KeepTailStep(tail, line) == tail[TailDrop..] + [line]
    ensures |KeepTailStep(tail, line)| == TailCap - TailDrop + 1
  {
  }

  /** The worker's local state for one job: the trailing window `tail`, the
      display buffer `buf`, and the chunks of text it has posted to `on_text`
      (`texts`). The ghost fields record every line read (`seen`), every line
      that passed the filter (`shown`), and the shown lines already posted. */
  class JobOutput {
    var tail: seq<string>
    var buf: seq<string>
    var texts: seq<string>
    ghost var seen: seq<string>
    ghost var shown: seq<string>
    ghost var posted: seq<string>

    ghost predicate Valid()
      reads this
    {
      && tail == TailOf(seen)
      && posted + buf == shown
      && Concat(texts) == Concat(posted)
      && |buf| < FlushLines
    }

    constructor ()
      ensures Valid()
      ensures tail == [] && buf == [] && texts == []
      ensures seen == [] && shown == [] && posted == []
    {
      tail, buf, texts := [], [], [];
      seen, shown, posted := [], [], [];
    }

    /** `keep_tail(line)`. */
    method KeepTail(line: string)
      modifies this
      ensures tail == KeepTailStep(old(tail), line)
      ensures seen == old(seen) + [line]
      ensures buf == old(buf) && texts == old(texts) && shown == old(shown) && posted == old(posted)
    {
      tail := tail + [line];
      if |tail| > TailCap {
        tail := tail[TailDrop..];
      }
      seen := seen + [line];
    }

    /** `flush(force)`, with `timeUp` standing for "0.12 s have passed since the
        last flush". An empty buffer posts nothing; otherwise the whole buffer is
        posted as one chunk when forced, when it holds 60 lines or more, or when
        the time is up. */
    method Flush(force: bool, timeUp: bool)
      requires posted + buf == shown && Concat(texts) == Concat(posted)
      modifies this
      ensures posted + buf == shown && Concat(texts) == Concat(posted)
      ensures var fires := old(buf) != [] && (force || |old(buf)| >= FlushLines || timeUp);
        && (fires ==> buf == [] && texts == old(texts) + [Concat(old(buf))] && posted == old(posted) + old(buf))
        && (!fires ==> buf == old(buf) && texts == old(texts) && posted == old(posted))
      ensures tail == old(tail) && seen == old(seen) && shown == old(shown)
    {
      if buf == [] {
        return;
      }
      if force || |buf| >= FlushLines || timeUp {
        var text := Concat(buf);
        ConcatAppend(posted, buf);
        ConcatAppend(texts, [text]);
        posted := posted + buf;
        buf := [];
        texts := texts + [text];
      }
    }

    /** One iteration of the worker's read loop: keep the line in the window,
        buffer it if it is shown, then `flush(False)`. */
    method FeedLine(line: string, verbose: bool, timeUp: bool)
      requires Valid()
      modifies this
      ensures Valid()
      ensures seen == old(seen) + [line]
      ensures shown == old(shown) + (if ShouldShow(line, verbose) then [line] else [])
      ensures var b := old(buf) + (if ShouldShow(line, verbose) then [line] else []);
        var fires := b != [] && (|b| >= FlushLines || timeUp);
        && (fires ==> buf == [] && texts == old(texts) + [Concat(b)])
        && (!fires ==> buf == b && texts == old(texts))
      ensures old(texts) <= texts
    {
      ghost var t0 := texts;
      ghost var b := buf + (if ShouldShow(line, verbose) then [line] else []);
      KeepTail(line);
      if ShouldShow(line, verbose) {
        buf := buf + [line];
        shown := shown + [line];
      }
      assert buf == b && texts == t0;
      Flush(false, timeUp);
    }

    /** The worker's read loop: `FeedLine` on each of `lines` in turn. */
    method FeedAll(lines: seq<string>, verbose: seq<bool>, timeUp: seq<bool>)
      requires Valid() && seen == [] && shown == []
      requires |verbose| == |lines| && |timeUp| == |lines|
      modifies this
      ensures Valid() && seen == lines && shown == Shown(lines, verbose)
      ensures old(texts) <= texts
    {
      var i := 0;
      while i < |lines|
        invariant 0 <= i <= |lines|
        invariant Valid()
        invariant old(texts) <= texts
        invariant seen == lines[..i]
        invariant shown == Shown(lines[..i], verbose[..i])
      {
        FeedLine(lines[i], verbose[i], timeUp[i]);
        assert lines[..i + 1] == lines[..i] + [lines[i]];
        ShownStep(lines, verbose, i);
        i := i + 1;
      }
      assert lines[..|lines|] == lines && verbose[..|verbose|] == verbose;
    }

    /** The `flush(True)` after the process exits: afterwards every shown line
        has been posted, exactly once and in order. */
    method Finish()
      requires Valid()
      modifies this
      ensures Valid()
      ensures buf == [] && Concat(texts) == Concat(shown)
      ensures texts == old(texts) + (if old(buf) != [] then [Concat(old(buf))] else [])
      ensures tail == old(tail) && seen == old(seen) && shown == old(shown)
    {
      Flush(true, false);
      assert posted == shown;
    }
  }

  /** The worker's whole read loop over the job's output `lines`, with the
      verbosity and the timer consulted once per line, followed by the final
      forced flush. It returns the window handed to the classifier and the
      chunks posted to the log. */
  method StreamOutput(lines: seq<string>, verbose: seq<bool>, timeUp: seq<bool>)
    returns (tail: seq<string>, texts: seq<string>)
    requires |verbose| == |lines| && |timeUp| == |lines|
    ensures tail == TailOf(lines)
    ensures Concat(texts) == Concat(Shown(lines, verbose))
  {
    var out := new JobOutput();
    out.FeedAll(lines, verbose, timeUp);
    out.Finish();
    tail, texts := out.tail, out.texts;
  }

}
