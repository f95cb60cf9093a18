/** `Runner._format_summary` (par2guard.py:568-619): the end-of-batch report
    of a verify or repair batch, built from the per-category label lists. */
module Summary {
  import opened Wrappers
  import opened Text
  import opened Classifier

  /** `_results`: the labels of the batch's jobs, per category, in completion order. */
  datatype Results = Results(
    verifyOk: seq<string>, verifyNeedRepair: seq<string>, verifyFailed: seq<string>,
    repairRepaired: seq<string>, repairNotRequired: seq<string>, repairFailed: seq<string>)
  {
    function Get(c: Category): seq<string> {
      match c
      case VerifyOk => verifyOk
      case VerifyNeedRepair => verifyNeedRepair
      case VerifyFailed => verifyFailed
      case RepairRepaired => repairRepaired
      case RepairNotRequired => repairNotRequired
      case RepairFailed => repairFailed
    }

    /** `_results[c].append(label)`. */
    function Add(c: Category, item: string): (r: Results)
      ensures r.Get(c) == Get(c) + [item]
      ensures forall d :: d != c ==> r.Get(d) == Get(d)
    {
      match c
      case VerifyOk => this.(verifyOk := verifyOk + [item])
      case VerifyNeedRepair => this.(verifyNeedRepair := verifyNeedRepair + [item])
      case VerifyFailed => this.(verifyFailed := verifyFailed + [item])
      case RepairRepaired => this.(repairRepaired := repairRepaired + [item])
      case RepairNotRequired => this.(repairNotRequired := repairNotRequired + [item])
      case RepairFailed => this.(repairFailed := repairFailed + [item])
    }
  }

  /** The six empty lists `run_many` installs. */
  const NoResults := Results([], [], [], [], [], [])

  /** Eight box-drawing horizontal lines (U+2500), as in the banners; the
      closing rules are 37 and 32 of them. */
  const Rule8 := "\U{2500}\U{2500}\U{2500}\U{2500}\U{2500}\U{2500}\U{2500}\U{2500}"

  /** The fixed wording of one kind of summary. */
  datatype Wording = Wording(
    header: string, totalKey: string, firstKey: string, secondKey: string,
    itemsTitle: string, footer: string)

  const VerifyWording := Wording(
    "\n" + Rule8 + " Verification Summary " + Rule8 + "\n",
    "Checked: ", "OK: ", "Require repair: ", "\nItems requiring repair:\n",
    Rule8 + Rule8 + Rule8 + Rule8 + "\U{2500}\U{2500}\U{2500}\U{2500}\U{2500}\n")

  const RepairWording := Wording(
    "\n" + Rule8 + " Repair Summary " + Rule8 + "\n",
    "Processed: ", "Repaired: ", "No repair needed: ", "\nRepaired items:\n",
    Rule8 + Rule8 + Rule8 + Rule8 + "\n")

  const FailedKey := "Failed: "
  const FailedTitle := "\nFailed items:\n"

  /** One line per label, in the order of the list. */
  function Bullets(labels: seq<string>): (r: seq<string>)
    ensures |r| == |labels|
    ensures forall i :: 0 <= i < |labels| ==> r[i] == "- " + labels[i] + "\n"
  {
    if labels == [] then [] else Bullets(labels[..|labels| - 1]) + ["- " + labels[|labels| - 1] + "\n"]
  }

  /** An itemised section, present only for a non-empty list. */
  function Section(title: string, labels: seq<string>): seq<string> {
    if labels == [] then [] else [title] + Bullets(labels)
  }

  function CountLine(key: string, n: nat): string {
    key + NatToString(n) + "\n"
  }

  /** The summary's lines: header, the total, two counts, a failed count when
      there are failures, the itemised list of one category, the itemised
      failures, and the closing rule. */
  function Layout(w: Wording, total: nat, first: seq<string>, second: seq<string>,
                  itemized: seq<string>, failed: seq<string>): seq<string>
  {
    [w.header, w.totalKey + NatToString(total) + " items\n", CountLine(w.firstKey, |first|), CountLine(w.secondKey, |second|)]
    + (if failed != [] then [CountLine(FailedKey, |failed|)] else [])
    + Section(w.itemsTitle, itemized)
    + Section(FailedTitle, failed)
    + [w.footer]
  }

  /** The lines of `_format_summary(mode, total, results)`: a verify summary
      counts ok and need-repair and lists need-repair; any other mode gets the
      repair summary, which counts repaired and not-required and lists repaired. */
  function SummaryLines(mode: Mode, total: nat, r: Results): seq<string> {
    if mode == Verify then
      Layout(VerifyWording, total, r.verifyOk, r.verifyNeedRepair, r.verifyNeedRepair, r.verifyFailed)
    else
      Layout(RepairWording, total, r.repairRepaired, r.repairNotRequired, r.repairRepaired, r.repairFailed)
  }

  function SummaryText(mode: Mode, total: nat, r: Results): string {
    Concat(SummaryLines(mode, total, r))
  }

  /** `lines.append(f"- {x}\n")` for each label. */
  method AppendBullets(lines: seq<string>, labels: seq<string>) returns (out: seq<string>)
    ensures out == lines + Bullets(labels)
  {
    out := lines;
    var i := 0;
    while i < |labels|
      invariant 0 <= i <= |labels|
      invariant out == lines + Bullets(labels[..i])
    {
      out := out + ["- " + labels[i] + "\n"];
      assert labels[..i + 1][..i] == labels[..i];
      i := i + 1;
    }
    assert labels[..|labels|] == labels;
  }

  /** The body shared by both branches of `_format_summary`: the list of lines
      built step by step with the wording `w`. */
  method BuildLayout(w: Wording, total: nat, first: seq<string>, second: seq<string>,
                     itemized: seq<string>, failed: seq<string>) returns (lines: seq<string>)
    ensures lines == Layout(w, total, first, second, itemized, failed)
  {
    lines := [];
    lines := lines + [w.header];
    lines := lines + [w.totalKey + NatToString(total) + " items\n"];
    lines := lines + [w.firstKey + NatToString(|first|) + "\n"];
    lines := lines + [w.secondKey + NatToString(|second|) + "\n"];
    ghost var head := [w.header, w.totalKey + NatToString(total) + " items\n",
                       CountLine(w.firstKey, |first|), CountLine(w.secondKey, |second|)];
    assert lines == head;
    if failed != [] {
      lines := lines + [FailedKey + NatToString(|failed|) + "\n"];
    }
    ghost var counts := head + (if failed != [] then [CountLine(FailedKey, |failed|)] else []);
    assert lines == counts;
    if itemized != [] {
      lines := lines + [w.itemsTitle];
      lines := AppendBullets(lines, itemized);
    }
    ghost var listed := counts + Section(w.itemsTitle, itemized);
    assert lines == listed;
    if failed != [] {
      lines := lines + [FailedTitle];
      lines := AppendBullets(lines, failed);
    }
    ghost var sections := listed + Section(FailedTitle, failed);
    assert lines == sections;
    lines := lines + [w.footer];
    assert lines == sections + [w.footer];
  }

  /** `_format_summary`: the verify wording and lists for a verify batch, the
      repair ones for any other mode, joined into one text. */
  method FormatSummary(mode: Mode, total: nat, results: Results) returns (text: string)
    ensures text == SummaryText(mode, total, results)
  {
    var lines;
    if mode == Verify {
      lines := BuildLayout(VerifyWording, total, results.verifyOk, results.verifyNeedRepair,
                           results.verifyNeedRepair, results.verifyFailed);
    } else {
      lines := BuildLayout(RepairWording, total, results.repairRepaired, results.repairNotRequired,
                           results.repairRepaired, results.repairFailed);
    }
    text := Concat(lines);
  }

  /** Reads back the number on a count line `key + digits + unit`. */
  function ReadCount(line: string, key: string, unit: string): Option<nat> {
    if |key| + |unit| <= |line| && StartsWith(line, key) && EndsWith(line, unit) then
      var digits := line[|key|..|line| - |unit|];
      if IsDigitString(digits) then Some(ParseNat(digits)) else None
    else None
  }

  lemma {:induction false} ReadCountRoundTrip(key: string, n: nat, unit: string)
    ensures ReadCount(key + NatToString(n) + unit, key, unit) == Some(n)
  {
    NatToStringRoundTrip(n);
    var line := key + NatToString(n) + unit;
    assert line[..|key|] == key;
    assert line[|line| - |unit|..] == unit;
    assert line[|key|..|line| - |unit|] == NatToString(n);
  }

  /** Each count line of a summary reads back as the length of its list (and
      the total line as the number of completed jobs); the failed count is the
      fifth line when there are failures. */
  lemma {:induction false} LayoutCounts(w: Wording, total: nat, first: seq<string>, second: seq<string>,
                     itemized: seq<string>, failed: seq<string>)
    ensures var L := Layout(w, total, first, second, itemized, failed);
      && |L| >= 5
      && ReadCount(L[1], w.totalKey, " items\n") == Some(total)
      && ReadCount(L[2], w.firstKey, "\n") == Some(|first|)
      && ReadCount(L[3], w.secondKey, "\n") == Some(|second|)
      && (failed != [] ==> ReadCount(L[4], FailedKey, "\n") == Some(|failed|))
  {
    LayoutHead(w, total, first, second, itemized, failed);
    ReadCountRoundTrip(w.totalKey, total, " items\n");
    ReadCountRoundTrip(w.firstKey, |first|, "\n");
    ReadCountRoundTrip(w.secondKey, |second|, "\n");
    ReadCountRoundTrip(FailedKey, |failed|, "\n");
  }

  /** The first four (or five) lines of a layout. */
  lemma {:induction false} LayoutHead(w: Wording, total: nat, first: seq<string>, second: seq<string>,
                                      itemized: seq<string>, failed: seq<string>)
    ensures var L := Layout(w, total, first, second, itemized, failed);
      && |L| >= 5
      && L[1] == w.totalKey + NatToString(total) + " items\n"
      && L[2] == CountLine(w.firstKey, |first|)
      && L[3] == CountLine(w.secondKey, |second|)
      && (failed != [] ==> L[4] == CountLine(FailedKey, |failed|))
  {
  }

  /** The fixed lines of a wording neither start with the failed count's key
      nor equal the failed section's title. */
  predicate KeepsFailedApart(w: Wording) {
    && (forall s :: s in [w.header, w.itemsTitle, w.footer] ==> !StartsWith(s, FailedKey) && s != FailedTitle)
    && (forall k :: k in [w.totalKey, w.firstKey, w.secondKey] ==> k != [] && k[0] != 'F' && k[0] != '\n')
  }

  lemma {:induction false} VerifyWordingKeepsFailedApart()
    ensures KeepsFailedApart(VerifyWording)
  {
    var w := VerifyWording;
    assert w.header[0] == '\n' && w.header[1] == '\U{2500}';
    assert w.itemsTitle[1] == 'I';
    assert w.footer[0] == '\U{2500}';
  }

  lemma {:induction false} RepairWordingKeepsFailedApart()
    ensures KeepsFailedApart(RepairWording)
  {
    var w := RepairWording;
    assert w.header[0] == '\n' && w.header[1] == '\U{2500}';
    assert w.itemsTitle[1] == 'R';
    assert w.footer[0] == '\U{2500}';
  }

  /** A label line, whatever the label, starts with "- ". */
  lemma {:induction false} BulletsApart(labels: seq<string>, i: int)
    requires 0 <= i < |labels|
    ensures !StartsWith(Bullets(labels)[i], FailedKey) && Bullets(labels)[i] != FailedTitle
  {
    var b := Bullets(labels)[i];
    assert b == "- " + labels[i] + "\n";
    assert b[0] == '-' && FailedKey[0] == 'F' && FailedTitle[0] == '\n';
  }

  /** A "Failed" count line appears exactly when something failed, and so does
      the "Failed items" section. */
  lemma {:induction false} LayoutFailedIff(w: Wording, total: nat, first: seq<string>, second: seq<string>,
                                           itemized: seq<string>, failed: seq<string>)
    requires KeepsFailedApart(w)
    ensures var L := Layout(w, total, first, second, itemized, failed);
      && ((exists i :: 0 <= i < |L| && StartsWith(L[i], FailedKey)) <==> failed != [])
      && (FailedTitle in L <==> failed != [])
  {
    var L := Layout(w, total, first, second, itemized, failed);
    if failed != [] {
      LayoutHead(w, total, first, second, itemized, failed);
      var line := CountLine(FailedKey, |failed|);
      assert line[..|FailedKey|] == FailedKey;
      assert StartsWith(L[4], FailedKey);
      assert L[4 + |Section(w.itemsTitle, itemized)| + 1] == FailedTitle;
    } else {
      NothingFailedApart(w, total, first, second, itemized);
    }
  }

  /** Without failures no line of a layout starts with the failed count's key
      or is the failed section's title. */
  lemma {:induction false} NothingFailedApart(w: Wording, total: nat, first: seq<string>, second: seq<string>,
                                              itemized: seq<string>)
    requires KeepsFailedApart(w)
    ensures var L := Layout(w, total, first, second, itemized, []);
      forall i :: 0 <= i < |L| ==> !StartsWith(L[i], FailedKey) && L[i] != FailedTitle
  {
    var L := Layout(w, total, first, second, itemized, []);
    var head := [w.header, w.totalKey + NatToString(total) + " items\n", CountLine(w.firstKey, |first|), CountLine(w.secondKey, |second|)];
    assert L == head + Section(w.itemsTitle, itemized) + [w.footer];
    forall i | 0 <= i < |L| ensures !StartsWith(L[i], FailedKey) && L[i] != FailedTitle {
      if i == 0 || i == |L| - 1 {
        assert L[i] in [w.header, w.itemsTitle, w.footer];
      } else if i < 4 {
        var k := [w.totalKey, w.firstKey, w.secondKey][i - 1];
        assert k in [w.totalKey, w.firstKey, w.secondKey];
        assert L[i][0] == k[0];
      } else if i == 4 {
        assert L[i] == w.itemsTitle;
        assert L[i] in [w.header, w.itemsTitle, w.footer];
      } else {
        assert L[i] == Bullets(itemized)[i - 5];
        BulletsApart(itemized, i - 5);
      }
    }
  }

  /** The layout's shape: after the four (or, with failures, five) count lines
      come the title and one line per label of the itemised list, in order, then
      the failed title and one line per failed label, then the closing rule. */
  lemma {:induction false} LayoutLists(w: Wording, total: nat, first: seq<string>, second: seq<string>,
                    itemized: seq<string>, failed: seq<string>)
    ensures var L := Layout(w, total, first, second, itemized, failed);
      var p := if failed != [] then 5 else 4;
      var q := p + (if itemized != [] then |itemized| + 1 else 0);
      && |L| == q + (if failed != [] then |failed| + 1 else 0) + 1
      && L[0] == w.header && L[|L| - 1] == w.footer
      && (itemized != [] ==> L[p] == w.itemsTitle && L[p + 1..q] == Bullets(itemized))
      && (failed != [] ==> L[q] == FailedTitle && L[q + 1..|L| - 1] == Bullets(failed))
  {
    var L := Layout(w, total, first, second, itemized, failed);
    var head := [w.header, w.totalKey + NatToString(total) + " items\n", CountLine(w.firstKey, |first|), CountLine(w.secondKey, |second|)];
    if failed != [] {
      ListsPlaced(L, head + [CountLine(FailedKey, |failed|)], w.itemsTitle, itemized, FailedTitle, failed, w.footer);
    } else {
      assert head + [] == head;
      ListsPlaced(L, head, w.itemsTitle, itemized, FailedTitle, failed, w.footer);
    }
  }

  /** Where two sections sit after the count lines. */
  lemma {:induction false} ListsPlaced(L: seq<string>, counts: seq<string>, t1: string, a: seq<string>,
                                       t2: string, b: seq<string>, footer: string)
    requires counts != [] && L == counts + Section(t1, a) + Section(t2, b) + [footer]
    ensures L[0] == counts[0]
    ensures var p := |counts|;
      var q := p + (if a != [] then |a| + 1 else 0);
      && |L| == q + (if b != [] then |b| + 1 else 0) + 1 && L[|L| - 1] == footer
      && (a != [] ==> L[p] == t1 && L[p + 1..q] == Bullets(a))
      && (b != [] ==> L[q] == t2 && L[q + 1..|L| - 1] == Bullets(b))
  {
    SectionShape(t1, a);
    SectionShape(t2, b);
    SectionsApart(L, counts, Section(t1, a), Section(t2, b), footer);
  }

  lemma {:induction false} SectionShape(title: string, labels: seq<string>)
    ensures |Section(title, labels)| == if labels != [] then |labels| + 1 else 0
    ensures labels != [] ==> Section(title, labels)[0] == title && Section(title, labels)[1..] == Bullets(labels)
  {
  }

  /** Where the pieces of a layout sit in it. */
  lemma {:induction false} SectionsApart(L: seq<string>, counts: seq<string>, s1: seq<string>, s2: seq<string>, footer: string)
    requires L == counts + s1 + s2 + [footer]
    ensures |L| == |counts| + |s1| + |s2| + 1 && L[|L| - 1] == footer
    ensures s1 != [] ==> L[|counts|] == s1[0] && L[|counts| + 1..|counts| + |s1|] == s1[1..]
    ensures s2 != [] ==> L[|counts| + |s1|] == s2[0] && L[|counts| + |s1| + 1..|L| - 1] == s2[1..]
  {
    var p := |counts|;
    var q := p + |s1|;
    assert L[p..q] == s1;
    assert L[q..|L| - 1] == s2;
  }

  /** A verify summary: "Checked" reads back the number of completed jobs,
      "OK" and "Require repair" the lengths of their lists, a "Failed" count and
      a "Failed items" section appear exactly when a verify job failed, and the
      items requiring repair are listed in completion order. */
  lemma {:induction false} VerifySummary(total: nat, r: Results)
    ensures var L := SummaryLines(Verify, total, r);
      var p := if r.verifyFailed != [] then 5 else 4;
      && ReadCount(L[1], "Checked: ", " items\n") == Some(total)
      && ReadCount(L[2], "OK: ", "\n") == Some(|r.verifyOk|)
      && ReadCount(L[3], "Require repair: ", "\n") == Some(|r.verifyNeedRepair|)
      && (r.verifyFailed != [] ==> ReadCount(L[4], FailedKey, "\n") == Some(|r.verifyFailed|))
      && ((exists i :: 0 <= i < |L| && StartsWith(L[i], FailedKey)) <==> r.verifyFailed != [])
      && (FailedTitle in L <==> r.verifyFailed != [])
      && (r.verifyNeedRepair != [] ==>
            L[p] == "\nItems requiring repair:\n"
            && L[p + 1..p + 1 + |r.verifyNeedRepair|] == Bullets(r.verifyNeedRepair))
  {
    var w := VerifyWording;
    LayoutCounts(w, total, r.verifyOk, r.verifyNeedRepair, r.verifyNeedRepair, r.verifyFailed);
    VerifyWordingKeepsFailedApart();
    LayoutFailedIff(w, total, r.verifyOk, r.verifyNeedRepair, r.verifyNeedRepair, r.verifyFailed);
    LayoutLists(w, total, r.verifyOk, r.verifyNeedRepair, r.verifyNeedRepair, r.verifyFailed);
  }

  /** A repair summary (the one every mode but verify gets): "Processed" reads
      back the number of completed jobs, "Repaired" and "No repair needed" the
      lengths of their lists, failures show exactly when a repair job failed,
      and the repaired items are listed in completion order. */
  lemma {:induction false} RepairSummary(mode: Mode, total: nat, r: Results)
    requires mode != Verify
    ensures var L := SummaryLines(mode, total, r);
      var p := if r.repairFailed != [] then 5 else 4;
      && ReadCount(L[1], "Processed: ", " items\n") == Some(total)
      && ReadCount(L[2], "Repaired: ", "\n") == Some(|r.repairRepaired|)
      && ReadCount(L[3], "No repair needed: ", "\n") == Some(|r.repairNotRequired|)
      && (r.repairFailed != [] ==> ReadCount(L[4], FailedKey, "\n") == Some(|r.repairFailed|))
      && ((exists i :: 0 <= i < |L| && StartsWith(L[i], FailedKey)) <==> r.repairFailed != [])
      && (FailedTitle in L <==> r.repairFailed != [])
      && (r.repairRepaired != [] ==>
            L[p] == "\nRepaired items:\n"
            && L[p + 1..p + 1 + |r.repairRepaired|] == Bullets(r.repairRepaired))
  {
    var w := RepairWording;
    LayoutCounts(w, total, r.repairRepaired, r.repairNotRequired, r.repairRepaired, r.repairFailed);
    RepairWordingKeepsFailedApart();
    LayoutFailedIff(w, total, r.repairRepaired, r.repairNotRequired, r.repairRepaired, r.repairFailed);
    LayoutLists(w, total, r.repairRepaired, r.repairNotRequired, r.repairRepaired, r.repairFailed);
  }
}
