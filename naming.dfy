/** The pure name helpers: grouping PAR2 file names into sets
    (`par2_set_key_from_filename`, par2guard.py:177-187) and the archive base
    name of a folder (`DISC_RE` and `derive_archive_base`, par2guard.py:62-103). */
module Naming {
  import opened Text

  /** `s.split(sep, 1)[0]`: `s` up to the first occurrence of `sep`, or all of it. */
  function BeforeFirst(s: string, sep: string): string
    requires sep != ""
    decreases |s|
  {
    if s == [] || StartsWith(s, sep) then "" else [s[0]] + BeforeFirst(s[1..], sep)
  }

  /** The result is a prefix of `s` in which `sep` does not start, followed in
      `s` by `sep` unless it is all of `s`. */
  lemma {:induction false} BeforeFirstSpec(s: string, sep: string)
    requires sep != ""
    ensures var r := BeforeFirst(s, sep);
      && StartsWith(s, r)
      && (forall i :: 0 <= i < |r| ==> !OccursAt(s, sep, i))
      && (r == s || OccursAt(s, sep, |r|))
    decreases |s|
  {
    if s != [] && !StartsWith(s, sep) {
      BeforeFirstSpec(s[1..], sep);
      var r := BeforeFirst(s, sep);
      var t := BeforeFirst(s[1..], sep);
      assert r == [s[0]] + t;
      forall i | 0 <= i < |r| ensures !OccursAt(s, sep, i) {
        if i > 0 && OccursAt(s, sep, i) {
          DropFirstSlice(s, i, i + |sep|);
          assert OccursAt(s[1..], sep, i - 1);
        }
      }
      if t != s[1..] {
        DropFirstSlice(s, |r|, |r| + |sep|);
      }
    }
  }

  /** A slice of `s[1..]` is the slice of `s` one position further on. */
  lemma {:induction false} DropFirstSlice(s: string, j: int, k: int)
    requires 1 <= j <= k <= |s|
    ensures s[1..][j - 1..k - 1] == s[j..k]
  {
    forall n | 0 <= n < k - j
      ensures s[1..][j - 1..k - 1][n] == s[j..k][n]
    {
      assert s[1..][j - 1 + n] == s[j + n];
    }
  }

  /** With `sep` first occurring at `k`, the split keeps exactly `s[..k]`; with
      no occurrence at all, it keeps all of `s`. */
  lemma {:induction false} SplitAtFirst(s: string, sep: string, k: int)
    requires sep != ""
    requires OccursAt(s, sep, k) && forall i :: 0 <= i < k ==> !OccursAt(s, sep, i)
    ensures BeforeFirst(s, sep) == s[..k]
  {
    BeforeFirstSpec(s, sep);
  }

  lemma {:induction false} SplitWithout(s: string, sep: string)
    requires sep != "" && !Contains(s, sep)
    ensures BeforeFirst(s, sep) == s
  {
    BeforeFirstSpec(s, sep);
    ContainsIff(s, sep);
  }

  const ParExt := ".par2"
  const VolMark := ".vol"

  /** `par2_set_key_from_filename`: drop a trailing ".par2" (in any case), then
      keep what precedes the first ".vol". */
  function Par2SetKey(name: string): string {
    var stem := if EndsWith(Lower(name), ParExt) then name[..|name| - |ParExt|] else name;
    BeforeFirst(stem, VolMark)
  }

  /** ".vol" cannot start inside `base` when it does not occur in `base` and a
      ".vol" follows it: its only '.' is its first character. */
  lemma {:induction false} NoEarlierVolMark(base: string, rest: string)
    requires !Contains(base, VolMark)
    ensures forall i :: 0 <= i < |base| ==> !OccursAt(base + VolMark + rest, VolMark, i)
  {
    ContainsIff(base, VolMark);
    var s := base + VolMark + rest;
    forall i | 0 <= i < |base| ensures !OccursAt(s, VolMark, i) {
      if i + |VolMark| <= |base| {
        assert s[i..i + |VolMark|] == base[i..i + |VolMark|];
        assert !OccursAt(base, VolMark, i);
      } else if i + |VolMark| <= |s| {
        var j := |base| - i;
        assert 1 <= j <= 3 && VolMark[j] != '.';
        assert s[i..i + |VolMark|][j] == s[|base|] == '.';
      }
    }
  }

  /** The index file `base.par2` and every volume `base.volNN+MM.par2` (the
      extension in any case) share the key `base`, when `base` has no ".vol". */
  lemma {:induction false} SetKeyGroupsVolumes(base: string, volume: string, ext: string)
    requires !Contains(base, VolMark) && Lower(ext) == ParExt
    ensures Par2SetKey(base + ext) == base
    ensures Par2SetKey(base + VolMark + volume + ext) == base
  {
    var index := base + ext;
    LowerAppend(base, ext);
    assert Lower(index)[|index| - |ParExt|..] == Lower(ext);
    assert index[..|index| - |ParExt|] == base;
    SplitWithout(base, VolMark);
    var file := base + VolMark + volume + ext;
    LowerAppend(base + VolMark + volume, ext);
    assert Lower(file)[|file| - |ParExt|..] == Lower(ext);
    var stem := file[..|file| - |ParExt|];
    assert stem == base + VolMark + volume;
    NoEarlierVolMark(base, volume);
    assert OccursAt(stem, VolMark, |base|) by {
      assert stem[|base|..|base| + |VolMark|] == VolMark;
    }
    SplitAtFirst(stem, VolMark, |base|);
    assert stem[..|base|] == base;
  }

  /** Matching a character of the pattern under `re.IGNORECASE`: the letters of
      "disc", "disk" and "cd" also match their upper case, and 'i', 's' and 'k'
      also match the characters Python's case folding groups with them
      (U+0130, U+0131; U+017F; U+212A). */
  predicate CaseEq(c: char, p: char) {
    if p == 'i' then c == 'i' || c == 'I' || c == '\U{130}' || c == '\U{131}'
    else if p == 's' then c == 's' || c == 'S' || c == '\U{17F}'
    else if p == 'k' then c == 'k' || c == 'K' || c == '\U{212A}'
    else if 'a' <= p <= 'z' then c == p || c == (p as int - 32) as char
    else c == p
  }

  predicate WordIs(s: string, w: string) {
    |s| == |w| && forall i :: 0 <= i < |w| ==> CaseEq(s[i], w[i])
  }

  predicate IsDiscWord(s: string) {
    WordIs(s, "disc") || WordIs(s, "disk") || WordIs(s, "cd")
  }

  predicate AllDigits(s: string) {
    forall i :: 0 <= i < |s| ==> IsDecimalDigit(s[i])
  }

  /** `DISC_RE.match(s)`, for `^(disc|disk|cd)\s*\d+$` with `re.IGNORECASE`: a
      disc word, any whitespace, at least one decimal digit, and then the end
      of the string or a single final newline (where `$` also matches). */
  predicate IsDiscName(s: string) {
    exists a, b, c :: 0 <= a <= b < c <= |s| && IsDiscWord(s[..a]) && AllSpace(s[a..b])
      && AllDigits(s[b..c]) && (c == |s| || s[c..] == "\n")
  }

  /** The length of the disc word `s` starts with, or 0. */
  function DiscWordLength(s: string): nat {
    if |s| >= 4 && (WordIs(s[..4], "disc") || WordIs(s[..4], "disk")) then 4
    else if |s| >= 2 && WordIs(s[..2], "cd") then 2
    else 0
  }

  /** The first position at or after `i` where `s` does not hold a character of `cls`. */
  function SkipSpaces(s: string, i: nat): (j: nat)
    requires i <= |s|
    ensures i <= j <= |s| && (j < |s| ==> !IsSpace(s[j]))
    ensures forall k :: i <= k < j ==> IsSpace(s[k])
    decreases |s| - i
  {
    if i < |s| && IsSpace(s[i]) then SkipSpaces(s, i + 1) else i
  }

  function SkipDigits(s: string, i: nat): (j: nat)
    requires i <= |s|
    ensures i <= j <= |s| && (j < |s| ==> !IsDecimalDigit(s[j]))
    ensures forall k :: i <= k < j ==> IsDecimalDigit(s[k])
    decreases |s| - i
  {
    if i < |s| && IsDecimalDigit(s[i]) then SkipDigits(s, i + 1) else i
  }

  /** The matcher, scanning left to right as the regular expression engine does. */
  predicate DiscMatch(s: string) {
    var a := DiscWordLength(s);
    a > 0 &&
      var b := SkipSpaces(s, a);
      var c := SkipDigits(s, b);
      c > b && (c == |s| || (c == |s| - 1 && s[c] == '\n'))
  }

  /** No character is both whitespace and a decimal digit. */
  lemma {:induction false} SpaceNotDigit(c: char)
    ensures IsSpace(c) ==> !IsDecimalDigit(c)
  {
  }

  /** A disc word is one of exactly two lengths, told apart by its first letter. */
  lemma {:induction false} DiscWordUnique(s: string, a: nat)
    requires a <= |s| && IsDiscWord(s[..a])
    ensures DiscWordLength(s) == a
  {
    assert s[..a][0] == s[0];
    if a == 2 {
      assert !CaseEq(s[0], 'd');
      assert s[..2] == s[..a];
    } else {
      assert a == 4;
      assert s[..4] == s[..a];
    }
  }

  /** What the matcher accepts, the regular expression matches. */
  lemma {:induction false} DiscMatchSound(s: string)
    requires DiscMatch(s)
    ensures IsDiscName(s)
  {
    var a := DiscWordLength(s);
    var b := SkipSpaces(s, a);
    var c := SkipDigits(s, b);
    assert IsDiscWord(s[..a]) by {
      if a == 4 { assert s[..a] == s[..4]; } else { assert s[..a] == s[..2]; }
    }
    assert AllSpace(s[a..b]);
    assert AllDigits(s[b..c]);
    assert c == |s| || s[c..] == "\n";
  }

  /** The matcher stops where a match of the regular expression splits `s`. */
  lemma {:induction false} DiscMatchScan(s: string, a: nat, b: nat, c: nat)
    requires a <= b < c <= |s| && AllSpace(s[a..b]) && AllDigits(s[b..c])
    requires c == |s| || s[c..] == "\n"
    ensures SkipSpaces(s, a) == b && SkipDigits(s, b) == c
  {
    assert forall k :: a <= k < b ==> IsSpace(s[k]) by {
      forall k | a <= k < b ensures IsSpace(s[k]) { assert s[a..b][k - a] == s[k]; }
    }
    assert forall k :: b <= k < c ==> IsDecimalDigit(s[k]) by {
      forall k | b <= k < c ensures IsDecimalDigit(s[k]) { assert s[b..c][k - b] == s[k]; }
    }
    SpaceNotDigit(s[b]);
    assert !IsSpace(s[b]);
    assert c < |s| ==> s[c] == s[c..][0] == '\n';
  }

  /** What the regular expression matches, the matcher accepts. */
  lemma {:induction false} DiscMatchComplete(s: string)
    requires IsDiscName(s)
    ensures DiscMatch(s)
  {
    var a, b, c :| 0 <= a <= b < c <= |s| && IsDiscWord(s[..a]) && AllSpace(s[a..b])
      && AllDigits(s[b..c]) && (c == |s| || s[c..] == "\n");
    DiscWordUnique(s, a);
    DiscMatchScan(s, a, b, c);
  }

  /** The matcher accepts exactly the names the regular expression matches. */
  lemma {:induction false} DiscMatchIff(s: string)
    ensures DiscMatch(s) <==> IsDiscName(s)
  {
    if DiscMatch(s) {
      DiscMatchSound(s);
    }
    if IsDiscName(s) {
      DiscMatchComplete(s);
    }
  }

  /** `folder.name`, for a folder given by the names of its path components. */
  function FolderName(folder: seq<string>): string {
    if folder == [] then "" else folder[|folder| - 1]
  }

  /** `folder.parent.name`. */
  function ParentName(folder: seq<string>): string {
    if |folder| < 2 then "" else folder[|folder| - 2]
  }

  /** `derive_archive_base`: the user's base name unless there are several
      folders; otherwise the folder's name, prefixed by its parent's name when
      the folder is a disc folder with a named parent. */
  function DeriveArchiveBase(folder: seq<string>, userBase: string, multi: bool): (r: string)
    ensures userBase != "" && !multi ==> r == userBase
    ensures (userBase == "" || multi) && IsDiscName(FolderName(folder)) && ParentName(folder) != "" ==>
      r == ParentName(folder) + " - " + FolderName(folder)
    ensures (userBase == "" || multi) && !(IsDiscName(FolderName(folder)) && ParentName(folder) != "") ==>
      r == FolderName(folder)
  {
    if userBase != "" && !multi then userBase
    else
      var name := FolderName(folder);
      var parent := ParentName(folder);
      DiscMatchIff(name);
      if DiscMatch(name) && parent != "" then parent + " - " + name else name
  }

  /** "Disc 2" names a disc folder. */
  lemma {:induction false} DiscNameExample()
    ensures IsDiscName("Disc 2")
  {
    DiscTwoScan("Disc 2");
    DiscMatchSound("Disc 2");
  }

  /** How the matcher scans a name that starts with "Disc 2" and has no
      further digit right after it. */
  lemma {:induction false} DiscTwoScan(s: string)
    requires |s| >= 6 && s[..6] == "Disc 2" && (|s| == 6 || s[6] == ' ')
    ensures DiscWordLength(s) == 4 && SkipSpaces(s, 4) == 5 && SkipDigits(s, 5) == 6
  {
    assert WordIs(s[..4], "disc") by { assert s[..4] == "Disc"; }
    assert s[4] == ' ' && s[5] == '2';
    assert SkipSpaces(s, 5) == 5;
    assert SkipDigits(s, 6) == 6 by {
      if |s| > 6 { SpaceNotDigit(s[6]); }
    }
  }

  /** `$` also matches before a final newline. */
  lemma {:induction false} DiscNameNewlineExample()
    ensures IsDiscName("cd12\n")
  {
    var t := "cd12\n";
    assert !WordIs(t[..4], "disc") by { assert t[..4] == "cd12"; assert !CaseEq(t[0], 'd'); }
    assert !WordIs(t[..4], "disk") by { assert t[..4] == "cd12"; assert !CaseEq(t[0], 'd'); }
    assert WordIs(t[..2], "cd") by { assert t[..2] == "cd"; }
    assert SkipSpaces(t, 2) == 2;
    assert SkipDigits(t, 4) == 4;
    assert SkipDigits(t, 3) == 4;
    assert SkipDigits(t, 2) == 4;
    DiscMatchSound(t);
  }

  /** Anything after the number keeps a name from naming a disc folder. */
  lemma {:induction false} NotDiscNameExample()
    ensures !IsDiscName("Disc 2 extras")
  {
    var u := "Disc 2 extras";
    DiscTwoScan(u);
    DiscMatchIff(u);
  }

  /** A disc folder takes its parent's name, unless the user's base name
      applies to a single folder. */
  lemma {:induction false} DiscFolderExample()
    ensures DeriveArchiveBase(["Movies", "Disc 2"], "", false) == "Movies - Disc 2"
    ensures DeriveArchiveBase(["Movies", "Disc 2"], "backup", true) == "Movies - Disc 2"
    ensures DeriveArchiveBase(["Movies", "Disc 2"], "backup", false) == "backup"
  {
    assert "Movies" + " - Disc 2" == "Movies - Disc 2";
    DiscFolderUnder(["Movies", "Disc 2"], "Movies");
  }

  /** A folder "Disc 2" under a named parent, whatever its full path. */
  lemma {:induction false} DiscFolderUnder(f: seq<string>, parent: string)
    requires FolderName(f) == "Disc 2" && ParentName(f) == parent && parent != ""
    ensures DeriveArchiveBase(f, "", false) == parent + " - Disc 2"
    ensures DeriveArchiveBase(f, "backup", true) == parent + " - Disc 2"
    ensures DeriveArchiveBase(f, "backup", false) == "backup"
  {
    DiscNameExample();
  }

  /** Other folders, and a disc folder with no parent, keep their own name. */
  lemma {:induction false} OtherFolderExample()
    ensures DeriveArchiveBase(["Movies", "Disc 2 extras"], "", false) == "Disc 2 extras"
    ensures DeriveArchiveBase(["Disc 2"], "", false) == "Disc 2"
  {
    NotDiscNameExample();
    assert FolderName(["Movies", "Disc 2 extras"]) == "Disc 2 extras";
    assert ParentName(["Disc 2"]) == "";
  }
}
