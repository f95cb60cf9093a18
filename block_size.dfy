/** The block size of a create job (`CreateTab._get_blocksize_bytes` and the
    normalisation in `CreateTab._on_create`, par2guard.py:898-913, 941-951,
    986-989): par2 needs a block size divisible by 4, so a custom size that is
    not is rounded down, written back to the spin button and read again when
    the command line is built. */
module BlockSize {
  import opened Wrappers
  import opened Text

  /** The range of the custom block-size spin button (par2guard.py:759). */
  const SpinMin := 1
  const SpinMax := 1024 * 1024 * 1024

  predicate InSpinRange(v: int) {
    SpinMin <= v <= SpinMax
  }

  /** `Gtk.SpinButton.set_value` keeps the value within the button's range. */
  function Clamp(v: int): (r: int)
    ensures InSpinRange(r)
    ensures InSpinRange(v) ==> r == v
    ensures v < SpinMin ==> r == SpinMin
  {
    if v < SpinMin then SpinMin else if v > SpinMax then SpinMax else v
  }

  /** `_get_blocksize_bytes`, for the active label of the combo box (`None`
      when nothing is active) and the spin button's value: `None` for "Auto",
      the fixed sizes for the presets, the spin button's value otherwise. */
  function BlockSizeOf(active: Option<string>, custom: int): Option<int> {
    var item := if active.Some? && active.value != "" then active.value else "Auto";
    if item == "Auto" then None
    else if item == "64 KB" then Some(64 * 1024)
    else if item == "128 KB" then Some(128 * 1024)
    else if item == "256 KB" then Some(256 * 1024)
    else if item == "512 KB" then Some(512 * 1024)
    else if item == "1 MB" then Some(1024 * 1024)
    else Some(custom)
  }

  /** Only "Auto" leaves the size to par2, the presets are already divisible
      by 4, and any other label reads the spin button. */
  lemma {:induction false} BlockSizeOfSpec(active: Option<string>, custom: int)
    ensures BlockSizeOf(active, custom).None? <==> active.None? || active.value in {"", "Auto"}
    ensures active.Some? && active.value in {"64 KB", "128 KB", "256 KB", "512 KB", "1 MB"} ==>
      var bs := BlockSizeOf(active, custom).value; bs % 4 == 0 && InSpinRange(bs)
    ensures active.Some? && active.value !in {"", "Auto", "64 KB", "128 KB", "256 KB", "512 KB", "1 MB"} ==>
      BlockSizeOf(active, custom) == Some(custom)
  {
  }

  /** `bs - (bs % 4)` for a size the spin button or a preset can hold: the
      largest multiple of 4 not above `bs`. */
  function AlignDown(bs: nat): (r: nat)
    ensures r % 4 == 0 && r <= bs < r + 4
  {
    bs - bs % 4
  }

  /** No other multiple of 4 lies between `AlignDown(bs)` and `bs`, and an
      aligned size is left alone. */
  lemma {:induction false} AlignDownIsLargest(bs: nat, m: nat)
    requires m % 4 == 0 && m <= bs
    ensures m <= AlignDown(bs)
    ensures bs % 4 == 0 ==> AlignDown(bs) == bs
  {
  }

  const NoticeHead := "Block size adjusted from "
  const NoticeTail := " bytes (must be divisible by 4).\n"

  /** The line logged when the size `bs` is rounded to `fixed`. */
  function AdjustNotice(bs: nat, fixed: nat): (r: string)
    ensures StartsWith(r, NoticeHead) && EndsWith(r, NoticeTail)
  {
    var r := NoticeHead + NatToString(bs) + " to " + NatToString(fixed) + NoticeTail;
    assert r[..|NoticeHead|] == NoticeHead;
    assert r[|r| - |NoticeTail|..] == NoticeTail;
    r
  }

  /** Reading the two sizes back out of a notice. */
  function ReadNotice(r: string): Option<(nat, nat)> {
    if |NoticeHead| + |NoticeTail| <= |r| && StartsWith(r, NoticeHead) && EndsWith(r, NoticeTail)
    then ReadPair(r[|NoticeHead|..|r| - |NoticeTail|])
    else None
  }

  /** Reading "<digits> to <digits>". */
  function ReadPair(mid: string): Option<(nat, nat)> {
    var k := IndexOf(mid, ' ');
    if k + 4 <= |mid| && mid[k..k + 4] == " to " && IsDigitString(mid[..k]) && IsDigitString(mid[k + 4..])
    then Some((ParseNat(mid[..k]), ParseNat(mid[k + 4..])))
    else None
  }

  lemma {:induction false} PairRoundTrip(x: nat, y: nat)
    ensures ReadPair(NatToString(x) + " to " + NatToString(y)) == Some((x, y))
  {
    var a, b := NatToString(x), NatToString(y);
    NatToStringRoundTrip(x);
    NatToStringRoundTrip(y);
    var mid := a + " to " + b;
    assert mid[|a|] == ' ';
    var k := IndexOf(mid, ' ');
    assert k == |a|;
    assert mid[..k] == a;
    assert mid[k..k + 4] == " to ";
    assert mid[k + 4..] == b;
  }

  /** The notice reports both sizes: they read back from it unchanged. */
  lemma {:induction false} NoticeRoundTrip(bs: nat, fixed: nat)
    ensures ReadNotice(AdjustNotice(bs, fixed)) == Some((bs, fixed))
  {
    var mid := NatToString(bs) + " to " + NatToString(fixed);
    var r := AdjustNotice(bs, fixed);
    assert r == NoticeHead + mid + NoticeTail;
    assert r[|NoticeHead|..|r| - |NoticeTail|] == mid;
    PairRoundTrip(bs, fixed);
  }

  /** What `_on_create` logs about the size before building the command line:
      nothing when the size is left to par2 or already divisible by 4, and
      otherwise one notice reporting the size chosen and `bs - bs % 4`. */
  function AdjustLog(active: Option<string>, custom: int): (r: seq<string>)
    requires InSpinRange(custom)
    ensures r == [] <==> BlockSizeOf(active, custom).None? || BlockSizeOf(active, custom).value % 4 == 0
    ensures r != [] ==> |r| == 1 && ReadNotice(r[0]) == Some((custom, AlignDown(custom)))
  {
    BlockSizeOfSpec(active, custom);
    var bs := BlockSizeOf(active, custom);
    if bs.Some? && bs.value % 4 != 0 then
      NoticeRoundTrip(custom, AlignDown(custom));
      [AdjustNotice(custom, AlignDown(custom))]
    else []
  }

  /** The size `_on_create` passes as `-s<size>` (`None`: no `-s` option), as
      written: a size not divisible by 4 is rounded down and written to the
      spin button, and the size is read from the widgets again. */
  function BlockSizeArgAsWritten(active: Option<string>, custom: int): Option<int>
    requires InSpinRange(custom)
  {
    var bs := BlockSizeOf(active, custom);
    if bs.Some? && bs.value % 4 != 0 then BlockSizeOf(active, Clamp(AlignDown(bs.value)))
    else bs
  }

  /** A custom size of 1 to 3 bytes rounds down to 0, which the spin button
      raises to its minimum of 1: par2 is then handed "-s1", a size that is not
      divisible by 4. */
  lemma {:induction false} TinyBlockSizeStaysUnaligned(custom: int)
    requires 1 <= custom < 4
    ensures BlockSizeArgAsWritten(Some("Custom…"), custom) == Some(1)
    ensures BlockSizeArgAsWritten(Some("Custom…"), custom).value % 4 != 0
  {
    assert AlignDown(custom) == 0;
  }

  /** The intended normalisation: round down to a multiple of 4, but never
      below 4, the smallest size par2 accepts. */
  function Normalize(bs: nat): (r: nat)
    ensures r % 4 == 0 && r >= 4
    ensures bs >= 4 ==> r == AlignDown(bs)
    ensures bs < 4 ==> r == 4
  {
    if bs < 4 then 4 else AlignDown(bs)
  }

  /** `_on_create`'s block size with `Normalize` in place of the plain rounding. */
  function BlockSizeArg(active: Option<string>, custom: int): Option<int>
    requires InSpinRange(custom)
  {
    var bs := BlockSizeOf(active, custom);
    if bs.Some? && bs.value % 4 != 0 then BlockSizeOf(active, Clamp(Normalize(bs.value)))
    else bs
  }

  /** Whatever the widgets hold, a size handed to par2 is a multiple of 4
      within the spin button's range, the value written back survives the
      spin button's clamping, and the size is the one the user chose when that
      was already aligned. */
  lemma {:induction false} BlockSizeArgAligned(active: Option<string>, custom: int)
    requires InSpinRange(custom)
    ensures var arg := BlockSizeArg(active, custom);
      && (arg.Some? ==> arg.value % 4 == 0 && InSpinRange(arg.value))
      && (arg.None? <==> BlockSizeOf(active, custom).None?)
      && (BlockSizeOf(active, custom).Some? && BlockSizeOf(active, custom).value % 4 == 0 ==>
            arg == BlockSizeOf(active, custom))
  {
    BlockSizeOfSpec(active, custom);
    var bs := BlockSizeOf(active, custom);
    if bs.Some? && bs.value % 4 != 0 {
      var fixed := Normalize(bs.value);
      assert bs == Some(custom);
      assert fixed <= SpinMax;
      assert Clamp(fixed) == fixed;
    }
  }

  /** The correction changes nothing for custom sizes of 4 bytes or more. */
  lemma {:induction false} BlockSizeArgAgrees(active: Option<string>, custom: int)
    requires InSpinRange(custom) && custom >= 4
    ensures BlockSizeArg(active, custom) == BlockSizeArgAsWritten(active, custom)
  {
  }
}
