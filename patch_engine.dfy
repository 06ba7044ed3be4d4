/** Entries of the game-patch engine and the width at which their values print. */
module PatchEngine {

  /** The width of a patched value. The enumerators are 0, 1 and 2; as with
      any C++ enum, a PatchType can also hold values that name no enumerator. */
  newtype PatchType = int

  const PATCH_8BIT: PatchType := 0
  const PATCH_16BIT: PatchType := 1
  const PATCH_32BIT: PatchType := 2

  predicate IsEnumerator(t: PatchType)
  {
    t == PATCH_8BIT || t == PATCH_16BIT || t == PATCH_32BIT
  }

  newtype u32 = x: int | 0 <= x < 0x1_0000_0000

  /** One write of `value` at `address`, of width `patchType`. */
  datatype PatchEntry = PatchEntry(patchType: PatchType, address: u32, value: u32)

  /** A named list of entries, possibly switched off, possibly the user's own. */
  datatype Patch = Patch(name: string, entries: seq<PatchEntry>, active: bool, userDefined: bool)

  /** The three-argument constructor of an entry. */
  function MakePatchEntry(t: PatchType, address: u32, value: u32): (e: PatchEntry)
    ensures e.patchType == t && e.address == address && e.value == value
  {
    PatchEntry(t, address, value)
  }

  /** How many hexadecimal characters a value of the given width is printed with;
      a type that names no width gets the default of 8. */
  function PatchTypeCharLength(t: PatchType): (size: int)
    ensures size == 2 || size == 4 || size == 8
    ensures size == 2 <==> t == PATCH_8BIT
    ensures size == 4 <==> t == PATCH_16BIT
    ensures size == 8 <==> t != PATCH_8BIT && t != PATCH_16BIT
  {
    if t == PATCH_8BIT then 2
    else if t == PATCH_16BIT then 4
    else if t == PATCH_32BIT then 8
    else 8
  }

  /** One more than the largest value of each width: u8, u16, and u32 for the
      32-bit width and for every value that names no width (entries hold u32s). */
  function ValueLimit(t: PatchType): nat
  {
    if t == PATCH_8BIT then 0x100
    else if t == PATCH_16BIT then 0x1_0000
    else 0x1_0000_0000
  }

  function Pow16(k: nat): (p: nat)
    ensures p >= 1
  {
    if k == 0 then 1 else 16 * Pow16(k - 1)
  }

  /** Hexadecimal digits needed to print n without leading zeros ("0" for 0). */
  function HexDigits(n: nat): nat
  {
    if n < 16 then 1 else 1 + HexDigits(n / 16)
  }

  /** A number below 16^k prints in at most k hexadecimal digits. */
  lemma {:induction false} HexDigitsWithin(n: nat, k: nat)
    requires k >= 1 && n < Pow16(k)
    ensures HexDigits(n) <= k
  {
    if n >= 16 {
      assert Pow16(1) == 16;
      assert n / 16 < Pow16(k - 1);
      HexDigitsWithin(n / 16, k - 1);
    }
  }

  /** 16^k - 1 needs all k digits. */
  lemma {:induction false} HexDigitsOfLargest(k: nat)
    requires k >= 1
    ensures HexDigits(Pow16(k) - 1) == k
  {
    if k == 1 {
      assert Pow16(1) == 16;
    } else {
      var p := Pow16(k - 1);
      assert Pow16(k) - 1 == 16 * (p - 1) + 15;
      assert (Pow16(k) - 1) / 16 == p - 1;
      HexDigitsOfLargest(k - 1);
    }
  }

  /** The character length is the exact hexadecimal width of a value of that
      patch width: every value fits, and the largest needs every character. */
  lemma CharLengthIsHexWidth(t: PatchType, value: nat)
    requires value < ValueLimit(t)
    ensures HexDigits(value) <= PatchTypeCharLength(t)
    ensures HexDigits(ValueLimit(t) - 1) == PatchTypeCharLength(t)
  {
    var size := PatchTypeCharLength(t);
    assert Pow16(2) == 0x100;
    assert Pow16(4) == 0x1_0000 by { assert Pow16(3) == 0x1000; }
    assert Pow16(8) == 0x1_0000_0000 by {
      assert Pow16(4) == 0x1_0000 by { assert Pow16(3) == 0x1000; }
      assert Pow16(6) == 0x100_0000 by { assert Pow16(5) == 0x10_0000; }
      assert Pow16(7) == 0x1000_0000;
    }
    assert ValueLimit(t) == Pow16(size);
    HexDigitsWithin(value, size);
    HexDigitsOfLargest(size);
  }

  /** Wider patches print with strictly more characters. */
  lemma CharLengthIncreasesWithWidth(s: PatchType, t: PatchType)
    requires IsEnumerator(s) && IsEnumerator(t) && s < t
    ensures PatchTypeCharLength(s) < PatchTypeCharLength(t)
  {
  }
}
