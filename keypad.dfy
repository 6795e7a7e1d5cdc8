/**
 * The keypad on the PCF8574 expander: four buttons wired active-low, so a
 * button is pressed exactly when its bit of the raw byte read from the
 * expander is 0.
 */
module Keypad {
  import opened Bits

  const KEY_LEFT: nat := 1
  const KEY_UP: nat := 4
  const KEY_DOWN: nat := 2
  const KEY_RIGHT: nat := 8
  /** All pull-ups high: the raw value when no button is held. */
  const KEY_NONE: nat := 255

  /** isKeyPressed: 1 when keysVal & keyMask == 0, else 0. */
  function IsKeyPressed(keysVal: nat, keyMask: nat): nat
  {
    if And(keysVal, keyMask) == 0 then 1 else 0
  }

  /** The decoded button state of one raw byte. */
  datatype Keys = Keys(up: bool, down: bool, left: bool, right: bool)

  function Decode(raw: nat): Keys
  {
    Keys(IsKeyPressed(raw, KEY_UP) == 1, IsKeyPressed(raw, KEY_DOWN) == 1,
         IsKeyPressed(raw, KEY_LEFT) == 1, IsKeyPressed(raw, KEY_RIGHT) == 1)
  }

  /** The raw byte the expander reports for a given set of held buttons:
      the unused upper pins read high, and a held button pulls its pin low. */
  function Encode(k: Keys): nat
  {
    Or(Or(Or(Or(0xF0, if k.left then 0 else KEY_LEFT), if k.down then 0 else KEY_DOWN),
          if k.up then 0 else KEY_UP), if k.right then 0 else KEY_RIGHT)
  }

  /** Bit index of each key's mask. */
  function KeyBit(mask: nat): nat
  {
    if mask == KEY_LEFT then 0 else if mask == KEY_DOWN then 1 else if mask == KEY_UP then 2 else 3
  }

  predicate IsKeyMask(mask: nat)
  {
    mask == KEY_LEFT || mask == KEY_DOWN || mask == KEY_UP || mask == KEY_RIGHT
  }

  /** Each key mask is the single bit KeyBit(mask), so the four are disjoint. */
  lemma KeyMasks()
    ensures KEY_LEFT == Pow2(0) && KEY_DOWN == Pow2(1) && KEY_UP == Pow2(2) && KEY_RIGHT == Pow2(3)
    ensures forall m :: IsKeyMask(m) ==> m == Pow2(KeyBit(m))
  {
  }

  /** A key with single-bit mask 2^j is reported pressed exactly when bit j
      of the raw value is 0; isKeyPressed only ever answers 0 or 1. */
  lemma PressedIffBitClear(v: nat, j: nat)
    ensures IsKeyPressed(v, Pow2(j)) <= 1
    ensures IsKeyPressed(v, Pow2(j)) == 1 <==> !Bit(v, j)
  {
    BitAnd(v, Pow2(j), j);
    BitPow2(j, j);
    if Bit(v, j) {
      BitOfZero(j);
    } else {
      forall k: nat
        ensures Bit(And(v, Pow2(j)), k) == Bit(0, k)
      {
        BitAnd(v, Pow2(j), k);
        BitPow2(j, k);
        BitOfZero(k);
      }
      BitsEqual(And(v, Pow2(j)), 0);
    }
  }

  /** Each key's answer depends only on its own bit of the raw value. */
  lemma KeyIndependence(v: nat, w: nat, mask: nat)
    requires IsKeyMask(mask)
    requires Bit(v, KeyBit(mask)) == Bit(w, KeyBit(mask))
    ensures IsKeyPressed(v, mask) == IsKeyPressed(w, mask)
  {
    KeyMasks();
    PressedIffBitClear(v, KeyBit(mask));
    PressedIffBitClear(w, KeyBit(mask));
  }

  /** The decoded keys, stated per bit: up is bit 2, down bit 1, left bit 0,
      right bit 3, each pressed when the bit is clear. */
  lemma DecodeBits(raw: nat)
    ensures Decode(raw) == Keys(!Bit(raw, 2), !Bit(raw, 1), !Bit(raw, 0), !Bit(raw, 3))
  {
    KeyMasks();
    PressedIffBitClear(raw, 0);
    PressedIffBitClear(raw, 1);
    PressedIffBitClear(raw, 2);
    PressedIffBitClear(raw, 3);
  }

  /** KEY_NONE reports no key pressed. */
  lemma NoneIsNoKey()
    ensures Decode(KEY_NONE) == Keys(false, false, false, false)
  {
    assert KEY_NONE == Pow2(8) - 1;
    DecodeBits(KEY_NONE);
    BitLowMask(8, 0);
    BitLowMask(8, 1);
    BitLowMask(8, 2);
    BitLowMask(8, 3);
  }

  /** Every one of the sixteen combinations of held buttons has a raw byte
      that decodes to exactly that combination. */
  lemma EncodeDecode(k: Keys)
    ensures Encode(k) < 256
    ensures Decode(Encode(k)) == k
  {
    var l := if k.left then 0 else KEY_LEFT;
    var d := if k.down then 0 else KEY_DOWN;
    var u := if k.up then 0 else KEY_UP;
    var r := if k.right then 0 else KEY_RIGHT;
    var e := Encode(k);
    KeyMasks();
    forall j: nat
      ensures Bit(e, j) == ((4 <= j < 8) || (j == 0 && !k.left) || (j == 1 && !k.down)
                            || (j == 2 && !k.up) || (j == 3 && !k.right))
    {
      BitOr(Or(Or(Or(0xF0, l), d), u), r, j);
      BitOr(Or(Or(0xF0, l), d), u, j);
      BitOr(Or(0xF0, l), d, j);
      BitOr(0xF0, l, j);
      BitPow2(0, j);
      BitPow2(1, j);
      BitPow2(2, j);
      BitPow2(3, j);
      BitOfZero(j);
      assert 0xF0 == Shl(Pow2(4) - 1, 4);
      BitShl(Pow2(4) - 1, 4, j);
      if j >= 4 { BitLowMask(4, j - 4); }
    }
    forall j: nat | 8 <= j
      ensures !Bit(e, j)
    {
    }
    BitsBound(e, 8);
    DecodeBits(e);
  }
}
