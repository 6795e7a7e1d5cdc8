/**
 * The character-LCD driver of enderDashboard.py: an HD44780-style controller
 * behind an I2C port expander, driven in 4-bit mode.  Expander pins: bit 0 is
 * RS (the mode), bit 1 is R/W (always 0 here), bit 2 is ENABLE, bit 3 the
 * backlight and bits 4-7 carry one nibble.  The I2C bus is a ghost log of the
 * (address, byte) writes the driver performs.
 */
module Lcd {
  import opened Bits

  const LCD_ADDR: nat := 0x26
  const LCD_WIDTH: nat := 16
  const LCD_CHR: nat := 1  // mode: sending data
  const LCD_CMD: nat := 0  // mode: sending a command

  const LCD_LINE_1: nat := 0x80
  const LCD_LINE_2: nat := 0xC0
  const LCD_LINE_3: nat := 0x94
  const LCD_LINE_4: nat := 0xD4

  const LCD_BACKLIGHT: nat := 0x08
  const ENABLE: nat := 0x04

  /** One single-byte write on the I2C bus. */
  datatype Write = Write(addr: nat, value: nat)

  // ---------------------------------------------------------------------
  // Nibble arithmetic of lcd_byte

  /** bits_high = mode | (bits & 0xF0) | LCD_BACKLIGHT */
  function HighBits(bits: nat, mode: nat): nat
  {
    Or(Or(mode, And(bits, 0xF0)), LCD_BACKLIGHT)
  }

  /** bits_low = mode | ((bits << 4) & 0xF0) | LCD_BACKLIGHT */
  function LowBits(bits: nat, mode: nat): nat
  {
    Or(Or(mode, And(Shl(bits, 4), 0xF0)), LCD_BACKLIGHT)
  }

  /** The bit patterns of the masks the driver and the controller use. */
  lemma ConstantBits(k: nat)
    ensures Bit(0x01, k) == (k == 0)
    ensures Bit(ENABLE, k) == (k == 2)
    ensures Bit(LCD_BACKLIGHT, k) == (k == 3)
    ensures Bit(0x0F, k) == (k < 4)
    ensures Bit(0x7F, k) == (k < 7)
    ensures Bit(0xFF, k) == (k < 8)
    ensures Bit(0xF0, k) == (4 <= k < 8)
  {
    BitPow2(0, k);
    BitPow2(2, k);
    BitPow2(3, k);
    BitLowMask(4, k);
    BitLowMask(7, k);
    BitLowMask(8, k);
    assert 0xF0 == Shl(Pow2(4) - 1, 4);
    BitShl(Pow2(4) - 1, 4, k);
    if k >= 4 { BitLowMask(4, k - 4); }
  }

  lemma ModeBits(mode: nat, k: nat)
    requires mode <= 1
    ensures Bit(mode, k) == (k == 0 && mode == 1)
  {
    if mode == 0 { BitOfZero(k); } else { BitPow2(0, k); }
  }

  /** Bit layout of the two expander bytes of one LCD byte. */
  lemma NibbleBits(bits: nat, mode: nat, k: nat)
    requires mode <= 1
    ensures Bit(HighBits(bits, mode), k) == ((k == 0 && mode == 1) || k == 3 || (4 <= k < 8 && Bit(bits, k)))
    ensures Bit(LowBits(bits, mode), k) == ((k == 0 && mode == 1) || k == 3 || (4 <= k < 8 && Bit(bits, k - 4)))
  {
    ConstantBits(k);
    ModeBits(mode, k);
    BitOr(Or(mode, And(bits, 0xF0)), LCD_BACKLIGHT, k);
    BitOr(mode, And(bits, 0xF0), k);
    BitAnd(bits, 0xF0, k);
    BitOr(Or(mode, And(Shl(bits, 4), 0xF0)), LCD_BACKLIGHT, k);
    BitOr(mode, And(Shl(bits, 4), 0xF0), k);
    BitAnd(Shl(bits, 4), 0xF0, k);
    BitShl(bits, 4, k);
  }

  /** A number whose bits all lie below bit 8 is a byte. */
  lemma ByteFromBits(a: nat)
    requires forall k: nat :: 8 <= k ==> !Bit(a, k)
    ensures a < 256
  {
    BitsBound(a, 8);
  }

  /** x & 0xFF is x itself when x is already a byte. */
  lemma AndFFOfByte(x: nat)
    requires x < 256
    ensures And(x, 0xFF) == x
  {
    forall k: nat
      ensures Bit(And(x, 0xFF), k) == Bit(x, k)
    {
      BitAnd(x, 0xFF, k);
      ConstantBits(k);
      if k >= 8 { BitsAbove(x, 8, k); }
    }
    BitsEqual(And(x, 0xFF), x);
  }

  /** Whatever bits and mode are, both expander bytes are bytes with the
      backlight bit set, ENABLE clear, R/W clear and bit 0 equal to the mode. */
  lemma NibbleBytes(bits: nat, mode: nat)
    requires mode <= 1
    ensures HighBits(bits, mode) < 256 && LowBits(bits, mode) < 256
    ensures And(HighBits(bits, mode), LCD_BACKLIGHT) == LCD_BACKLIGHT
    ensures And(LowBits(bits, mode), LCD_BACKLIGHT) == LCD_BACKLIGHT
    ensures And(HighBits(bits, mode), ENABLE) == 0 && And(LowBits(bits, mode), ENABLE) == 0
    ensures And(HighBits(bits, mode), 0x02) == 0 && And(LowBits(bits, mode), 0x02) == 0
    ensures And(HighBits(bits, mode), 0x01) == mode && And(LowBits(bits, mode), 0x01) == mode
  {
    var h, l := HighBits(bits, mode), LowBits(bits, mode);
    forall k: nat | 8 <= k
      ensures !Bit(h, k) && !Bit(l, k)
    {
      NibbleBits(bits, mode, k);
    }
    ByteFromBits(h);
    ByteFromBits(l);
    forall k: nat
      ensures Bit(And(h, LCD_BACKLIGHT), k) == Bit(LCD_BACKLIGHT, k)
      ensures Bit(And(l, LCD_BACKLIGHT), k) == Bit(LCD_BACKLIGHT, k)
      ensures Bit(And(h, ENABLE), k) == Bit(0, k) && Bit(And(l, ENABLE), k) == Bit(0, k)
      ensures Bit(And(h, 0x02), k) == Bit(0, k) && Bit(And(l, 0x02), k) == Bit(0, k)
      ensures Bit(And(h, 0x01), k) == Bit(mode, k) && Bit(And(l, 0x01), k) == Bit(mode, k)
    {
      NibbleBits(bits, mode, k);
      ConstantBits(k);
      ModeBits(mode, k);
      BitOfZero(k);
      BitPow2(1, k);
      BitAnd(h, LCD_BACKLIGHT, k);
      BitAnd(l, LCD_BACKLIGHT, k);
      BitAnd(h, ENABLE, k);
      BitAnd(l, ENABLE, k);
      BitAnd(h, 0x02, k);
      BitAnd(l, 0x02, k);
      BitAnd(h, 0x01, k);
      BitAnd(l, 0x01, k);
    }
    BitsEqual(And(h, LCD_BACKLIGHT), LCD_BACKLIGHT);
    BitsEqual(And(l, LCD_BACKLIGHT), LCD_BACKLIGHT);
    BitsEqual(And(h, ENABLE), 0);
    BitsEqual(And(l, ENABLE), 0);
    BitsEqual(And(h, 0x02), 0);
    BitsEqual(And(l, 0x02), 0);
    BitsEqual(And(h, 0x01), mode);
    BitsEqual(And(l, 0x01), mode);
  }

  /** The byte is recovered from its two nibbles: (high & 0xF0) | (low >> 4)
      is the low eight bits of the input, and the input itself when it is a
      byte. */
  lemma NibbleRoundTrip(bits: nat, mode: nat)
    requires mode <= 1
    ensures Or(And(HighBits(bits, mode), 0xF0), Shr(LowBits(bits, mode), 4)) == And(bits, 0xFF)
    ensures bits < 256 ==> Or(And(HighBits(bits, mode), 0xF0), Shr(LowBits(bits, mode), 4)) == bits
  {
    var h, l := HighBits(bits, mode), LowBits(bits, mode);
    var r := Or(And(h, 0xF0), Shr(l, 4));
    forall k: nat
      ensures Bit(r, k) == Bit(And(bits, 0xFF), k)
    {
      BitOr(And(h, 0xF0), Shr(l, 4), k);
      BitAnd(h, 0xF0, k);
      BitShr(l, 4, k);
      NibbleBits(bits, mode, k);
      NibbleBits(bits, mode, k + 4);
      BitAnd(bits, 0xFF, k);
      ConstantBits(k);
    }
    BitsEqual(r, And(bits, 0xFF));
    if bits < 256 { AndFFOfByte(bits); }
  }

  /** Setting then clearing ENABLE on a byte whose ENABLE bit is clear gives
      back that byte; setting it keeps the value a byte. */
  lemma StrobeRestores(b: nat)
    requires b < 256 && And(b, ENABLE) == 0
    ensures AndNot(b, ENABLE) == b
    ensures AndNot(Or(b, ENABLE), ENABLE) == b
    ensures Or(b, ENABLE) < 256 && And(Or(b, ENABLE), ENABLE) == ENABLE
  {
    var e := Or(b, ENABLE);
    forall k: nat
      ensures Bit(AndNot(b, ENABLE), k) == Bit(b, k)
      ensures Bit(AndNot(e, ENABLE), k) == Bit(b, k)
      ensures Bit(And(e, ENABLE), k) == Bit(ENABLE, k)
      ensures 8 <= k ==> !Bit(e, k)
    {
      ConstantBits(k);
      BitAnd(b, ENABLE, k);
      BitOfZero(k);
      BitAndNot(b, ENABLE, k);
      BitAndNot(e, ENABLE, k);
      BitOr(b, ENABLE, k);
      BitAnd(e, ENABLE, k);
      if 8 <= k { BitsAbove(b, 8, k); }
    }
    BitsEqual(AndNot(b, ENABLE), b);
    BitsEqual(AndNot(e, ENABLE), b);
    BitsEqual(And(e, ENABLE), ENABLE);
    ByteFromBits(e);
  }

  /** OR and AND-NOT of bytes are bytes. */
  lemma ByteOps(a: nat, b: nat)
    requires a < 256 && b < 256
    ensures Or(a, b) < 256 && AndNot(a, b) < 256
  {
    forall k: nat | 8 <= k
      ensures !Bit(Or(a, b), k) && !Bit(AndNot(a, b), k)
    {
      BitsAbove(a, 8, k);
      BitsAbove(b, 8, k);
      BitOr(a, b, k);
      BitAndNot(a, b, k);
    }
    ByteFromBits(Or(a, b));
    ByteFromBits(AndNot(a, b));
  }

  // ---------------------------------------------------------------------
  // The bus writes each driver function performs

  /** lcd_toggle_enable(bits): bits | ENABLE, then bits & ~ENABLE. */
  function ToggleWrites(bits: nat): seq<Write>
  {
    [Write(LCD_ADDR, Or(bits, ENABLE)), Write(LCD_ADDR, AndNot(bits, ENABLE))]
  }

  /** One nibble: the plain write in lcd_byte followed by the strobe. */
  function NibbleWrites(bits: nat): seq<Write>
  {
    [Write(LCD_ADDR, bits)] + ToggleWrites(bits)
  }

  /** lcd_byte(bits, mode): the high nibble, then the low nibble. */
  function ByteWrites(bits: nat, mode: nat): seq<Write>
  {
    NibbleWrites(HighBits(bits, mode)) + NibbleWrites(LowBits(bits, mode))
  }

  /** Every lcd_byte call is six byte-sized writes to the LCD address:
      high, high | ENABLE, high, low, low | ENABLE, low. */
  lemma SixWrites(bits: nat, mode: nat)
    requires mode <= 1
    ensures var h, l := HighBits(bits, mode), LowBits(bits, mode);
      ByteWrites(bits, mode) ==
        [Write(LCD_ADDR, h), Write(LCD_ADDR, Or(h, ENABLE)), Write(LCD_ADDR, h),
         Write(LCD_ADDR, l), Write(LCD_ADDR, Or(l, ENABLE)), Write(LCD_ADDR, l)]
    ensures forall w :: w in ByteWrites(bits, mode) ==> w.addr == LCD_ADDR && w.value < 256
  {
    NibbleBytes(bits, mode);
    StrobeRestores(HighBits(bits, mode));
    StrobeRestores(LowBits(bits, mode));
  }

  /** str.ljust(width, " "): pads with spaces up to width, never shortens. */
  function Ljust(s: string, width: nat): (r: string)
    ensures |r| == if |s| < width then width else |s|
    ensures forall i :: 0 <= i < |r| ==> r[i] == if i < |s| then s[i] else ' '
  {
    if |s| >= width then s else s + seq(width - |s|, _ => ' ')
  }

  /** The sixteen characters lcd_string sends: the first sixteen of the
      message, padded with spaces; anything longer is cut off. */
  function LineText(message: string): (r: string)
    ensures |r| == LCD_WIDTH
    ensures forall i :: 0 <= i < LCD_WIDTH ==> r[i] == if i < |message| then message[i] else ' '
    ensures |message| >= LCD_WIDTH ==> r == message[..LCD_WIDTH]
  {
    Ljust(message, LCD_WIDTH)[..LCD_WIDTH]
  }

  /** lcd_byte(ord(c), LCD_CHR) for each character in turn. */
  function CharWrites(s: string): seq<Write>
  {
    if s == [] then [] else ByteWrites(s[0] as nat, LCD_CHR) + CharWrites(s[1..])
  }

  /** lcd_string(message, line). */
  function StringWrites(message: string, line: nat): seq<Write>
  {
    ByteWrites(line, LCD_CMD) + CharWrites(LineText(message))
  }

  lemma {:induction false} CharWritesAppend(s: string, t: string)
    ensures CharWrites(s + t) == CharWrites(s) + CharWrites(t)
  {
    if s == [] {
      assert s + t == t;
    } else {
      assert (s + t)[1..] == s[1..] + t;
      CharWritesAppend(s[1..], t);
    }
  }

  lemma AppendAssoc<T>(a: seq<T>, b: seq<T>, c: seq<T>)
    ensures (a + b) + c == a + (b + c)
  {
  }

  lemma AppendAssoc4<T>(a: seq<T>, b: seq<T>, c: seq<T>, d: seq<T>)
    ensures a + b + c + d == a + (b + c + d)
  {
  }

  lemma SliceHead<T>(a: seq<T>, b: seq<T>)
    ensures (a + b)[0 .. |a|] == a
  {
  }

  lemma SliceAfter<T>(a: seq<T>, b: seq<T>, lo: nat, hi: nat)
    requires |a| <= lo <= hi <= |a| + |b|
    ensures (a + b)[lo .. hi] == b[lo - |a| .. hi - |a|]
  {
  }

  lemma AppendEmpty<T>(a: seq<T>)
    ensures a + [] == a
  {
  }

  lemma TakeSnoc<T>(s: seq<T>, i: nat)
    requires i < |s|
    ensures s[..i + 1] == s[..i] + [s[i]]
  {
  }

  lemma CharWritesSnoc(s: string, i: nat)
    requires i < |s|
    ensures CharWrites(s[..i + 1]) == CharWrites(s[..i]) + ByteWrites(s[i] as nat, LCD_CHR)
  {
    assert s[..i + 1] == s[..i] + [s[i]];
    CharWritesAppend(s[..i], [s[i]]);
  }

  lemma {:induction false} CharWritesAt(s: string, i: nat)
    requires i < |s|
    ensures |CharWrites(s)| == 6 * |s|
    ensures CharWrites(s)[6 * i .. 6 * i + 6] == ByteWrites(s[i] as nat, LCD_CHR)
  {
    SixWrites(s[0] as nat, LCD_CHR);
    var head, rest := ByteWrites(s[0] as nat, LCD_CHR), CharWrites(s[1..]);
    assert CharWrites(s) == head + rest;
    if |s| > 1 {
      CharWritesAt(s[1..], if i > 0 then i - 1 else 0);
    }
    if i > 0 {
      SliceAfter(head, rest, 6 * i, 6 * i + 6);
    } else {
      SliceHead(head, rest);
    }
  }

  /** lcd_string sends the line command and then exactly sixteen characters,
      each as one six-write lcd_byte: 17 * 6 writes in all. */
  lemma FixedLineLength(message: string, line: nat)
    ensures |StringWrites(message, line)| == 6 * (1 + LCD_WIDTH)
    ensures StringWrites(message, line)[..6] == ByteWrites(line, LCD_CMD)
    ensures forall i :: 0 <= i < LCD_WIDTH ==>
      StringWrites(message, line)[6 + 6 * i .. 12 + 6 * i] ==
        ByteWrites((if i < |message| then message[i] else ' ') as nat, LCD_CHR)
  {
    var text := LineText(message);
    var head := ByteWrites(line, LCD_CMD);
    SixWrites(line, LCD_CMD);
    CharWritesAt(text, 0);
    SliceHead(head, CharWrites(text));
    forall i | 0 <= i < LCD_WIDTH
      ensures StringWrites(message, line)[6 + 6 * i .. 12 + 6 * i] ==
        ByteWrites((if i < |message| then message[i] else ' ') as nat, LCD_CHR)
    {
      CharWritesAt(text, i);
      SliceAfter(head, CharWrites(text), 6 + 6 * i, 12 + 6 * i);
    }
  }

  // ---------------------------------------------------------------------
  // The I2C bus and the driver functions that write to it

  class Bus {
    /** Every write performed on the I2C bus, oldest first. */
    ghost var log: seq<Write>

    constructor ()
      ensures log == []
    {
      log := [];
    }

    /** bus.write_byte(addr, value); the bus accepts bytes only. */
    method WriteByte(addr: nat, value: nat)
      requires value < 256
      modifies this
      ensures log == old(log) + [Write(addr, value)]
    {
      log := log + [Write(addr, value)];
    }

    /** lcd_toggle_enable (the sleeps are timing only). */
    method ToggleEnable(bits: nat)
      requires bits < 256
      modifies this
      ensures log == old(log) + ToggleWrites(bits)
    {
      ByteOps(bits, ENABLE);
      WriteByte(LCD_ADDR, Or(bits, ENABLE));
      WriteByte(LCD_ADDR, AndNot(bits, ENABLE));
    }

    /** lcd_byte */
    method LcdByte(bits: nat, mode: nat)
      requires mode <= 1
      modifies this
      ensures log == old(log) + ByteWrites(bits, mode)
    {
      var bitsHigh := Or(Or(mode, And(bits, 0xF0)), LCD_BACKLIGHT);
      var bitsLow := Or(Or(mode, And(Shl(bits, 4), 0xF0)), LCD_BACKLIGHT);
      NibbleBytes(bits, mode);

      WriteByte(LCD_ADDR, bitsHigh);
      ToggleEnable(bitsHigh);

      WriteByte(LCD_ADDR, bitsLow);
      ToggleEnable(bitsLow);
    }

    /** lcd_string */
    method LcdString(message: string, line: nat)
      modifies this
      ensures log == old(log) + StringWrites(message, line)
    {
      var padded := Ljust(message, LCD_WIDTH);
      LcdByte(line, LCD_CMD);
      ghost var start := log;
      ghost var text := LineText(message);
      for i := 0 to LCD_WIDTH
        invariant log == start + CharWrites(text[..i])
      {
        LcdByte(padded[i] as nat, LCD_CHR);
        CharWritesSnoc(text, i);
        AppendAssoc(start, CharWrites(text[..i]), ByteWrites(text[i] as nat, LCD_CHR));
      }
      assert text[..LCD_WIDTH] == text;
      AppendAssoc(old(log), ByteWrites(line, LCD_CMD), CharWrites(text));
    }

    /** lcd_clear: blank line 1, then blank line 2. */
    method LcdClear()
      modifies this
      ensures log == old(log) + StringWrites("", LCD_LINE_1) + StringWrites("", LCD_LINE_2)
    {
      LcdString("", LCD_LINE_1);
      LcdString("", LCD_LINE_2);
    }

    /** lcd_init (the trailing sleep is timing only). */
    method LcdInit()
      modifies this
      ensures log == old(log) + (ByteWrites(0x33, LCD_CMD) + ByteWrites(0x32, LCD_CMD) +
        ByteWrites(0x06, LCD_CMD) + ByteWrites(0x0C, LCD_CMD) + ByteWrites(0x28, LCD_CMD) +
        ByteWrites(0x01, LCD_CMD))
    {
      ghost var b1, b2, b3 := ByteWrites(0x33, LCD_CMD), ByteWrites(0x32, LCD_CMD), ByteWrites(0x06, LCD_CMD);
      ghost var b4, b5, b6 := ByteWrites(0x0C, LCD_CMD), ByteWrites(0x28, LCD_CMD), ByteWrites(0x01, LCD_CMD);
      LcdByte(0x33, LCD_CMD);
      LcdByte(0x32, LCD_CMD);
      AppendAssoc(old(log), b1, b2);
      LcdByte(0x06, LCD_CMD);
      AppendAssoc(old(log), b1 + b2, b3);
      LcdByte(0x0C, LCD_CMD);
      AppendAssoc(old(log), b1 + b2 + b3, b4);
      LcdByte(0x28, LCD_CMD);
      AppendAssoc(old(log), b1 + b2 + b3 + b4, b5);
      LcdByte(0x01, LCD_CMD);
      AppendAssoc(old(log), b1 + b2 + b3 + b4 + b5, b6);
    }
  }
}
