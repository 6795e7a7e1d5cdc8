/**
 * A reference model of the receiving side: the HD44780 controller behind the
 * port expander, already in 4-bit mode.  It latches one nibble (RS from bit 0,
 * D4-D7 from bits 4-7) on every falling edge of ENABLE, pairs the nibbles
 * high-then-low into bytes, and executes them against its display RAM.  The
 * lemmas here say what the writes of the driver mean to the display.
 */
module Controller {
  import opened Bits
  import opened Lcd

  /** One nibble latched by the controller. */
  datatype Nibble = Nibble(rs: nat, data: nat)

  /** One byte received by the controller: rs = LCD_CMD (command) or LCD_CHR (data). */
  datatype Transfer = Transfer(rs: nat, data: nat)

  /** The nibbles latched from a stream of bus writes; `enabled` is the state
      of the ENABLE line before the first write.  Writes to other addresses
      do not reach the controller. */
  function Latched(writes: seq<Write>, enabled: bool): seq<Nibble>
    decreases |writes|
  {
    if writes == [] then []
    else
      var w := writes[0];
      if w.addr != LCD_ADDR then Latched(writes[1..], enabled)
      else
        var e := Bit(w.value, 2);
        (if enabled && !e then [Nibble(And(w.value, 0x01), And(Shr(w.value, 4), 0x0F))] else [])
        + Latched(writes[1..], e)
  }

  /** High nibble first, then low nibble. */
  function Assemble(ns: seq<Nibble>): seq<Transfer>
    decreases |ns|
  {
    if |ns| < 2 then []
    else [Transfer(ns[0].rs, Or(Shl(ns[0].data, 4), ns[1].data))] + Assemble(ns[2..])
  }

  /** The bytes the controller receives from a stream of writes that starts
      with ENABLE low. */
  function Received(writes: seq<Write>): seq<Transfer>
  {
    Assemble(Latched(writes, false))
  }

  /** The data transfers that put the characters of s on the display. */
  function DataTransfers(s: string): (r: seq<Transfer>)
    ensures |r| == |s|
    ensures forall i :: 0 <= i < |s| ==> r[i] == Transfer(LCD_CHR, And(s[i] as nat, 0xFF))
  {
    seq(|s|, i requires 0 <= i < |s| => Transfer(LCD_CHR, And(s[i] as nat, 0xFF)))
  }

  lemma LatchedStep(w: Write, rest: seq<Write>, enabled: bool)
    requires w.addr == LCD_ADDR
    ensures Latched([w] + rest, enabled) ==
      (if enabled && !Bit(w.value, 2) then [Nibble(And(w.value, 0x01), And(Shr(w.value, 4), 0x0F))] else [])
      + Latched(rest, Bit(w.value, 2))
  {
    assert ([w] + rest)[0] == w;
    assert ([w] + rest)[1..] == rest;
  }

  /** The two nibbles of one lcd_byte reassemble into the low byte of its input. */
  lemma NibblesAssemble(bits: nat, mode: nat)
    requires mode <= 1
    ensures Or(Shl(And(Shr(HighBits(bits, mode), 4), 0x0F), 4), And(Shr(LowBits(bits, mode), 4), 0x0F))
      == And(bits, 0xFF)
  {
    var h, l := HighBits(bits, mode), LowBits(bits, mode);
    var hi, lo := And(Shr(h, 4), 0x0F), And(Shr(l, 4), 0x0F);
    forall k: nat
      ensures Bit(Or(Shl(hi, 4), lo), k) == Bit(And(bits, 0xFF), k)
    {
      BitOr(Shl(hi, 4), lo, k);
      BitShl(hi, 4, k);
      BitAnd(bits, 0xFF, k);
      BitAnd(Shr(l, 4), 0x0F, k);
      BitShr(l, 4, k);
      NibbleBits(bits, mode, k + 4);
      ConstantBits(k);
      if k >= 4 {
        BitAnd(Shr(h, 4), 0x0F, k - 4);
        BitShr(h, 4, k - 4);
        NibbleBits(bits, mode, k);
        ConstantBits(k - 4);
      }
    }
    BitsEqual(Or(Shl(hi, 4), lo), And(bits, 0xFF));
  }

  /** The six writes of one lcd_byte latch exactly two nibbles, high then
      low, both with RS equal to the mode, and leave ENABLE low. */
  lemma LatchedByte(bits: nat, mode: nat, rest: seq<Write>)
    requires mode <= 1
    ensures Latched(ByteWrites(bits, mode) + rest, false) ==
      [Nibble(mode, And(Shr(HighBits(bits, mode), 4), 0x0F)),
       Nibble(mode, And(Shr(LowBits(bits, mode), 4), 0x0F))] + Latched(rest, false)
  {
    var h, l := HighBits(bits, mode), LowBits(bits, mode);
    var nh := Nibble(mode, And(Shr(h, 4), 0x0F));
    var nl := Nibble(mode, And(Shr(l, 4), 0x0F));
    NibbleBytes(bits, mode);
    EnableBit(h);
    EnableBit(l);
    AppendAssoc(NibbleWrites(h), NibbleWrites(l), rest);
    LatchedNibble(h, NibbleWrites(l) + rest);
    LatchedNibble(l, rest);
    assert [nh] + ([nl] + Latched(rest, false)) == [nh, nl] + Latched(rest, false);
  }

  /** One nibble of lcd_byte (the plain write, then ENABLE high, then ENABLE
      low) latches that value's nibble exactly once, on the falling edge. */
  lemma LatchedNibble(v: nat, rest: seq<Write>)
    requires v < 256 && !Bit(v, 2)
    ensures Latched(NibbleWrites(v) + rest, false)
      == [Nibble(And(v, 0x01), And(Shr(v, 4), 0x0F))] + Latched(rest, false)
  {
    EnableBit(v);
    StrobeRestores(v);
    EnableBit(Or(v, ENABLE));
    var r2 := [Write(LCD_ADDR, v)] + rest;
    var r1 := [Write(LCD_ADDR, Or(v, ENABLE))] + r2;
    assert NibbleWrites(v) + rest == [Write(LCD_ADDR, v)] + r1;
    LatchedStep(Write(LCD_ADDR, v), r1, false);
    LatchedStep(Write(LCD_ADDR, Or(v, ENABLE)), r2, false);
    LatchedStep(Write(LCD_ADDR, v), rest, true);
  }

  /** Bit 2 is the ENABLE line. */
  lemma EnableBit(v: nat)
    ensures Bit(v, 2) == (And(v, ENABLE) == ENABLE)
    ensures !Bit(v, 2) == (And(v, ENABLE) == 0)
  {
    ConstantBits(2);
    BitAnd(v, ENABLE, 2);
    BitOfZero(2);
    forall k: nat
      ensures Bit(And(v, ENABLE), k) == (k == 2 && Bit(v, 2))
    {
      BitAnd(v, ENABLE, k);
      ConstantBits(k);
    }
    if Bit(v, 2) {
      forall k: nat ensures Bit(And(v, ENABLE), k) == Bit(ENABLE, k) { ConstantBits(k); }
      BitsEqual(And(v, ENABLE), ENABLE);
    } else {
      forall k: nat ensures Bit(And(v, ENABLE), k) == Bit(0, k) { BitOfZero(k); }
      BitsEqual(And(v, ENABLE), 0);
    }
  }

  /** One lcd_byte delivers exactly one byte to the controller: the low eight
      bits of its input, with RS equal to the mode. */
  lemma ReceivedByte(bits: nat, mode: nat, rest: seq<Write>)
    requires mode <= 1
    ensures Received(ByteWrites(bits, mode) + rest) == [Transfer(mode, And(bits, 0xFF))] + Received(rest)
  {
    var nh := Nibble(mode, And(Shr(HighBits(bits, mode), 4), 0x0F));
    var nl := Nibble(mode, And(Shr(LowBits(bits, mode), 4), 0x0F));
    LatchedByte(bits, mode, rest);
    NibblesAssemble(bits, mode);
    assert ([nh, nl] + Latched(rest, false))[2..] == Latched(rest, false);
  }

  /** A write to another address on the bus does not reach the controller. */
  lemma ReceivedElsewhere(w: Write, rest: seq<Write>)
    requires w.addr != LCD_ADDR
    ensures Received([w] + rest) == Received(rest)
  {
    assert ([w] + rest)[1..] == rest;
  }

  lemma ReceivedNothing()
    ensures Received([]) == []
  {
  }

  /** lcd_byte(ord(c), LCD_CHR) for each character delivers the characters
      as data, in order. */
  lemma {:induction false} ReceivedChars(s: string, rest: seq<Write>)
    ensures Received(CharWrites(s) + rest) == DataTransfers(s) + Received(rest)
  {
    if s != [] {
      calc {
        Received(CharWrites(s) + rest);
        { assert CharWrites(s) + rest == ByteWrites(s[0] as nat, LCD_CHR) + (CharWrites(s[1..]) + rest); }
        Received(ByteWrites(s[0] as nat, LCD_CHR) + (CharWrites(s[1..]) + rest));
        { ReceivedByte(s[0] as nat, LCD_CHR, CharWrites(s[1..]) + rest); }
        [Transfer(LCD_CHR, And(s[0] as nat, 0xFF))] + Received(CharWrites(s[1..]) + rest);
        { ReceivedChars(s[1..], rest); }
        [Transfer(LCD_CHR, And(s[0] as nat, 0xFF))] + (DataTransfers(s[1..]) + Received(rest));
        { assert DataTransfers(s) == [Transfer(LCD_CHR, And(s[0] as nat, 0xFF))] + DataTransfers(s[1..]); }
        DataTransfers(s) + Received(rest);
      }
    } else {
      assert CharWrites(s) + rest == rest;
      assert DataTransfers(s) + Received(rest) == Received(rest);
    }
  }

  /** lcd_string delivers the line command, then the sixteen characters of
      the padded or truncated message. */
  lemma ReceivedString(message: string, line: nat, rest: seq<Write>)
    ensures Received(StringWrites(message, line) + rest) ==
      [Transfer(LCD_CMD, And(line, 0xFF))] + DataTransfers(LineText(message)) + Received(rest)
  {
    var text := LineText(message);
    assert StringWrites(message, line) + rest == ByteWrites(line, LCD_CMD) + (CharWrites(text) + rest);
    ReceivedByte(line, LCD_CMD, CharWrites(text) + rest);
    ReceivedChars(text, rest);
  }

  // ---------------------------------------------------------------------
  // Display RAM

  /** DDRAM cells that were never written read as spaces. */
  datatype Display = Display(ddram: map<nat, nat>, cursor: nat)

  const SPACE: nat := 0x20

  function Cell(d: Display, a: nat): nat
  {
    if a in d.ddram then d.ddram[a] else SPACE
  }

  function CellAt(d: Display, base: nat, i: int): nat
    requires 0 <= i
  {
    Cell(d, base + i)
  }

  /** One received byte: data is stored at the cursor, which moves right
      (entry mode 0x06); a command with bit 7 set moves the cursor to the
      DDRAM address in its low seven bits; 0x01 clears the display; the other
      commands (function set, display control, entry mode) leave the
      display RAM alone. */
  function Apply(d: Display, t: Transfer): Display
  {
    if t.rs == LCD_CHR then Display(d.ddram[d.cursor := t.data], d.cursor + 1)
    else if Bit(t.data, 7) then Display(d.ddram, And(t.data, 0x7F))
    else if t.data == 0x01 then Display(map[], 0)
    else d
  }

  function Execute(d: Display, ts: seq<Transfer>): Display
    decreases |ts|
  {
    if ts == [] then d else Execute(Apply(d, ts[0]), ts[1..])
  }

  /** The sixteen visible cells of the row starting at DDRAM address base. */
  function Row(d: Display, base: nat): (r: seq<nat>)
    ensures |r| == LCD_WIDTH
  {
    seq(LCD_WIDTH, i requires 0 <= i < LCD_WIDTH => CellAt(d, base, i))
  }

  /** What lcd_string(message, ...) puts on its row: the character codes of
      the padded or truncated message. */
  function LineBytes(message: string): (r: seq<nat>)
    ensures |r| == LCD_WIDTH
  {
    var text := LineText(message);
    seq(LCD_WIDTH, i requires 0 <= i < LCD_WIDTH => And(text[i] as nat, 0xFF))
  }

  lemma {:induction false} ExecuteAppend(d: Display, a: seq<Transfer>, b: seq<Transfer>)
    ensures Execute(d, a + b) == Execute(Execute(d, a), b)
    decreases |a|
  {
    if a == [] {
      assert a + b == b;
    } else {
      assert (a + b)[0] == a[0];
      assert (a + b)[1..] == a[1..] + b;
      ExecuteAppend(Apply(d, a[0]), a[1..], b);
    }
  }

  /** Data bytes fill consecutive cells from the cursor and touch no other cell. */
  lemma {:induction false} ExecuteData(d: Display, s: string)
    ensures Execute(d, DataTransfers(s)).cursor == d.cursor + |s|
    ensures forall a: nat ::
      Cell(Execute(d, DataTransfers(s)), a) ==
        if d.cursor <= a < d.cursor + |s| then And(s[a - d.cursor] as nat, 0xFF) else Cell(d, a)
    decreases |s|
  {
    if s != [] {
      var d1 := Apply(d, Transfer(LCD_CHR, And(s[0] as nat, 0xFF)));
      assert DataTransfers(s)[0] == Transfer(LCD_CHR, And(s[0] as nat, 0xFF));
      assert DataTransfers(s)[1..] == DataTransfers(s[1..]);
      ExecuteData(d1, s[1..]);
      forall a: nat
        ensures Cell(Execute(d, DataTransfers(s)), a) ==
          if d.cursor <= a < d.cursor + |s| then And(s[a - d.cursor] as nat, 0xFF) else Cell(d, a)
      {
        if d1.cursor <= a < d1.cursor + |s[1..]| {
          assert s[1..][a - d1.cursor] == s[a - d.cursor];
        }
      }
    }
  }

  /** A command with bit 7 set is "set DDRAM address" to its low seven bits. */
  lemma SetAddress(line: nat)
    requires 0x80 <= line < 0x100
    ensures And(line, 0xFF) == line && Bit(line, 7) && And(line, 0x7F) == line - 0x80
  {
    AndFFOfByte(line);
    assert Pow2(7) == 0x80;
    BitAddPow2(7, line - 0x80, 7);
    forall k: nat
      ensures Bit(And(line, 0x7F), k) == Bit(line - 0x80, k)
    {
      BitAnd(line, 0x7F, k);
      BitAddPow2(7, line - 0x80, k);
      ConstantBits(k);
      if k >= 7 { BitsAbove(line - 0x80, 7, k); }
    }
    BitsEqual(And(line, 0x7F), line - 0x80);
  }

  /** lcd_string(message, line) for a "set DDRAM address" line command: the
      row at that address then shows exactly LineBytes(message), and every
      cell outside it is as before. */
  lemma ShowsLine(d: Display, message: string, line: nat, rest: seq<Write>)
    requires 0x80 <= line < 0x100
    ensures var d' := Execute(d, Received(StringWrites(message, line) + rest));
      var e := Execute(d, Received(StringWrites(message, line)));
      && d' == Execute(e, Received(rest))
      && Row(e, line - 0x80) == LineBytes(message)
      && (forall a: nat :: !(line - 0x80 <= a < line - 0x80 + LCD_WIDTH) ==> Cell(e, a) == Cell(d, a))
  {
    var text := LineText(message);
    var base := line - 0x80;
    ReceivedString(message, line, rest);
    ReceivedString(message, line, []);
    ReceivedNothing();
    SetAddress(line);
    var head := [Transfer(LCD_CMD, line)];
    var d1 := Apply(d, Transfer(LCD_CMD, line));
    assert d1 == Display(d.ddram, base);
    assert StringWrites(message, line) + [] == StringWrites(message, line);
    assert Received(StringWrites(message, line)) == head + DataTransfers(text);
    ExecuteAppend(d, head, DataTransfers(text));
    ExecuteAppend(d, head + DataTransfers(text), Received(rest));
    var e := Execute(d1, DataTransfers(text));
    ExecuteData(d1, text);
    assert Row(e, base) == LineBytes(message);
  }

  /** Two displays whose cells agree on a row show the same row. */
  lemma RowsAgree(d: Display, e: Display, base: nat)
    requires forall a: nat :: base <= a < base + LCD_WIDTH ==> Cell(d, a) == Cell(e, a)
    ensures Row(d, base) == Row(e, base)
  {
    forall i | 0 <= i < LCD_WIDTH
      ensures Row(d, base)[i] == Row(e, base)[i]
    {
      assert Cell(d, base + i) == Cell(e, base + i);
    }
  }

  /** lcd_string on one line leaves every row that does not overlap it
      unchanged. */
  lemma StringKeepsRow(d: Display, message: string, line: nat, base: nat)
    requires 0x80 <= line < 0x100
    requires base + LCD_WIDTH <= line - 0x80 || line - 0x80 + LCD_WIDTH <= base
    ensures Row(Execute(d, Received(StringWrites(message, line))), base) == Row(d, base)
  {
    ShowsLine(d, message, line, []);
    RowsAgree(Execute(d, Received(StringWrites(message, line))), d, base);
  }

  /** The row an empty lcd_string leaves is sixteen spaces. */
  lemma BlankLine()
    ensures forall i :: 0 <= i < LCD_WIDTH ==> LineBytes("")[i] == SPACE
  {
    AndFFOfByte(' ' as nat);
  }

  /** Two lcd_string calls on non-overlapping rows: each row then shows its
      message, and later writes act on the display they leave. */
  lemma ShowsTwoLines(d: Display, m1: string, line1: nat, m2: string, line2: nat, rest: seq<Write>)
    requires 0x80 <= line1 < 0x100 && 0x80 <= line2 < 0x100
    requires line1 + LCD_WIDTH <= line2 || line2 + LCD_WIDTH <= line1
    ensures var e := Execute(d, Received(StringWrites(m1, line1) + StringWrites(m2, line2)));
      && Execute(d, Received(StringWrites(m1, line1) + StringWrites(m2, line2) + rest)) == Execute(e, Received(rest))
      && Row(e, line1 - 0x80) == LineBytes(m1) && Row(e, line2 - 0x80) == LineBytes(m2)
  {
    var b1 := StringWrites(m1, line1);
    var b2 := StringWrites(m2, line2);
    AppendAssoc(b1, b2, rest);
    ShowsLine(d, m1, line1, b2 + rest);
    ShowsLine(d, m1, line1, b2);
    var d1 := Execute(d, Received(b1));
    ShowsLine(d1, m2, line2, rest);
    ShowsLine(d1, m2, line2, []);
    assert b2 + [] == b2;
    StringKeepsRow(d1, m2, line2, line1 - 0x80);
  }

  /** lcd_clear: whatever was shown before, both rows then hold spaces only,
      and the rest of the writes act on the display as left by the clear. */
  lemma ClearShowsBlank(d: Display, rest: seq<Write>)
    ensures var e := Execute(d, Received(StringWrites("", LCD_LINE_1) + StringWrites("", LCD_LINE_2)));
      && Execute(d, Received(StringWrites("", LCD_LINE_1) + StringWrites("", LCD_LINE_2) + rest))
         == Execute(e, Received(rest))
      && Row(e, 0) == LineBytes("") && Row(e, 0x40) == LineBytes("")
  {
    ShowsTwoLines(d, "", LCD_LINE_1, "", LCD_LINE_2, rest);
  }

  /** Six lcd_byte commands are received as those six commands, in order. */
  lemma ReceivedCommands(c1: nat, c2: nat, c3: nat, c4: nat, c5: nat, c6: nat, rest: seq<Write>)
    requires c1 < 256 && c2 < 256 && c3 < 256 && c4 < 256 && c5 < 256 && c6 < 256
    ensures Received(ByteWrites(c1, LCD_CMD) + ByteWrites(c2, LCD_CMD) + ByteWrites(c3, LCD_CMD)
                     + ByteWrites(c4, LCD_CMD) + ByteWrites(c5, LCD_CMD) + ByteWrites(c6, LCD_CMD) + rest)
         == [Transfer(LCD_CMD, c1), Transfer(LCD_CMD, c2), Transfer(LCD_CMD, c3),
             Transfer(LCD_CMD, c4), Transfer(LCD_CMD, c5), Transfer(LCD_CMD, c6)] + Received(rest)
  {
    var w1, w2, w3 := ByteWrites(c1, LCD_CMD), ByteWrites(c2, LCD_CMD), ByteWrites(c3, LCD_CMD);
    var w4, w5, w6 := ByteWrites(c4, LCD_CMD), ByteWrites(c5, LCD_CMD), ByteWrites(c6, LCD_CMD);
    AppendAssoc(w1 + w2 + w3 + w4 + w5, w6, rest);
    AppendAssoc(w1 + w2 + w3 + w4, w5, w6 + rest);
    AppendAssoc(w1 + w2 + w3, w4, w5 + (w6 + rest));
    AppendAssoc(w1 + w2, w3, w4 + (w5 + (w6 + rest)));
    AppendAssoc(w1, w2, w3 + (w4 + (w5 + (w6 + rest))));
    ReceivedByte(c1, LCD_CMD, w2 + (w3 + (w4 + (w5 + (w6 + rest)))));
    ReceivedByte(c2, LCD_CMD, w3 + (w4 + (w5 + (w6 + rest))));
    ReceivedByte(c3, LCD_CMD, w4 + (w5 + (w6 + rest)));
    ReceivedByte(c4, LCD_CMD, w5 + (w6 + rest));
    ReceivedByte(c5, LCD_CMD, w6 + rest);
    ReceivedByte(c6, LCD_CMD, rest);
    AndFFOfByte(c1);
    AndFFOfByte(c2);
    AndFFOfByte(c3);
    AndFFOfByte(c4);
    AndFFOfByte(c5);
    AndFFOfByte(c6);
  }

  /** lcd_init delivers the six commands 0x33, 0x32, 0x06, 0x0C, 0x28, 0x01 in
      that order, as commands. */
  lemma InitReceived(rest: seq<Write>)
    ensures Received(ByteWrites(0x33, LCD_CMD) + ByteWrites(0x32, LCD_CMD) + ByteWrites(0x06, LCD_CMD)
                     + ByteWrites(0x0C, LCD_CMD) + ByteWrites(0x28, LCD_CMD) + ByteWrites(0x01, LCD_CMD) + rest)
         == [Transfer(LCD_CMD, 0x33), Transfer(LCD_CMD, 0x32), Transfer(LCD_CMD, 0x06),
             Transfer(LCD_CMD, 0x0C), Transfer(LCD_CMD, 0x28), Transfer(LCD_CMD, 0x01)] + Received(rest)
  {
    ReceivedCommands(0x33, 0x32, 0x06, 0x0C, 0x28, 0x01, rest);
  }

  /** A command below 0x80 other than 0x01 leaves the display RAM and the
      cursor alone. */
  lemma PlainCommand(d: Display, c: nat, rest: seq<Transfer>)
    requires c < 0x80 && c != 0x01
    ensures Execute(d, [Transfer(LCD_CMD, c)] + rest) == Execute(d, rest)
  {
    assert Pow2(7) == 0x80;
    BitsAbove(c, 7, 7);
    assert ([Transfer(LCD_CMD, c)] + rest)[1..] == rest;
  }

  /** Of the initialisation commands only the final 0x01 (clear) touches the
      display RAM, so afterwards it is empty with the cursor at 0, whatever
      the controller held before. */
  lemma InitCommandsClear(d: Display, rest: seq<Transfer>)
    ensures Execute(d, [Transfer(LCD_CMD, 0x33), Transfer(LCD_CMD, 0x32), Transfer(LCD_CMD, 0x06),
                        Transfer(LCD_CMD, 0x0C), Transfer(LCD_CMD, 0x28), Transfer(LCD_CMD, 0x01)] + rest)
         == Execute(Display(map[], 0), rest)
  {
    var t6 := [Transfer(LCD_CMD, 0x01)] + rest;
    var t5 := [Transfer(LCD_CMD, 0x28)] + t6;
    var t4 := [Transfer(LCD_CMD, 0x0C)] + t5;
    var t3 := [Transfer(LCD_CMD, 0x06)] + t4;
    var t2 := [Transfer(LCD_CMD, 0x32)] + t3;
    var t1 := [Transfer(LCD_CMD, 0x33)] + t2;
    assert t1 == [Transfer(LCD_CMD, 0x33), Transfer(LCD_CMD, 0x32), Transfer(LCD_CMD, 0x06),
                  Transfer(LCD_CMD, 0x0C), Transfer(LCD_CMD, 0x28), Transfer(LCD_CMD, 0x01)] + rest;
    PlainCommand(d, 0x33, t2);
    PlainCommand(d, 0x32, t3);
    PlainCommand(d, 0x06, t4);
    PlainCommand(d, 0x0C, t5);
    PlainCommand(d, 0x28, t6);
    assert Pow2(7) == 0x80;
    BitsAbove(0x01, 7, 7);
    assert t6[1..] == rest;
  }
}
