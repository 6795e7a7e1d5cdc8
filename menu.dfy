/**
 * The two-level menu of enderDashboard.py's main loop, as functions of the
 * navigation state: what one render pass captures and writes, and what one
 * decoded key byte changes and runs.  The class in dashboard.dfy performs
 * these steps in place; the lemmas here say what they mean.
 */
module Menu {
  import opened Lcd
  import opened Keypad
  import opened Controller

  /** One entry of a menu item: the label shown and the shell command run. */
  datatype Option = Option(name: string, cmd: string)

  /** One top-level menu item, in configuration-file order. */
  datatype Item = Item(name: string, options: seq<Option>)

  /** readMenu's second result: the number of items minus one. */
  function LastIndex(menu: seq<Item>): int
  {
    |menu| - 1
  }

  /** The loop variables of main: isMenuTopLevel, menuItemCounter,
      menuItemOptionCounter, and the three values the render pass captures
      (menuItemOptions, menuItemOptionCmd, enderMenuNumOfOptionItems). */
  datatype Nav = Nav(
    isTopLevel: bool,
    itemCounter: int,
    optionCounter: int,
    options: seq<Option>,
    optionCmd: string,
    numOfOptionItems: int)

  /** The state before the first pass.  enderMenuNumOfOptionItems is not yet
      bound in the source; it is only read after an option-level render has
      set it, and -1 stands for it here. */
  function Initial(): Nav
  {
    Nav(true, 0, 0, [], "", -1)
  }

  /** The range facts the loop keeps. */
  predicate Valid(menu: seq<Item>, s: Nav)
  {
    0 <= s.itemCounter <= LastIndex(menu) && 0 <= s.optionCounter
  }

  function ItemNames(menu: seq<Item>): (r: seq<string>)
    ensures |r| == |menu| && forall i :: 0 <= i < |menu| ==> r[i] == menu[i].name
  {
    seq(|menu|, i requires 0 <= i < |menu| => menu[i].name)
  }

  function OptionNames(options: seq<Option>): (r: seq<string>)
    ensures |r| == |options| && forall i :: 0 <= i < |options| ==> r[i] == options[i].name
  {
    seq(|options|, i requires 0 <= i < |options| => options[i].name)
  }

  // ---------------------------------------------------------------------
  // Render pass

  /** The window line 1 shows, when the counter is at an entry. */
  function FirstLine(names: seq<string>, counter: int): seq<Write>
  {
    if 0 <= counter < |names| then StringWrites(">" + names[counter], LCD_LINE_1) else []
  }

  /** The window line 2 shows, when the entry after the counter exists. */
  function SecondLine(names: seq<string>, counter: int): seq<Write>
  {
    if 0 <= counter + 1 < |names| then StringWrites(" " + names[counter + 1], LCD_LINE_2) else []
  }

  /** The two-row window anchored at counter: the entry at counter on line 1
      behind ">", and the next entry, if there is one, on line 2 behind " ". */
  function WindowWrites(names: seq<string>, counter: int): seq<Write>
  {
    FirstLine(names, counter) + SecondLine(names, counter)
  }

  /** The render walk over the entries of a level, one entry at a time:
      entry i contributes line1 when it is at the counter and line2 when it
      is just after it; walk(i) is what the first i entries contributed. */
  function Walk<T>(line1: seq<T>, line2: seq<T>, counter: int, i: nat): seq<T>
  {
    if i == 0 then []
    else if i - 1 == counter then Walk(line1, line2, counter, i - 1) + line1
    else if i - 1 == counter + 1 then Walk(line1, line2, counter, i - 1) + line2
    else Walk(line1, line2, counter, i - 1)
  }

  /** One more entry of the walk: a log that held start and the walk over
      i entries, extended by what entry i contributes, holds start and the
      walk over i + 1 entries. */
  lemma WalkStep<T>(start: seq<T>, line1: seq<T>, line2: seq<T>, counter: int, i: nat, before: seq<T>, after: seq<T>)
    requires before == start + Walk(line1, line2, counter, i)
    requires i == counter ==> after == before + line1
    requires i == counter + 1 ==> after == before + line2
    requires i != counter && i != counter + 1 ==> after == before
    ensures after == start + Walk(line1, line2, counter, i + 1)
  {
    if i == counter {
      AppendAssoc(start, Walk(line1, line2, counter, i), line1);
    } else if i == counter + 1 {
      AppendAssoc(start, Walk(line1, line2, counter, i), line2);
    }
  }

  /** After i entries the walk has contributed the window lines whose
      entries it has passed, line 1 first. */
  lemma {:induction false} WalkWindow<T>(line1: seq<T>, line2: seq<T>, counter: int, i: nat)
    ensures Walk(line1, line2, counter, i)
         == (if 0 <= counter < i then line1 else []) + (if 0 <= counter + 1 < i then line2 else [])
  {
    if i > 0 {
      WalkWindow(line1, line2, counter, i - 1);
      if i - 1 == counter {
        assert Walk(line1, line2, counter, i - 1) == [];
      } else if i - 1 == counter + 1 {
        assert Walk(line1, line2, counter, i - 1) == (if 0 <= counter then line1 else []);
      }
    }
  }

  /** The display e shows the window of names anchored at k: ">" and the
      entry at k on line 1, " " and the next entry on line 2, and a blank
      row where there is no entry to show. */
  predicate Shows(e: Display, names: seq<string>, k: int)
  {
    && Row(e, 0) == (if 0 <= k < |names| then LineBytes(">" + names[k]) else LineBytes(""))
    && Row(e, 0x40) == (if 0 <= k + 1 < |names| then LineBytes(" " + names[k + 1]) else LineBytes(""))
  }

  /** Everything one render pass writes to the LCD. */
  function RenderWrites(menu: seq<Item>, s: Nav): seq<Write>
  {
    StringWrites("", LCD_LINE_1) + StringWrites("", LCD_LINE_2) +
      if s.isTopLevel then WindowWrites(ItemNames(menu), s.itemCounter)
      else WindowWrites(OptionNames(s.options), s.optionCounter)
  }

  /** What one render pass captures.  At top level: the options of the item
      at the counter (none if the counter is outside the menu).  At option
      level: the index of the last option, and the command of the option at
      the counter, or the previous command if there is no option there. */
  function Rendered(menu: seq<Item>, s: Nav): (r: Nav)
    ensures r.isTopLevel == s.isTopLevel && r.itemCounter == s.itemCounter
    ensures r.optionCounter == s.optionCounter
  {
    if s.isTopLevel then
      s.(options := if 0 <= s.itemCounter < |menu| then menu[s.itemCounter].options else [])
    else
      s.(numOfOptionItems := |s.options| - 1,
         optionCmd := if 0 <= s.optionCounter < |s.options| then s.options[s.optionCounter].cmd else s.optionCmd)
  }

  // ---------------------------------------------------------------------
  // Key handling

  /** The state after handling one raw key byte; Up, Down, Right and Left
      are each tested, in that order, so a chord can do several things. */
  function Next(numOfItems: int, s: Nav, raw: nat): Nav
  {
    if raw == KEY_NONE then s
    else if s.isTopLevel then
      var c1 := if IsKeyPressed(raw, KEY_UP) == 1 && s.itemCounter > 0 then s.itemCounter - 1 else s.itemCounter;
      var c2 := if IsKeyPressed(raw, KEY_DOWN) == 1 && c1 < numOfItems then c1 + 1 else c1;
      s.(itemCounter := c2, isTopLevel := IsKeyPressed(raw, KEY_RIGHT) != 1)
    else
      var o1 := if IsKeyPressed(raw, KEY_UP) == 1 && s.optionCounter > 0 then s.optionCounter - 1 else s.optionCounter;
      var o2 := if IsKeyPressed(raw, KEY_DOWN) == 1 && o1 < s.numOfOptionItems then o1 + 1 else o1;
      s.(optionCounter := o2, isTopLevel := IsKeyPressed(raw, KEY_LEFT) == 1)
  }

  /** The commands handed to the shell while handling one raw key byte. */
  function Run(s: Nav, raw: nat): seq<string>
  {
    if raw != KEY_NONE && !s.isTopLevel && IsKeyPressed(raw, KEY_RIGHT) == 1 then [s.optionCmd] else []
  }

  /** The LCD writes of the key handling: a clear when no key is reported. */
  function KeyWrites(raw: nat): seq<Write>
  {
    if raw == KEY_NONE then StringWrites("", LCD_LINE_1) + StringWrites("", LCD_LINE_2) else []
  }

  // ---------------------------------------------------------------------
  // The main loop over a stream of raw key bytes

  /** One loop iteration: render, then handle the key byte read. */
  function Cycle(menu: seq<Item>, s: Nav, raw: nat): Nav
  {
    Next(LastIndex(menu), Rendered(menu, s), raw)
  }

  function Loop(menu: seq<Item>, s: Nav, raws: seq<nat>): Nav
    decreases |raws|
  {
    if raws == [] then s
    else Cycle(menu, Loop(menu, s, raws[..|raws| - 1]), raws[|raws| - 1])
  }

  function LoopRuns(menu: seq<Item>, s: Nav, raws: seq<nat>): seq<string>
    decreases |raws|
  {
    if raws == [] then []
    else
      var before := Loop(menu, s, raws[..|raws| - 1]);
      LoopRuns(menu, s, raws[..|raws| - 1]) + Run(Rendered(menu, before), raws[|raws| - 1])
  }

  function LoopWrites(menu: seq<Item>, s: Nav, raws: seq<nat>): seq<Write>
    decreases |raws|
  {
    if raws == [] then []
    else
      var before := Loop(menu, s, raws[..|raws| - 1]);
      LoopWrites(menu, s, raws[..|raws| - 1]) + RenderWrites(menu, before) + KeyWrites(raws[|raws| - 1])
  }

  /** Raw bytes with exactly one button held: its bit clear, every other
      bit of the byte set. */
  const UP_RAW: nat := 0xFB
  const DOWN_RAW: nat := 0xFD
  const LEFT_RAW: nat := 0xFE
  const RIGHT_RAW: nat := 0xF7

  lemma SingleKeys()
    ensures Decode(UP_RAW) == Keys(true, false, false, false) && UP_RAW != KEY_NONE
    ensures Decode(DOWN_RAW) == Keys(false, true, false, false) && DOWN_RAW != KEY_NONE
    ensures Decode(LEFT_RAW) == Keys(false, false, true, false) && LEFT_RAW != KEY_NONE
    ensures Decode(RIGHT_RAW) == Keys(false, false, false, true) && RIGHT_RAW != KEY_NONE
  {
  }

  function Repeat(raw: nat, n: nat): (r: seq<nat>)
    ensures |r| == n && forall i :: 0 <= i < n ==> r[i] == raw
  {
    seq(n, _ => raw)
  }

  // ---------------------------------------------------------------------
  // Properties

  /** A raw byte equal to KEY_NONE changes nothing and runs nothing. */
  lemma {:induction false} NoKeyNoChange(s: Nav)
    ensures Next(0, s, KEY_NONE) == s && Run(s, KEY_NONE) == []
    ensures forall n: int :: Next(n, s, KEY_NONE) == s
  {
  }

  /** A pressed key is never the no-key byte. */
  lemma {:induction false} PressedIsNotNone(raw: nat)
    requires Decode(raw) != Keys(false, false, false, false)
    ensures raw != KEY_NONE
  {
    NoneIsNoKey();
  }

  /** At top level the counter moves by clamping, never wrapping: Up lowers
      it only above 0, Down raises it only below the last index, so it stays
      within the menu; Right enters the option level; the option state is
      untouched and no command runs. */
  lemma {:induction false} TopLevelStep(menu: seq<Item>, s: Nav, raw: nat)
    requires s.isTopLevel && Valid(menu, s)
    ensures var t := Next(LastIndex(menu), s, raw); var k := Decode(raw);
      && Valid(menu, t)
      && t.optionCounter == s.optionCounter && t.options == s.options && t.optionCmd == s.optionCmd
      && t.numOfOptionItems == s.numOfOptionItems
      && Run(s, raw) == []
      && (raw != KEY_NONE ==> (t.isTopLevel <==> !k.right))
      && (k.up && !k.down ==> t.itemCounter == if s.itemCounter > 0 then s.itemCounter - 1 else 0)
      && (k.down && !k.up ==> t.itemCounter == if s.itemCounter < LastIndex(menu) then s.itemCounter + 1 else s.itemCounter)
      && (!k.up && !k.down ==> t.itemCounter == s.itemCounter)
  {
    if Decode(raw) != Keys(false, false, false, false) {
      PressedIsNotNone(raw);
    }
  }

  /** At option level the item counter never changes; Right runs the
      captured command exactly once; Left returns to top level; the option
      counter stays non-negative and only passes the last option index if it
      already had. */
  lemma {:induction false} OptionLevelStep(s: Nav, raw: nat, numOfItems: int)
    requires !s.isTopLevel && s.optionCounter >= 0
    ensures var t := Next(numOfItems, s, raw); var k := Decode(raw);
      && t.itemCounter == s.itemCounter
      && t.optionCounter >= 0
      && (s.optionCounter <= s.numOfOptionItems ==> t.optionCounter <= s.numOfOptionItems)
      && (s.optionCounter > s.numOfOptionItems ==> t.optionCounter <= s.optionCounter)
      && (raw != KEY_NONE ==> (t.isTopLevel <==> k.left))
      && Run(s, raw) == (if raw != KEY_NONE && k.right then [s.optionCmd] else [])
      && (k.up && !k.down ==> t.optionCounter == if s.optionCounter > 0 then s.optionCounter - 1 else 0)
      && (k.down && !k.up && s.optionCounter < s.numOfOptionItems ==> t.optionCounter == s.optionCounter + 1)
      && t.options == s.options && t.optionCmd == s.optionCmd && t.numOfOptionItems == s.numOfOptionItems
  {
  }

  /** Every loop iteration keeps the counters in range. */
  lemma {:induction false} CycleKeepsValid(menu: seq<Item>, s: Nav, raw: nat)
    requires Valid(menu, s)
    ensures Valid(menu, Cycle(menu, s, raw))
  {
    var r := Rendered(menu, s);
    if r.isTopLevel {
      TopLevelStep(menu, r, raw);
    } else {
      OptionLevelStep(r, raw, LastIndex(menu));
    }
  }

  lemma {:induction false} LoopKeepsValid(menu: seq<Item>, s: Nav, raws: seq<nat>)
    requires Valid(menu, s)
    ensures Valid(menu, Loop(menu, s, raws))
    decreases |raws|
  {
    if raws != [] {
      LoopKeepsValid(menu, s, raws[..|raws| - 1]);
      CycleKeepsValid(menu, Loop(menu, s, raws[..|raws| - 1]), raws[|raws| - 1]);
    }
  }

  /** However often Up is pressed at top level, the counter stops at 0. */
  lemma {:induction false} RepeatedUp(menu: seq<Item>, s: Nav, n: nat)
    requires s.isTopLevel && Valid(menu, s)
    ensures var t := Loop(menu, s, Repeat(UP_RAW, n));
      t.isTopLevel && t.itemCounter == if s.itemCounter >= n then s.itemCounter - n else 0
  {
    if n > 0 {
      assert Repeat(UP_RAW, n)[..n - 1] == Repeat(UP_RAW, n - 1);
      RepeatedUp(menu, s, n - 1);
      var before := Loop(menu, s, Repeat(UP_RAW, n - 1));
      LoopKeepsValid(menu, s, Repeat(UP_RAW, n - 1));
      SingleKeys();
      TopLevelStep(menu, Rendered(menu, before), UP_RAW);
    }
  }

  /** However often Down is pressed at top level, the counter stops at the
      last index. */
  lemma {:induction false} RepeatedDown(menu: seq<Item>, s: Nav, n: nat)
    requires s.isTopLevel && Valid(menu, s)
    ensures var t := Loop(menu, s, Repeat(DOWN_RAW, n));
      t.isTopLevel && t.itemCounter == if s.itemCounter + n <= LastIndex(menu) then s.itemCounter + n else LastIndex(menu)
  {
    if n > 0 {
      assert Repeat(DOWN_RAW, n)[..n - 1] == Repeat(DOWN_RAW, n - 1);
      RepeatedDown(menu, s, n - 1);
      var before := Loop(menu, s, Repeat(DOWN_RAW, n - 1));
      LoopKeepsValid(menu, s, Repeat(DOWN_RAW, n - 1));
      SingleKeys();
      TopLevelStep(menu, Rendered(menu, before), DOWN_RAW);
    }
  }

  /** The render window on the display: after a render pass, whatever the
      display showed before, line 1 shows ">" and the entry at the counter
      and line 2 shows " " and the next entry; a row with no entry to show
      stays blank from the clear. */
  lemma {:induction false} WindowShown(d: Display, names: seq<string>, k: int)
    ensures Shows(Execute(d, Received(StringWrites("", LCD_LINE_1) + StringWrites("", LCD_LINE_2) + WindowWrites(names, k))), names, k)
  {
    ClearShowsBlank(d, WindowWrites(names, k));
    WindowOnBlank(Execute(d, Received(StringWrites("", LCD_LINE_1) + StringWrites("", LCD_LINE_2))), names, k);
  }

  /** The window lines written over a display whose two rows are blank. */
  lemma {:induction false} WindowOnBlank(e: Display, names: seq<string>, k: int)
    requires Row(e, 0) == LineBytes("") && Row(e, 0x40) == LineBytes("")
    ensures Shows(Execute(e, Received(WindowWrites(names, k))), names, k)
  {
    if 0 <= k < |names| {
      WindowAtEntry(e, names, k);
    } else if 0 <= k + 1 < |names| {
      WindowBeforeFirst(e, names, k);
    } else {
      var c := FirstLine(names, k);
      var n := SecondLine(names, k);
      ReceivedNothing();
      assert c + n == [];
    }
  }

  /** The counter one before the first entry: only line 2 is written. */
  lemma WindowBeforeFirst(e: Display, names: seq<string>, k: int)
    requires k == -1 && 0 < |names|
    requires Row(e, 0) == LineBytes("")
    ensures Shows(Execute(e, Received(WindowWrites(names, k))), names, k)
  {
    var c := FirstLine(names, k);
    var n := SecondLine(names, k);
    ShowsLine(e, " " + names[k + 1], LCD_LINE_2, []);
    StringKeepsRow(e, " " + names[k + 1], LCD_LINE_2, 0);
    assert c + n == n;
  }

  /** The window over blank rows when there is an entry at the counter. */
  lemma {:induction false} WindowAtEntry(e: Display, names: seq<string>, k: int)
    requires 0 <= k < |names|
    requires Row(e, 0x40) == LineBytes("")
    ensures Shows(Execute(e, Received(WindowWrites(names, k))), names, k)
  {
    if k + 1 < |names| {
      WindowTwoEntries(e, names, k);
    } else {
      WindowLastEntry(e, names, k);
    }
  }

  /** Both rows of the window written: the counter's entry and the next. */
  lemma WindowTwoEntries(e: Display, names: seq<string>, k: int)
    requires 0 <= k && k + 1 < |names|
    ensures Shows(Execute(e, Received(WindowWrites(names, k))), names, k)
  {
    var c := FirstLine(names, k);
    var n := SecondLine(names, k);
    ShowsTwoLines(e, ">" + names[k], LCD_LINE_1, " " + names[k + 1], LCD_LINE_2, []);
    assert c + n + [] == c + n;
  }

  /** The counter at the last entry: line 1 is written, line 2 stays blank. */
  lemma WindowLastEntry(e: Display, names: seq<string>, k: int)
    requires 0 <= k && k + 1 == |names|
    requires Row(e, 0x40) == LineBytes("")
    ensures Shows(Execute(e, Received(WindowWrites(names, k))), names, k)
  {
    var c := FirstLine(names, k);
    var n := SecondLine(names, k);
    ShowsLine(e, ">" + names[k], LCD_LINE_1, []);
    StringKeepsRow(e, ">" + names[k], LCD_LINE_1, 0x40);
    assert c + n == c;
  }

  /** What a render pass shows, whatever the display showed before: at top
      level the item names anchored at the item counter, at option level
      the option names of the entered item anchored at the option counter. */
  lemma {:induction false} RenderShows(d: Display, menu: seq<Item>, s: Nav)
    ensures s.isTopLevel ==> Shows(Execute(d, Received(RenderWrites(menu, s))), ItemNames(menu), s.itemCounter)
    ensures !s.isTopLevel ==> Shows(Execute(d, Received(RenderWrites(menu, s))), OptionNames(s.options), s.optionCounter)
  {
    var blank := StringWrites("", LCD_LINE_1) + StringWrites("", LCD_LINE_2);
    if s.isTopLevel {
      assert RenderWrites(menu, s) == blank + WindowWrites(ItemNames(menu), s.itemCounter);
      WindowShown(d, ItemNames(menu), s.itemCounter);
    } else {
      assert RenderWrites(menu, s) == blank + WindowWrites(OptionNames(s.options), s.optionCounter);
      WindowShown(d, OptionNames(s.options), s.optionCounter);
    }
  }

  /** At option level, the option marked ">" on line 1 is the one whose
      command Right runs. */
  lemma {:induction false} ShownOptionRuns(d: Display, menu: seq<Item>, s: Nav)
    requires !s.isTopLevel && 0 <= s.optionCounter < |s.options|
    ensures Row(Execute(d, Received(RenderWrites(menu, s))), 0) == LineBytes(">" + s.options[s.optionCounter].name)
    ensures Run(Rendered(menu, s), RIGHT_RAW) == [s.options[s.optionCounter].cmd]
  {
    RenderShows(d, menu, s);
    assert OptionNames(s.options)[s.optionCounter] == s.options[s.optionCounter].name;
    RightKey(LastIndex(menu), Rendered(menu, s));
  }

  /** Right at top level enters the item marked ">": the option level then
      lists that item's options, starting from the option counter as it was. */
  lemma {:induction false} EnterItem(menu: seq<Item>, s: Nav)
    requires s.isTopLevel && Valid(menu, s)
    ensures var t := Cycle(menu, s, RIGHT_RAW);
      && !t.isTopLevel && t.itemCounter == s.itemCounter && t.optionCounter == s.optionCounter
      && t.options == menu[s.itemCounter].options
    ensures Run(Rendered(menu, s), RIGHT_RAW) == []
  {
    RightKey(LastIndex(menu), Rendered(menu, s));
  }

  /** A raw byte with Down and Right held together. */
  const DOWN_RIGHT_RAW: nat := 0xF5

  /** A chord acts on what the render pass captured.  At top level
      Down+Right moves to the next item and enters the option level, but the
      options listed there are those of the item the window was rendered on. */
  lemma {:induction false} TopLevelChord(menu: seq<Item>, s: Nav)
    requires s.isTopLevel && Valid(menu, s) && s.itemCounter < LastIndex(menu)
    ensures var t := Cycle(menu, s, DOWN_RIGHT_RAW);
      && !t.isTopLevel && t.itemCounter == s.itemCounter + 1
      && t.options == menu[s.itemCounter].options
    ensures Run(Rendered(menu, s), DOWN_RIGHT_RAW) == []
  {
  }

  /** At option level Down+Right: Down moves the counter past the option
      marked ">", and Right, tested after it, still runs that option's
      command, captured by the render. */
  lemma {:induction false} OptionLevelChord(menu: seq<Item>, s: Nav)
    requires !s.isTopLevel && 0 <= s.optionCounter && s.optionCounter + 1 < |s.options|
    ensures Run(Rendered(menu, s), DOWN_RIGHT_RAW) == [s.options[s.optionCounter].cmd]
    ensures var t := Cycle(menu, s, DOWN_RIGHT_RAW);
      !t.isTopLevel && t.optionCounter == s.optionCounter + 1
  {
  }

  /** One more key byte extends the loop by one iteration. */
  lemma {:induction false} LoopSnoc(menu: seq<Item>, s: Nav, raws: seq<nat>, raw: nat)
    ensures Loop(menu, s, raws + [raw]) == Cycle(menu, Loop(menu, s, raws), raw)
    ensures LoopRuns(menu, s, raws + [raw]) == LoopRuns(menu, s, raws) + Run(Rendered(menu, Loop(menu, s, raws)), raw)
  {
    assert (raws + [raw])[..|raws|] == raws;
  }

  lemma {:induction false} LoopWritesSnoc(menu: seq<Item>, s: Nav, raws: seq<nat>, raw: nat)
    ensures LoopWrites(menu, s, raws + [raw])
         == LoopWrites(menu, s, raws) + RenderWrites(menu, Loop(menu, s, raws)) + KeyWrites(raw)
  {
    assert (raws + [raw])[..|raws|] == raws;
  }

  /** What each single button does at either level: Right enters the
      option level, or at option level stays there and runs the captured
      command; Left returns to top level; Down and Up move the counter of
      the current level by one, clamped. */
  lemma {:induction false} RightKey(n: int, s: Nav)
    ensures Next(n, s, RIGHT_RAW) == s.(isTopLevel := false)
    ensures Run(s, RIGHT_RAW) == if s.isTopLevel then [] else [s.optionCmd]
  {
    SingleKeys();
  }

  lemma {:induction false} LeftKey(n: int, s: Nav)
    ensures Next(n, s, LEFT_RAW) == s.(isTopLevel := true) && Run(s, LEFT_RAW) == []
  {
    SingleKeys();
  }

  lemma {:induction false} DownKey(n: int, s: Nav)
    ensures Next(n, s, DOWN_RAW) == (if s.isTopLevel then s.(itemCounter := if s.itemCounter < n then s.itemCounter + 1 else s.itemCounter)
                                     else s.(optionCounter := if s.optionCounter < s.numOfOptionItems then s.optionCounter + 1 else s.optionCounter))
    ensures Run(s, DOWN_RAW) == []
  {
    SingleKeys();
  }

  lemma {:induction false} UpKey(n: int, s: Nav)
    ensures Next(n, s, UP_RAW) == (if s.isTopLevel then s.(itemCounter := if s.itemCounter > 0 then s.itemCounter - 1 else s.itemCounter)
                                   else s.(optionCounter := if s.optionCounter > 0 then s.optionCounter - 1 else s.optionCounter))
    ensures Run(s, UP_RAW) == []
  {
    SingleKeys();
  }

  /** Entering an item with Right and leaving it with Left, with a render
      before each key, returns to top level at the same item and runs
      nothing. */
  lemma {:induction false} EnterThenLeave(menu: seq<Item>, s: Nav)
    requires s.isTopLevel && Valid(menu, s)
    ensures var t := Loop(menu, s, [RIGHT_RAW, LEFT_RAW]);
      t.isTopLevel && t.itemCounter == s.itemCounter
    ensures LoopRuns(menu, s, [RIGHT_RAW, LEFT_RAW]) == []
  {
    LoopSnoc(menu, s, [], RIGHT_RAW);
    var s1 := Loop(menu, s, [RIGHT_RAW]);
    RightKey(LastIndex(menu), Rendered(menu, s));
    LoopSnoc(menu, s, [RIGHT_RAW], LEFT_RAW);
    LeftKey(LastIndex(menu), Rendered(menu, s1));
    assert [RIGHT_RAW] + [LEFT_RAW] == [RIGHT_RAW, LEFT_RAW];
  }

  /** A two-item menu: A = [n1: c1, n2: c2] and B = [n3: c3]. */
  function TwoItemMenu(a: string, b: string, n1: string, c1: string, n2: string, c2: string,
                       n3: string, c3: string): (r: seq<Item>)
    ensures |r| == 2 && r[0].options == [Option(n1, c1), Option(n2, c2)]
  {
    [Item(a, [Option(n1, c1), Option(n2, c2)]), Item(b, [Option(n3, c3)])]
  }

  /** On a two-item menu whose first item has the options n1: c1 and
      n2: c2, Right enters that item, Down moves to its second option
      (capturing c1 on the way), and nothing runs. */
  lemma {:induction false} EnterAndScroll(menu: seq<Item>, n1: string, c1: string, n2: string, c2: string)
    requires |menu| == 2 && menu[0].options == [Option(n1, c1), Option(n2, c2)]
    ensures Loop(menu, Initial(), [RIGHT_RAW, DOWN_RAW]) == Nav(false, 0, 1, menu[0].options, c1, 1)
    ensures LoopRuns(menu, Initial(), [RIGHT_RAW, DOWN_RAW]) == []
  {
    var s0 := Initial();
    var s1 := Nav(false, 0, 0, menu[0].options, "", -1);
    assert Loop(menu, s0, [RIGHT_RAW]) == s1 && LoopRuns(menu, s0, [RIGHT_RAW]) == [] by {
      LoopSnoc(menu, s0, [], RIGHT_RAW);
      RightKey(1, Rendered(menu, s0));
    }
    LoopSnoc(menu, s0, [RIGHT_RAW], DOWN_RAW);
    DownKey(1, Rendered(menu, s1));
    assert [RIGHT_RAW] + [DOWN_RAW] == [RIGHT_RAW, DOWN_RAW];
  }

  /** On TwoItemMenu, the keys Right, Down, Right, Left from the initial
      state end at top level on A, having run c2 and nothing else. */
  lemma {:induction false} RunSecondOption(a: string, b: string, n1: string, c1: string, n2: string, c2: string,
                                           n3: string, c3: string)
    ensures var menu := TwoItemMenu(a, b, n1, c1, n2, c2, n3, c3);
      var raws := [RIGHT_RAW, DOWN_RAW, RIGHT_RAW, LEFT_RAW];
      && Loop(menu, Initial(), raws).isTopLevel
      && Loop(menu, Initial(), raws).itemCounter == 0
      && LoopRuns(menu, Initial(), raws) == [c2]
  {
    var menu := TwoItemMenu(a, b, n1, c1, n2, c2, n3, c3);
    var s0 := Initial();
    EnterAndScroll(menu, n1, c1, n2, c2);
    var r2 := [RIGHT_RAW, DOWN_RAW];
    var s2 := Nav(false, 0, 1, menu[0].options, c1, 1);
    var r3 := r2 + [RIGHT_RAW];
    var s3 := Nav(false, 0, 1, menu[0].options, c2, 1);
    assert Loop(menu, s0, r3) == s3 && LoopRuns(menu, s0, r3) == [c2] by {
      LoopSnoc(menu, s0, r2, RIGHT_RAW);
      RightKey(1, Rendered(menu, s2));
    }
    var r4 := r3 + [LEFT_RAW];
    LoopSnoc(menu, s0, r3, LEFT_RAW);
    LeftKey(1, Rendered(menu, s3));
    assert r4 == [RIGHT_RAW, DOWN_RAW, RIGHT_RAW, LEFT_RAW];
  }

  /** The loop over two key streams is the loop over the second starting
      where the first left off. */
  lemma {:induction false} LoopAppend(menu: seq<Item>, s: Nav, r: seq<nat>, q: seq<nat>)
    ensures Loop(menu, s, r + q) == Loop(menu, Loop(menu, s, r), q)
    decreases |q|
  {
    if q == [] {
      assert r + q == r;
    } else {
      var q' := q[..|q| - 1];
      var x := q[|q| - 1];
      assert r + q == (r + q') + [x];
      LoopAppend(menu, s, r, q');
      LoopSnoc(menu, s, r + q', x);
    }
  }

  /** The commands run over two key streams are those of the first followed
      by those of the second. */
  lemma {:induction false} LoopRunsAppend(menu: seq<Item>, s: Nav, r: seq<nat>, q: seq<nat>)
    ensures LoopRuns(menu, s, r + q) == LoopRuns(menu, s, r) + LoopRuns(menu, Loop(menu, s, r), q)
    decreases |q|
  {
    if q == [] {
      assert r + q == r;
    } else {
      var q' := q[..|q| - 1];
      var x := q[|q| - 1];
      assert r + q == (r + q') + [x];
      LoopRunsAppend(menu, s, r, q');
      LoopAppend(menu, s, r, q');
      LoopSnoc(menu, s, r + q', x);
    }
  }

  /** The source does not reset the option counter when an item is entered:
      entering an item whose options all lie below the counter left over
      from an earlier item, Right runs the command captured for that earlier
      item rather than one of the entered item's own. */
  lemma {:induction false} StaleCommand(menu: seq<Item>, s: Nav)
    requires s.isTopLevel && 0 <= s.itemCounter < |menu|
    requires s.optionCounter >= |menu[s.itemCounter].options|
    ensures LoopRuns(menu, s, [RIGHT_RAW, RIGHT_RAW]) == [s.optionCmd]
  {
    var s1 := s.(isTopLevel := false, options := menu[s.itemCounter].options);
    assert Loop(menu, s, [RIGHT_RAW]) == s1 && LoopRuns(menu, s, [RIGHT_RAW]) == [] by {
      LoopSnoc(menu, s, [], RIGHT_RAW);
      RightKey(LastIndex(menu), Rendered(menu, s));
    }
    LoopSnoc(menu, s, [RIGHT_RAW], RIGHT_RAW);
    RightKey(LastIndex(menu), Rendered(menu, s1));
    assert [RIGHT_RAW] + [RIGHT_RAW] == [RIGHT_RAW, RIGHT_RAW];
  }

  /** The three-option item A and one-option item B of the stale-command
      run. */
  function StaleMenu(a: string, b: string, m1: string, x1: string, m2: string, x2: string,
                     m3: string, x3: string, m: string, y: string): (r: seq<Item>)
    ensures |r| == 2 && r[0].options == [Option(m1, x1), Option(m2, x2), Option(m3, x3)]
    ensures r[1].options == [Option(m, y)]
  {
    [Item(a, [Option(m1, x1), Option(m2, x2), Option(m3, x3)]), Item(b, [Option(m, y)])]
  }

  /** Right, Down, Down, Left: A's third option was selected, and the
      counter stays at 2 back at top level. */
  lemma {:induction false} StaleSetup(menu: seq<Item>, m1: string, x1: string, m2: string, x2: string, m3: string, x3: string)
    requires |menu| == 2 && menu[0].options == [Option(m1, x1), Option(m2, x2), Option(m3, x3)]
    ensures Loop(menu, Initial(), [RIGHT_RAW, DOWN_RAW, DOWN_RAW, LEFT_RAW]) == Nav(true, 0, 2, menu[0].options, x3, 2)
    ensures LoopRuns(menu, Initial(), [RIGHT_RAW, DOWN_RAW, DOWN_RAW, LEFT_RAW]) == []
  {
    var opts := menu[0].options;
    var s0 := Initial();
    var r1 := [RIGHT_RAW];
    var s1 := Nav(false, 0, 0, opts, "", -1);
    assert Loop(menu, s0, r1) == s1 && LoopRuns(menu, s0, r1) == [] by {
      LoopSnoc(menu, s0, [], RIGHT_RAW);
      RightKey(1, Rendered(menu, s0));
    }
    var r2 := r1 + [DOWN_RAW];
    var s2 := Nav(false, 0, 1, opts, x1, 2);
    assert Loop(menu, s0, r2) == s2 && LoopRuns(menu, s0, r2) == [] by {
      LoopSnoc(menu, s0, r1, DOWN_RAW);
      DownKey(1, Rendered(menu, s1));
    }
    var r3 := r2 + [DOWN_RAW];
    var s3 := Nav(false, 0, 2, opts, x2, 2);
    assert Loop(menu, s0, r3) == s3 && LoopRuns(menu, s0, r3) == [] by {
      LoopSnoc(menu, s0, r2, DOWN_RAW);
      DownKey(1, Rendered(menu, s2));
    }
    LoopSnoc(menu, s0, r3, LEFT_RAW);
    LeftKey(1, Rendered(menu, s3));
    assert r3 + [LEFT_RAW] == [RIGHT_RAW, DOWN_RAW, DOWN_RAW, LEFT_RAW];
  }

  /** A concrete run of the stale command: after StaleSetup, Down moves to
      item B, Right enters it with the option counter still at 2, and the
      next Right runs A's third command although B is the entered item. */
  lemma {:induction false} StaleOptionCounter(a: string, b: string, m1: string, x1: string, m2: string, x2: string,
                           m3: string, x3: string, m: string, y: string)
    ensures var menu := StaleMenu(a, b, m1, x1, m2, x2, m3, x3, m, y);
      var raws := [RIGHT_RAW, DOWN_RAW, DOWN_RAW, LEFT_RAW, DOWN_RAW, RIGHT_RAW, RIGHT_RAW];
      LoopRuns(menu, Initial(), raws) == [x3]
  {
    var r4 := [RIGHT_RAW, DOWN_RAW, DOWN_RAW, LEFT_RAW];
    var r5 := r4 + [DOWN_RAW];
    assert r5 + [RIGHT_RAW, RIGHT_RAW] == [RIGHT_RAW, DOWN_RAW, DOWN_RAW, LEFT_RAW, DOWN_RAW, RIGHT_RAW, RIGHT_RAW];
    var menu := StaleMenu(a, b, m1, x1, m2, x2, m3, x3, m, y);
    var s0 := Initial();
    StaleSetup(menu, m1, x1, m2, x2, m3, x3);
    var s4 := Nav(true, 0, 2, menu[0].options, x3, 2);
    var s5 := Nav(true, 1, 2, menu[0].options, x3, 2);
    assert Loop(menu, s0, r5) == s5 && LoopRuns(menu, s0, r5) == [] by {
      LoopSnoc(menu, s0, r4, DOWN_RAW);
      DownKey(1, Rendered(menu, s4));
    }
    StaleCommand(menu, s5);
    LoopRunsAppend(menu, s0, r5, [RIGHT_RAW, RIGHT_RAW]);
  }
}
