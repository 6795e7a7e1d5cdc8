/**
 * main of enderDashboard.py as an object: the loop variables of main are
 * the fields of a Dashboard, the I2C bus that reaches both the LCD and the
 * keypad expander is the Bus it owns, and the shell commands it starts are
 * kept in a log.  Each method performs one
 * part of main in place and is proved against the functions of Menu.
 */
module Panel {
  import opened Lcd
  import opened Keypad
  import opened Controller
  import opened Menu

  /** I2C address of the PCF8574 expander the keypad is wired to. */
  const PCF8574_ADDR: nat := 0x27

  const SPLASH_1: string := "Ender 3 Panel"
  const SPLASH_2: string := "v1.0 - 2020 FF75"

  /** The bus writes of the start of main: all expander pins high, the
      lcd_init commands, the two splash lines, and the clear. */
  function BootWrites(splash1: string, splash2: string): seq<Write>
  {
    [Write(PCF8574_ADDR, 255)]
    + (ByteWrites(0x33, LCD_CMD) + ByteWrites(0x32, LCD_CMD) + ByteWrites(0x06, LCD_CMD)
       + ByteWrites(0x0C, LCD_CMD) + ByteWrites(0x28, LCD_CMD) + ByteWrites(0x01, LCD_CMD)
       + (StringWrites(splash1, LCD_LINE_1)
          + (StringWrites(splash2, LCD_LINE_2) + (StringWrites("", LCD_LINE_1) + StringWrites("", LCD_LINE_2)))))
  }

  /** Whatever the controller held at power-up and whatever the splash text,
      after the start of main both rows of the display are blank: the
      expander write does not reach the LCD, lcd_init ends in a clear, the
      splash lines are overwritten by lcd_clear. */
  lemma BootLeavesBlank(d: Display, splash1: string, splash2: string)
    ensures var e := Execute(d, Received(BootWrites(splash1, splash2)));
      Row(e, 0) == LineBytes("") && Row(e, 0x40) == LineBytes("")
  {
    var rest := StringWrites(splash1, LCD_LINE_1)
      + (StringWrites(splash2, LCD_LINE_2) + (StringWrites("", LCD_LINE_1) + StringWrites("", LCD_LINE_2)));
    var init := ByteWrites(0x33, LCD_CMD) + ByteWrites(0x32, LCD_CMD) + ByteWrites(0x06, LCD_CMD)
      + ByteWrites(0x0C, LCD_CMD) + ByteWrites(0x28, LCD_CMD) + ByteWrites(0x01, LCD_CMD);
    ReceivedElsewhere(Write(PCF8574_ADDR, 255), init + rest);
    InitReceived(rest);
    InitCommandsClear(d, Received(rest));
    SplashThenClear(Display(map[], 0), splash1, splash2);
  }

  /** Two splash lines followed by lcd_clear leave both rows blank. */
  lemma SplashThenClear(d: Display, splash1: string, splash2: string)
    ensures var e := Execute(d, Received(StringWrites(splash1, LCD_LINE_1)
      + (StringWrites(splash2, LCD_LINE_2) + (StringWrites("", LCD_LINE_1) + StringWrites("", LCD_LINE_2)))));
      Row(e, 0) == LineBytes("") && Row(e, 0x40) == LineBytes("")
  {
    var clear := StringWrites("", LCD_LINE_1) + StringWrites("", LCD_LINE_2);
    ShowsLine(d, splash1, LCD_LINE_1, StringWrites(splash2, LCD_LINE_2) + clear);
    var d1 := Execute(d, Received(StringWrites(splash1, LCD_LINE_1)));
    ShowsLine(d1, splash2, LCD_LINE_2, clear);
    var d2 := Execute(d1, Received(StringWrites(splash2, LCD_LINE_2)));
    ClearShowsBlank(d2, []);
    AppendEmpty(clear);
    ReceivedNothing();
  }

  class Dashboard {
    /** readMenu's two results: the items in file order and their last index. */
    const menu: seq<Item>
    const numOfItems: int
    const bus: Bus

    var isMenuTopLevel: bool
    var menuItemCounter: int
    var menuItemOptionCounter: int
    var menuItemOptions: seq<Option>
    var menuItemOptionCmd: string
    var enderMenuNumOfOptionItems: int

    /** Every command handed to subprocess.call, oldest first. */
    ghost var commands: seq<string>

    /** The loop variables as a navigation state. */
    function State(): Nav
      reads this
    {
      Nav(isMenuTopLevel, menuItemCounter, menuItemOptionCounter,
          menuItemOptions, menuItemOptionCmd, enderMenuNumOfOptionItems)
    }

    /** readMenu returns the index of the last item alongside the menu. */
    predicate Valid()
      reads this
    {
      numOfItems == LastIndex(menu)
    }

    /** The menu as readMenu returned it, and a fresh bus. */
    constructor (menu: seq<Item>)
      ensures this.menu == menu && Valid()
      ensures fresh(bus) && bus.log == [] && commands == []
    {
      this.menu := menu;
      numOfItems := |menu| - 1;
      bus := new Bus();
      commands := [];
    }

    /** The start of main before its loop: pull every expander pin up, set
        the LCD up, show the splash screen, clear it, and set the loop
        variables to their first values. */
    method Boot()
      modifies this, bus
      ensures State() == Initial() && commands == old(commands)
      ensures bus.log == old(bus.log) + BootWrites(SPLASH_1, SPLASH_2)
    {
      StartDisplay();
      Reset();
    }

    /** The bus writes of the start of main, in order. */
    method StartDisplay()
      modifies bus
      ensures bus.log == old(bus.log) + BootWrites(SPLASH_1, SPLASH_2)
    {
      ghost var init := ByteWrites(0x33, LCD_CMD) + ByteWrites(0x32, LCD_CMD) + ByteWrites(0x06, LCD_CMD)
        + ByteWrites(0x0C, LCD_CMD) + ByteWrites(0x28, LCD_CMD) + ByteWrites(0x01, LCD_CMD);
      ghost var clear := StringWrites("", LCD_LINE_1) + StringWrites("", LCD_LINE_2);
      ghost var l0 := bus.log;
      bus.WriteByte(PCF8574_ADDR, 255);
      ghost var l1 := bus.log;
      bus.LcdInit();
      ghost var l2 := bus.log;
      bus.LcdString(SPLASH_1, LCD_LINE_1);
      ghost var l3 := bus.log;
      bus.LcdString(SPLASH_2, LCD_LINE_2);
      ghost var l4 := bus.log;
      bus.LcdClear();
      AppendAssoc(l4, StringWrites("", LCD_LINE_1), StringWrites("", LCD_LINE_2));
      AppendAssoc(l3, StringWrites(SPLASH_2, LCD_LINE_2), clear);
      AppendAssoc(l2, StringWrites(SPLASH_1, LCD_LINE_1), StringWrites(SPLASH_2, LCD_LINE_2) + clear);
      AppendAssoc(l1, init, StringWrites(SPLASH_1, LCD_LINE_1) + (StringWrites(SPLASH_2, LCD_LINE_2) + clear));
      AppendAssoc(l0, [Write(PCF8574_ADDR, 255)],
                  init + (StringWrites(SPLASH_1, LCD_LINE_1) + (StringWrites(SPLASH_2, LCD_LINE_2) + clear)));
    }

    /** The loop variables' first values, set just before the loop. */
    method Reset()
      modifies this
      ensures State() == Initial() && commands == old(commands)
    {
      isMenuTopLevel := true;
      menuItemCounter := 0;
      menuItemOptionCounter := 0;
      menuItemOptions := [];
      menuItemOptionCmd := "";
      enderMenuNumOfOptionItems := -1;
    }

    /** The render half of one loop iteration: clear the LCD, then walk the
        entries of the current level, writing the entry at the counter on
        line 1 and the one after it on line 2, and capture what the key
        handling will need. */
    method Render()
      modifies this, bus
      ensures State() == Rendered(menu, old(State())) && commands == old(commands)
      ensures bus.log == old(bus.log) + RenderWrites(menu, old(State()))
    {
      ghost var window := if isMenuTopLevel then WindowWrites(ItemNames(menu), menuItemCounter)
                          else WindowWrites(OptionNames(menuItemOptions), menuItemOptionCounter);
      assert RenderWrites(menu, State()) == StringWrites("", LCD_LINE_1) + StringWrites("", LCD_LINE_2) + window;
      bus.LcdClear();
      if isMenuTopLevel {
        RenderItems();
      } else {
        RenderOptions();
      }
      AppendAssoc4(old(bus.log), StringWrites("", LCD_LINE_1), StringWrites("", LCD_LINE_2), window);
    }

    /** The top-level walk over the items: the item at the counter goes on
        line 1 and its options are captured, the next item goes on line 2. */
    method RenderItems()
      requires isMenuTopLevel
      modifies this, bus
      ensures State() == old(State()).(options := if 0 <= menuItemCounter < |menu| then menu[menuItemCounter].options else [])
      ensures commands == old(commands)
      ensures bus.log == old(bus.log) + WindowWrites(ItemNames(menu), menuItemCounter)
    {
      ghost var start := bus.log;
      ghost var names := ItemNames(menu);
      ghost var c := menuItemCounter;
      ghost var one, two := FirstLine(names, c), SecondLine(names, c);
      menuItemOptions := [];
      for i := 0 to |menu|
        invariant bus.log == start + Walk(one, two, c, i)
        invariant isMenuTopLevel && menuItemCounter == c
        invariant menuItemOptions == if 0 <= c < i then menu[c].options else []
        invariant menuItemOptionCounter == old(menuItemOptionCounter) && menuItemOptionCmd == old(menuItemOptionCmd)
        invariant enderMenuNumOfOptionItems == old(enderMenuNumOfOptionItems) && commands == old(commands)
      {
        ghost var before := bus.log;
        ShowItem(i);
        WalkStep(start, one, two, c, i, before, bus.log);
      }
      WalkWindow(one, two, c, |menu|);
    }

    /** One pass of the item walk: capture the item's options if it is the
        one at the counter, and show it. */
    method ShowItem(i: int)
      requires 0 <= i < |menu|
      modifies this, bus
      ensures isMenuTopLevel == old(isMenuTopLevel) && menuItemCounter == old(menuItemCounter)
      ensures menuItemOptionCounter == old(menuItemOptionCounter) && menuItemOptionCmd == old(menuItemOptionCmd)
      ensures enderMenuNumOfOptionItems == old(enderMenuNumOfOptionItems)
      ensures menuItemOptions == if i == menuItemCounter then menu[i].options else old(menuItemOptions)
      ensures commands == old(commands)
      ensures var names, c := ItemNames(menu), menuItemCounter;
        && (i == c ==> bus.log == old(bus.log) + FirstLine(names, c))
        && (i == c + 1 ==> bus.log == old(bus.log) + SecondLine(names, c))
        && (i != c && i != c + 1 ==> bus.log == old(bus.log))
    {
      if i == menuItemCounter {
        menuItemOptions := menu[i].options;
      }
      ShowEntry(i, menuItemCounter, menu[i].name, ItemNames(menu));
    }

    /** The option-level walk over the options of the entered item: the
        option at the counter goes on line 1 and its command is captured,
        the next option goes on line 2, and the options are counted. */
    method RenderOptions()
      requires !isMenuTopLevel
      modifies this, bus
      ensures State() == old(State()).(numOfOptionItems := |menuItemOptions| - 1,
        optionCmd := if 0 <= menuItemOptionCounter < |menuItemOptions|
                     then menuItemOptions[menuItemOptionCounter].cmd else old(menuItemOptionCmd))
      ensures commands == old(commands)
      ensures bus.log == old(bus.log) + WindowWrites(OptionNames(menuItemOptions), menuItemOptionCounter)
    {
      ghost var start := bus.log;
      ghost var options := menuItemOptions;
      ghost var names := OptionNames(options);
      ghost var o := menuItemOptionCounter;
      ghost var one, two := FirstLine(names, o), SecondLine(names, o);
      ghost var cmd, c, log := menuItemOptionCmd, menuItemCounter, commands;
      enderMenuNumOfOptionItems := -1;
      for i := 0 to |menuItemOptions|
        invariant bus.log == start + Walk(one, two, o, i)
        invariant !isMenuTopLevel && menuItemOptionCounter == o && menuItemOptions == options
        invariant enderMenuNumOfOptionItems == i - 1
        invariant menuItemOptionCmd == if 0 <= o < i then options[o].cmd else cmd
        invariant menuItemCounter == c && commands == log
      {
        ghost var before := bus.log;
        ShowOption(i);
        WalkStep(start, one, two, o, i, before, bus.log);
      }
      WalkWindow(one, two, o, |options|);
    }

    /** One pass of the option walk: count the option, capture its command
        if it is the one at the counter, and show it. */
    method ShowOption(i: int)
      requires 0 <= i < |menuItemOptions|
      modifies this, bus
      ensures isMenuTopLevel == old(isMenuTopLevel) && menuItemCounter == old(menuItemCounter)
      ensures menuItemOptionCounter == old(menuItemOptionCounter) && menuItemOptions == old(menuItemOptions)
      ensures enderMenuNumOfOptionItems == old(enderMenuNumOfOptionItems) + 1
      ensures menuItemOptionCmd == if i == menuItemOptionCounter then menuItemOptions[i].cmd else old(menuItemOptionCmd)
      ensures commands == old(commands)
      ensures var names, o := OptionNames(menuItemOptions), menuItemOptionCounter;
        && (i == o ==> bus.log == old(bus.log) + FirstLine(names, o))
        && (i == o + 1 ==> bus.log == old(bus.log) + SecondLine(names, o))
        && (i != o && i != o + 1 ==> bus.log == old(bus.log))
    {
      var option := menuItemOptions[i];
      enderMenuNumOfOptionItems := enderMenuNumOfOptionItems + 1;
      if i == menuItemOptionCounter {
        menuItemOptionCmd := option.cmd;
      }
      ShowEntry(i, menuItemOptionCounter, option.name, OptionNames(menuItemOptions));
    }

    /** The two tests of the walk for the entry at index i of names: write
        it on line 1 marked with '>' when it is the one at the counter, on
        line 2 when it is the one after. */
    method ShowEntry(i: int, counter: int, name: string, ghost names: seq<string>)
      requires 0 <= i < |names| && names[i] == name
      modifies bus
      ensures i == counter ==> bus.log == old(bus.log) + FirstLine(names, counter)
      ensures i == counter + 1 ==> bus.log == old(bus.log) + SecondLine(names, counter)
      ensures i != counter && i != counter + 1 ==> bus.log == old(bus.log)
    {
      if i == counter {
        bus.LcdString(">" + name, LCD_LINE_1);
      }
      if i == counter + 1 {
        bus.LcdString(" " + name, LCD_LINE_2);
      }
    }

    /** subprocess.call(cmd, shell=True); its exit status is only printed. */
    method Shell(cmd: string)
      modifies this
      ensures commands == old(commands) + [cmd] && State() == old(State())
    {
      commands := commands + [cmd];
    }

    /** The key half of one loop iteration, for the raw byte readKeys got. */
    method Step(currentVal: nat)
      requires Valid()
      modifies this, bus
      ensures State() == Next(LastIndex(menu), old(State()), currentVal)
      ensures commands == old(commands) + Run(old(State()), currentVal)
      ensures currentVal != KEY_NONE ==> bus.log == old(bus.log)
      ensures currentVal == KEY_NONE ==> bus.log == old(bus.log) + StringWrites("", LCD_LINE_1) + StringWrites("", LCD_LINE_2)
    {
      if currentVal != KEY_NONE {
        if isMenuTopLevel {
          TopLevelKeys(currentVal);
        } else {
          OptionLevelKeys(currentVal);
        }
      } else {
        bus.LcdClear();
      }
    }

    /** The key tests at top level: Up and Down move the item counter within
        the menu, Right enters the item. */
    method TopLevelKeys(currentVal: nat)
      requires Valid() && isMenuTopLevel && currentVal != KEY_NONE
      modifies this
      ensures State() == Next(LastIndex(menu), old(State()), currentVal)
      ensures commands == old(commands)
    {
      if IsKeyPressed(currentVal, KEY_UP) == 1 {
        if menuItemCounter > 0 {
          menuItemCounter := menuItemCounter - 1;
        }
      }
      if IsKeyPressed(currentVal, KEY_DOWN) == 1 {
        if menuItemCounter < numOfItems {
          menuItemCounter := menuItemCounter + 1;
        }
      }
      if IsKeyPressed(currentVal, KEY_RIGHT) == 1 {
        isMenuTopLevel := false;
      }
    }

    /** The key tests at option level: Up and Down move the option counter
        within the options, Right runs the captured command, Left leaves the
        item. */
    method OptionLevelKeys(currentVal: nat)
      requires !isMenuTopLevel && currentVal != KEY_NONE
      modifies this
      ensures State() == Next(LastIndex(menu), old(State()), currentVal)
      ensures commands == old(commands) + Run(old(State()), currentVal)
    {
      if IsKeyPressed(currentVal, KEY_UP) == 1 {
        if menuItemOptionCounter > 0 {
          menuItemOptionCounter := menuItemOptionCounter - 1;
        }
      }
      if IsKeyPressed(currentVal, KEY_DOWN) == 1 {
        if menuItemOptionCounter < enderMenuNumOfOptionItems {
          menuItemOptionCounter := menuItemOptionCounter + 1;
        }
      }
      if IsKeyPressed(currentVal, KEY_RIGHT) == 1 {
        Shell(menuItemOptionCmd);
      }
      if IsKeyPressed(currentVal, KEY_LEFT) == 1 {
        isMenuTopLevel := true;
      }
    }

    /** One iteration of main's loop: render, then handle the raw byte
        readKeys returned. */
    method Cycle(currentVal: nat)
      requires Valid()
      modifies this, bus
      ensures State() == Menu.Cycle(menu, old(State()), currentVal)
      ensures commands == old(commands) + Run(Rendered(menu, old(State())), currentVal)
      ensures bus.log == old(bus.log) + RenderWrites(menu, old(State())) + KeyWrites(currentVal)
    {
      Render();
      ghost var rendered := bus.log;
      Step(currentVal);
      if currentVal == KEY_NONE {
        AppendAssoc(rendered, StringWrites("", LCD_LINE_1), StringWrites("", LCD_LINE_2));
      } else {
        AppendEmpty(rendered);
      }
    }

    /** main after readMenu: the start-up, then the loop over the raw key
        bytes read at its successive keypad interrupts. */
    method Operate(raws: seq<nat>)
      requires Valid()
      modifies this, bus
      ensures State() == Loop(menu, Initial(), raws)
      ensures commands == old(commands) + LoopRuns(menu, Initial(), raws)
      ensures bus.log == old(bus.log) + (BootWrites(SPLASH_1, SPLASH_2) + LoopWrites(menu, Initial(), raws))
    {
      Boot();
      Serve(raws);
      AppendAssoc(old(bus.log), BootWrites(SPLASH_1, SPLASH_2), LoopWrites(menu, Initial(), raws));
    }

    /** main's loop, over the raw key bytes read at its successive keypad
        interrupts. */
    method Serve(raws: seq<nat>)
      requires Valid()
      modifies this, bus
      ensures State() == Loop(menu, old(State()), raws)
      ensures commands == old(commands) + LoopRuns(menu, old(State()), raws)
      ensures bus.log == old(bus.log) + LoopWrites(menu, old(State()), raws)
    {
      ghost var s0 := State();
      ghost var c0 := commands;
      ghost var l0 := bus.log;
      var i := 0;
      while i < |raws|
        invariant 0 <= i <= |raws|
        invariant State() == Loop(menu, s0, raws[..i])
        invariant commands == c0 + LoopRuns(menu, s0, raws[..i])
        invariant bus.log == l0 + LoopWrites(menu, s0, raws[..i])
      {
        TakeSnoc(raws, i);
        LoopSnoc(menu, s0, raws[..i], raws[i]);
        LoopWritesSnoc(menu, s0, raws[..i], raws[i]);
        ghost var before := State();
        ghost var runs := LoopRuns(menu, s0, raws[..i]);
        ghost var writes := LoopWrites(menu, s0, raws[..i]);
        Cycle(raws[i]);
        AppendAssoc(c0, runs, Run(Rendered(menu, before), raws[i]));
        AppendAssoc(l0 + writes, RenderWrites(menu, before), KeyWrites(raws[i]));
        AppendAssoc(l0, writes, RenderWrites(menu, before) + KeyWrites(raws[i]));
        AppendAssoc(l0, writes + RenderWrites(menu, before), KeyWrites(raws[i]));
        AppendAssoc(writes, RenderWrites(menu, before), KeyWrites(raws[i]));
        i := i + 1;
      }
      assert raws[..i] == raws;
    }
  }
}
