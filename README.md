# Ender 3 control panel: LCD driver, keypad and menu

`enderDashboard.py` runs a small control panel for a 3D printer on a
Raspberry Pi. A 16x2 character LCD (an HD44780-style controller behind an
I2C port expander at 0x26, driven in 4-bit mode) shows a two-level menu
read from a configuration file. A four-button keypad on a PCF8574 expander
at 0x27 moves through the menu. Right on an option hands its shell command
to `subprocess.call`.

This Dafny project models three parts of the script and proves properties
of them:

- **`Lcd`** (lcd.dfy): the driver `lcd_byte`, `lcd_toggle_enable`,
  `lcd_string`, `lcd_clear` and `lcd_init`.
  - The class `Lcd.Bus` keeps the I2C bus, which the keypad expander shares
    with the LCD, as a ghost log of `(address, byte)` writes.
  - Each driver method is proved to append exactly the writes of a
    function: `ByteWrites`, `StringWrites` and others.
  - Those functions are proved to have the nibble layout, strobe order and
    fixed line length the script relies on.
- **`Controller`** (controller.dfy): a reference model of the receiving
  HD44780, the partner of the driver.
  - It latches a nibble on each falling edge of ENABLE and pairs nibbles
    high-then-low into bytes.
  - It runs those bytes against a display RAM: set-address, data with
    auto-increment, and clear.
  - The lemmas here say what the driver's writes mean on the display:
    - `lcd_byte` delivers exactly one byte.
    - `lcd_string` fills one row with the padded or truncated message and
      leaves the other row alone.
    - `lcd_init` ends with an empty display.
- **`Keypad`** (keypad.dfy): `isKeyPressed` and the four active-low
  single-bit key masks.
- **`Menu`** (menu.dfy): the state machine of `main`'s loop, as functions
  of a navigation state `Nav`. It has the following parts:
  - `Rendered` is what a render pass captures.
  - `RenderWrites` is what a render pass writes.
  - `Next` is the effect of one raw key byte.
  - `Run` is the commands that byte starts.
  - `Loop` is the loop over a stream of key bytes.
  - The lemmas cover clamping, the render window, the behaviour of each
    key and the stale option counter.
- **`Panel`** (dashboard.dfy): the class `Panel.Dashboard`.
  - Its fields are `main`'s loop variables.
  - Its methods are the start of `main`, the two render walks over `i`,
    the key tests and the loop.
  - Each method is proved against the `Menu` functions.
- **`Bits`** (bits.dfy): Python's `&`, `|`, `& ~`, `<<` and `>>` on
  non-negative integers. They are written as recursive functions, with
  per-bit lemmas.

The script's integers are unbounded Python integers, and so are the
model's. `lcd_byte` masks its nibbles with `0xF0`, so a character code
above 255 reaches the LCD as its low eight bits. `NibbleRoundTrip` and
`ReceivedByte` state this.

Entering an item with Right does not reset `menuItemOptionCounter`, and
Left does not either (enderDashboard.py:219-221, 236-238). An option
counter left over from an earlier item can therefore point past the end of
the entered item's options. Right then runs the command captured for the
earlier item. `Menu.StaleCommand` proves this in general, and
`Menu.StaleOptionCounter` on a concrete menu.

## Model

| member | source | states |
|---|---|---|
| Lcd.NibbleBytes | enderDashboard.py:74-75 | for every input byte value and mode 0 or 1, `bits_high` and `bits_low` are bytes with the backlight bit 0x08 set, ENABLE 0x04 clear, R/W clear and bit 0 equal to the mode |
| Lcd.NibbleBits | enderDashboard.py:74-75 | bit layout of `bits_high`/`bits_low`: bit 0 is the mode, bit 3 the backlight, bits 4-7 the high (resp. low) nibble of the input, every other bit clear |
| Lcd.NibbleRoundTrip | enderDashboard.py:74-75 | `bits_high & 0xF0` OR-ed with `bits_low >> 4` is `bits & 0xFF`, and `bits` itself when it is a byte |
| Lcd.ConstantBits | enderDashboard.py:36-39 | the bit patterns of ENABLE, LCD_BACKLIGHT and the masks 0x01, 0x0F, 0x7F, 0xF0 and 0xFF |
| Lcd.ModeBits | enderDashboard.py:28-29 | LCD_CMD has no bit set and LCD_CHR only bit 0 |
| Lcd.StrobeRestores | enderDashboard.py:88-90 | on a byte with ENABLE clear, `bits` OR-ed with ENABLE is a byte with ENABLE set and `bits & ~ENABLE` gives the byte back |
| Lcd.ByteOps | enderDashboard.py:88-90 | OR and AND-NOT of two bytes are bytes, so both strobe writes are byte writes |
| Lcd.SixWrites | enderDashboard.py:77-90 | one `lcd_byte` is exactly six byte writes to LCD_ADDR: high, high with ENABLE, high, low, low with ENABLE, low |
| Lcd.Ljust | enderDashboard.py:96 | `ljust` pads with spaces to the width and never shortens |
| Lcd.LineText | enderDashboard.py:96-101 | the characters `lcd_string` sends are exactly sixteen: the message's own where it has one, spaces after it, and the first sixteen when it is longer |
| Lcd.CharWritesAppend | enderDashboard.py:100-101 | sending two strings character by character is sending the first and then the second |
| Lcd.CharWritesSnoc | enderDashboard.py:100-101 | one more pass of the loop adds exactly that character's `lcd_byte` |
| Lcd.CharWritesAt | enderDashboard.py:100-101 | character i of a string occupies writes 6i to 6i+6, and a string of n characters is 6n writes |
| Lcd.FixedLineLength | enderDashboard.py:96-101 | `lcd_string` is 17 lcd_byte calls (102 writes): the line command, then character i of the message padded with spaces, for each i < 16; longer messages are cut off, never wrapped |
| Lcd.Bus.constructor | enderDashboard.py:56 | a fresh bus has written nothing |
| Lcd.Bus.WriteByte | enderDashboard.py:78 | `bus.write_byte` takes a byte and appends one write to the log |
| Lcd.Bus.ToggleEnable | enderDashboard.py:85-91 | appends `bits` with ENABLE set, then `bits & ~ENABLE` |
| Lcd.Bus.LcdByte | enderDashboard.py:68-83 | appends exactly `ByteWrites(bits, mode)`: the high nibble write and its strobe, then the low nibble write and its strobe |
| Lcd.Bus.LcdString | enderDashboard.py:93-101 | appends the line command and then the sixteen characters of the padded or truncated message, one `lcd_byte` each; proved with a loop invariant over the `for i` loop |
| Lcd.Bus.LcdClear | enderDashboard.py:103-105 | appends exactly `lcd_string("", LCD_LINE_1)` followed by `lcd_string("", LCD_LINE_2)` |
| Lcd.Bus.LcdInit | enderDashboard.py:58-66 | appends the six commands 0x33, 0x32, 0x06, 0x0C, 0x28, 0x01 in that order, each as an `lcd_byte` in command mode |
| Controller.LatchedStep | enderDashboard.py:88-90 | one write latches a nibble exactly when it takes ENABLE from high to low |
| Controller.LatchedNibble | enderDashboard.py:78-79 | a plain write followed by its strobe latches that byte's nibble once, with RS from bit 0 |
| Controller.LatchedByte | enderDashboard.py:77-83 | the writes of one `lcd_byte` latch exactly two nibbles, high then low, with RS equal to the mode, and leave ENABLE low |
| Controller.EnableBit | enderDashboard.py:39 | testing bit 2 is testing `& ENABLE` |
| Controller.NibblesAssemble | enderDashboard.py:74-75 | the two latched nibbles reassemble into `bits & 0xFF` |
| Controller.ReceivedByte | enderDashboard.py:68-83 | one `lcd_byte` delivers exactly one byte to the controller: `bits & 0xFF` with RS equal to the mode, and later writes are received after it |
| Controller.ReceivedElsewhere | enderDashboard.py:147 | a write to the keypad expander does not reach the LCD controller |
| Controller.ReceivedChars | enderDashboard.py:100-101 | the character loop delivers the characters as data bytes, in order |
| Controller.ReceivedString | enderDashboard.py:93-101 | `lcd_string` delivers the line command and then the sixteen data bytes of the padded or truncated message |
| Controller.ExecuteData | enderDashboard.py:62 | with the entry mode 0x06 set by `lcd_init`, data bytes fill consecutive cells from the cursor and touch no other cell |
| Controller.SetAddress | enderDashboard.py:31-32 | a line address 0x80-0xFF is the "set DDRAM address" command for address line - 0x80 (0x00 for line 1, 0x40 for line 2) |
| Controller.ShowsLine | enderDashboard.py:93-101 | after `lcd_string(message, line)` the row at that line shows exactly the padded or truncated message, and every cell outside it is unchanged |
| Controller.StringKeepsRow | enderDashboard.py:93-101 | `lcd_string` on one line leaves a row that does not overlap it as it was |
| Controller.RowsAgree | enderDashboard.py:27 | two displays that agree on the sixteen cells of a row show the same row |
| Controller.BlankLine | enderDashboard.py:104-105 | the row left by `lcd_string("")` is sixteen spaces |
| Controller.ShowsTwoLines | enderDashboard.py:104-105 | two `lcd_string` calls on separate rows each leave their own message, and later writes act on the result |
| Controller.ClearShowsBlank | enderDashboard.py:103-105 | whatever the display showed, after `lcd_clear` both rows are blank |
| Controller.ReceivedCommands | enderDashboard.py:60-65 | six command-mode `lcd_byte` calls on bytes are received as those six commands, in order |
| Controller.InitReceived | enderDashboard.py:58-65 | `lcd_init` delivers 0x33, 0x32, 0x06, 0x0C, 0x28, 0x01, in that order, as commands |
| Controller.PlainCommand | enderDashboard.py:60-64 | a command below 0x80 other than clear leaves the display RAM and cursor alone |
| Controller.InitCommandsClear | enderDashboard.py:58-65 | whatever the controller held, after the `lcd_init` commands its display RAM is empty and its cursor at 0 |
| Keypad.KeyMasks | enderDashboard.py:50-53 | KEY_LEFT, KEY_DOWN, KEY_UP and KEY_RIGHT are the single bits 0, 1, 2 and 3 |
| Keypad.PressedIffBitClear | enderDashboard.py:115-121 | for a single-bit mask 2^j, `isKeyPressed` answers 0 or 1, and 1 exactly when bit j of the raw value is 0 (active-low) |
| Keypad.KeyIndependence | enderDashboard.py:115-121 | each key's answer depends only on its own bit of the raw byte |
| Keypad.DecodeBits | enderDashboard.py:211-236 | Up, Down, Left and Right are pressed exactly when bits 2, 1, 0 and 3 are clear |
| Keypad.NoneIsNoKey | enderDashboard.py:54 | KEY_NONE (255) reports no key pressed |
| Keypad.EncodeDecode | enderDashboard.py:50-54 | for each of the sixteen sets of held buttons there is a raw byte that decodes to exactly that set |
| Menu.Rendered | enderDashboard.py:168-195 | a render pass changes neither the level nor either counter; it only captures the options, the command and the option count |
| Menu.WalkStep | enderDashboard.py:171-195 | one pass of a render walk adds line 1 when `i` is the counter, line 2 when `i` is the counter + 1, and nothing otherwise |
| Menu.WalkWindow | enderDashboard.py:171-195 | after the walk over all entries the writes are line 1 if the counter's entry exists, followed by line 2 if the next entry exists |
| Menu.SingleKeys | enderDashboard.py:50-54 | the raw bytes 0xFB, 0xFD, 0xFE and 0xF7 are Up, Down, Left and Right alone |
| Menu.NoKeyNoChange | enderDashboard.py:202 | a raw byte equal to KEY_NONE changes no state and runs no command |
| Menu.PressedIsNotNone | enderDashboard.py:202 | a byte reporting any key is not KEY_NONE |
| Menu.TopLevelStep | enderDashboard.py:210-221 | at top level the counter stays within 0 and the last index: Up lowers it only above 0, Down raises it only below the last index, no wrap-around; Right enters the option level; Left does nothing; the option counter, options, command and option count are untouched and nothing runs |
| Menu.OptionLevelStep | enderDashboard.py:222-238 | at option level the item counter never changes; the option counter stays >= 0 and only passes the last option index if it already had; Right runs the captured command exactly once; Left returns to top level; the options, the captured command and the option count are untouched |
| Menu.CycleKeepsValid | enderDashboard.py:166-247 | one loop iteration keeps both counters in range |
| Menu.LoopKeepsValid | enderDashboard.py:166-247 | every number of loop iterations keeps both counters in range |
| Menu.RepeatedUp | enderDashboard.py:211-214 | pressing Up n times at top level lowers the counter by n, stopping at 0 |
| Menu.RepeatedDown | enderDashboard.py:215-218 | pressing Down n times at top level raises the counter by n, stopping at the last index |
| Menu.WindowShown | enderDashboard.py:168-195 | after the clear and the walk, line 1 shows ">" and the entry at the counter and line 2 shows " " and the next entry; a row with no entry stays blank from the clear |
| Menu.WindowOnBlank | enderDashboard.py:169-195 | the window written over two blank rows shows the window of the counter |
| Menu.WindowBeforeFirst | enderDashboard.py:178-179 | with the counter one before the first entry only line 2 is written and line 1 stays blank |
| Menu.WindowAtEntry | enderDashboard.py:175-179 | with the counter at an entry, line 1 shows it and line 2 shows the next entry or stays blank |
| Menu.WindowTwoEntries | enderDashboard.py:175-179 | an entry at the counter with a successor fills both rows |
| Menu.WindowLastEntry | enderDashboard.py:175-176 | the counter at the last entry writes line 1 and leaves line 2 blank |
| Menu.RenderShows | enderDashboard.py:168-195 | at top level the render shows the item window at the item counter; at option level the window over the entered item's options at the option counter |
| Menu.ShownOptionRuns | enderDashboard.py:190-192 | at option level the option marked ">" on line 1 is the one whose command Right runs |
| Menu.EnterItem | enderDashboard.py:219-221 | Right at top level enters the item marked ">": the option level lists its options, with the item counter and option counter unchanged, and runs nothing |
| Menu.TopLevelChord | enderDashboard.py:175-177 | Down+Right at top level moves to the next item and enters the option level with the options captured for the item the window was rendered on |
| Menu.OptionLevelChord | enderDashboard.py:190-234 | Down+Right at option level: Down moves the counter past the option marked ">" (lines 227-230), and Right, tested after it (231-234), still runs that option's command, captured by the render (190-192) |
| Menu.LoopSnoc | enderDashboard.py:166-247 | one more key byte is one more loop iteration, and its command follows the earlier ones |
| Menu.LoopWritesSnoc | enderDashboard.py:166-247 | one more key byte appends one render pass and that byte's key writes to the bus |
| Menu.RightKey | enderDashboard.py:219-234 | Right alone enters the option level or stays there, and runs the captured command only at option level |
| Menu.LeftKey | enderDashboard.py:236-238 | Left alone ends at top level and runs nothing; at top level it changes nothing |
| Menu.DownKey | enderDashboard.py:215-230 | Down alone raises the counter of the current level by one, clamped at its last index |
| Menu.UpKey | enderDashboard.py:211-226 | Up alone lowers the counter of the current level by one, clamped at 0 |
| Menu.EnterThenLeave | enderDashboard.py:219-238 | Right then Left returns to top level on the same item and runs nothing |
| Menu.EnterAndScroll | enderDashboard.py:219-230 | on a two-item menu whose first item A has the options n1: c1 and n2: c2, Right, Down enters A and moves to its second option, capturing c1, running nothing |
| Menu.RunSecondOption | enderDashboard.py:166-238 | on `TwoItemMenu` (A = [n1: c1, n2: c2], B = [n3: c3]) Right, Down, Right, Left from the start ends at top level on A, having run c2 and nothing else |
| Menu.LoopAppend | enderDashboard.py:166 | the loop over two key streams is the loop over the second from where the first left off |
| Menu.LoopRunsAppend | enderDashboard.py:166 | the commands run over two key streams are those of the first followed by those of the second |
| Menu.StaleCommand | enderDashboard.py:219-221 | entering an item whose options all lie below the left-over option counter, Right runs the earlier item's captured command |
| Menu.StaleSetup | enderDashboard.py:222-238 | on `StaleMenu` (A = [m1: x1, m2: x2, m3: x3], B = [m: y]) Right, Down, Down, Left leaves the option counter at 2 with x3 captured, back at top level |
| Menu.StaleOptionCounter | enderDashboard.py:190-192 | continuing with Down, Right, Right: B is entered with the counter still at 2, and Right runs A's x3 |
| Panel.BootWrites | enderDashboard.py:147-159 | the bus writes of the start of `main`, in order |
| Panel.BootLeavesBlank | enderDashboard.py:147-159 | whatever the controller held and whatever the splash text, after the start of `main` both rows are blank |
| Panel.SplashThenClear | enderDashboard.py:156-159 | the splash lines are overwritten by `lcd_clear` |
| Panel.Dashboard.constructor | enderDashboard.py:144 | the dashboard holds the menu `readMenu` returned and its last index, with an empty bus log and no commands run |
| Panel.Dashboard.Boot | enderDashboard.py:146-164 | performs exactly `BootWrites` and sets the loop variables to their first values |
| Panel.Dashboard.StartDisplay | enderDashboard.py:147-159 | pulls all expander pins up, initialises the LCD, shows the splash and clears it, in that order |
| Panel.Dashboard.Reset | enderDashboard.py:161-164 | top level, both counters 0, no command captured |
| Panel.Dashboard.Render | enderDashboard.py:168-195 | the new state is `Rendered` of the old, and the bus log grows by exactly `RenderWrites` |
| Panel.Dashboard.RenderItems | enderDashboard.py:169-180 | the top-level walk captures the options of the item at the counter (none when there is none) and writes exactly the item window; proved with loop invariants |
| Panel.Dashboard.ShowItem | enderDashboard.py:174-180 | one pass of the item walk: captures the options and writes line 1 at the counter, writes line 2 after it, nothing else |
| Panel.Dashboard.RenderOptions | enderDashboard.py:181-195 | the option walk counts the options, captures the command at the counter or keeps the old one, and writes exactly the option window; proved with loop invariants |
| Panel.Dashboard.ShowOption | enderDashboard.py:185-195 | one pass of the option walk: counts the option, captures its command at the counter, writes its line |
| Panel.Dashboard.ShowEntry | enderDashboard.py:175-179 | the two tests of a walk for entry i: line 1 behind ">" at the counter, line 2 behind " " just after it |
| Panel.Dashboard.Shell | enderDashboard.py:234 | the command is appended to the command log and no loop variable changes |
| Panel.Dashboard.Step | enderDashboard.py:200-247 | the new state is `Next` of the old, the commands run are `Run`, and the bus sees a clear exactly when no key is reported |
| Panel.Dashboard.TopLevelKeys | enderDashboard.py:210-221 | the top-level key tests in the order Up, Down, Right compute `Next` |
| Panel.Dashboard.OptionLevelKeys | enderDashboard.py:222-238 | the option-level key tests in the order Up, Down, Right, Left compute `Next` and run `Run` |
| Panel.Dashboard.Cycle | enderDashboard.py:166-247 | one loop iteration: state, commands and bus writes are those of `Menu.Cycle`, `Run` and `RenderWrites` followed by `KeyWrites` |
| Panel.Dashboard.Serve | enderDashboard.py:166-247 | the loop over a stream of raw key bytes: state `Loop`, commands `LoopRuns`, bus writes `LoopWrites`; proved with loop invariants |
| Panel.Dashboard.Operate | enderDashboard.py:146-247 | the start of `main` and then its loop: the state is `Loop` from the first values, the commands are `LoopRuns`, and the bus sees `BootWrites` followed by `LoopWrites` |

## Left out

- `bus.read_byte` in `readKeys` and `GPIO.wait_for_edge`: hardware input. The raw key byte of each iteration is a parameter, and `Serve` takes the sequence of them.
- `GPIO.setmode`, `GPIO.setup` and `GPIO.cleanup`: pin configuration with no effect on the modelled state.
- `time.sleep`, `E_PULSE` and `E_DELAY`: timing only. The strobe order is modelled; its timing is not.
- `readMenu`: the file open, `yaml.load` and the prints. The menu is a parameter in file order, standing for the dictionary's insertion order, and its last index is `|menu| - 1`.
- A top-level render resets `menuItemOptions` to the empty string `""`. The model uses the empty sequence, which iterates the same way.
- `subprocess.call`: an external process. The command string goes in a ghost command log; the exit status is only printed, so it is not modelled.
- `print` output and the commented-out lines 240-245.
- `main`'s endless loop and the `KeyboardInterrupt` exit, `sys.argv`, and the final `lcd_byte(0x01, LCD_CMD)` at 262. `Serve` covers any finite prefix of the loop.
- A failing `bus.write_byte` or `bus.read_byte` raises an OSError that ends `main`. The model's bus never fails.
- `LCD_LINE_3` and `LCD_LINE_4`: constants only, since the panel uses two lines.
- Controller.Apply: the reference controller is already in 4-bit mode, with ENABLE low before the first write (a PCF8574 powers up with every pin high, so on real hardware the first write would latch an extra nibble). It does not model the 0x33/0x32 synchronisation that puts it there, the busy flag or the DDRAM address wrap. It treats every command below 0x80 other than 0x01 as leaving the display RAM and the cursor alone. On a real HD44780, return home (0x02, 0x03) and cursor or display shift (0x10-0x1F) move the cursor, and 0x40-0x7F sends later data to CGRAM. The script sends none of these: its only commands are the six in `lcd_init` (0x28 and 0x06 among them leave the cursor where it is) and the line addresses 0x80 and 0xC0.
- Menu.Initial: `enderMenuNumOfOptionItems` is first bound by an option-level render. The model starts it at -1, a value the key handling never reads before that render.
