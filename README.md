# Saitek radio panel driver — a verified model

This project models the radio-panel part of an X-Plane plugin that drives Saitek Pro Flight
radio panels (`radiopanels.cpp`). A radio panel is a USB HID device with two halves, upper and
lower. Each half has a seven-position mode selector (COM1, COM2, NAV1, NAV2, ADF, DME, XPDR),
a coarse/fine rotary knob pair and an ACT/STBY button. Each half also has two five-digit
seven-segment windows. The plugin reads the 3-byte switch report, turns knob clicks and button
presses into simulator commands and dataref writes, and sends back a feature report with the
twenty display digits (21 bytes in the object model, 23 in the procedural one).

The source file holds two implementations of this driver, and both are modelled.

**The object model** (lines 24–642) has a `Panel` per selected mode. Its methods are
`handleRawButton`, `handleButton`, `update`, `blank`, `setLeft` and `setRight`, with subclasses
for the radios, ADF, DME and transponder. A `Radio` object owns an upper and a lower handler,
replaces them when the selector moves, and assembles the report in `writeToRadio`.
- `Bytes`: the report bytes, the `testbit` macro, and C's truncating `/` and `%`.
- `Controls`: selector and knob bits, and the commands a panel can fire.
- `Debounce`: the press counters, the ACT/STBY time gate, and the swap latch.
- `Encoder`: `setLeft`/`setRight`, i.e. five digits with leading zeros blanked.
- `Panels`: the `Panel` class, tagged by its mode in place of the C++ subclasses.
- `RadioObject`: the `Radio` class.

**The procedural model** (lines 644–3002) keeps per-half state in global arrays. It runs
fourteen `process_*_switch` functions, the blank/upper/lower display composers, the message
builder, and a poll loop that drains the HID queue and writes on change or after 50 quiet
cycles.
- `Toggles`: the ACT/STBY mode toggles with their lockout latches, the selector rings, DME
  frequency tuning, and the transponder quiet timer.
- `Composer`: the display composers, the blank-display rules, and the message.
- `Procedural`: knob counters and the `HalfState` class, which holds one half's globals with a
  method per switch handler and the display.
- `Poll`: the `RadioPanel` class, with the drain loop and the write guard.

`Simulator` stands in for X-Plane. Its `Sim` class holds the datarefs the driver writes and a
log of fired commands. The `Readings` datatype is a per-cycle snapshot of the values it only
reads.

Each step function is paired with a method that performs the update in place. The method's
contract ties the new state to the function. Lemmas then state what the source promises about
that function, for example:
- the round trip of the digit encoder;
- the DME and transponder toggle cycles;
- one move per lockout window;
- the selector rings;
- the steady-state refresh period of the write guard.

## Model

| member | source | states |
|---|---|---|
| Bytes.CDiv | radiopanels.cpp:125-129 | C's `/` for a positive divisor: it agrees with Euclidean division for non-negative dividends and never goes positive for non-positive ones |
| Bytes.CMod | radiopanels.cpp:125-129 | C's `%`: dividend = quotient·divisor + remainder, and the remainder takes the dividend's sign |
| Bytes.ToByte | radiopanels.cpp:125-129 | storing an int into a `uint8_t` digit keeps every value in 0..255 unchanged |
| Bytes.TestBitPack | radiopanels.cpp:24 | the `testbit` macro reads bit y of a buffer MSB-first: it returns exactly the y-th bit that was packed |
| Bytes.PackAt | radiopanels.cpp:24 | byte i of a packed bit string is the value of bits 8i..8i+7, most significant first |
| Controls.BitsInReport | radiopanels.cpp:46-70 | every selector and knob bit number of either half lies inside the 3-byte switch report |
| Debounce.CountStep | radiopanels.cpp:103-107 | a press counter below its threshold fires exactly when the increment reaches the threshold, and then restarts at 0 |
| Debounce.CountRunPeriodic | radiopanels.cpp:103-107 | after any number of held calls the counter is (start+calls) mod threshold, having fired (start+calls) div threshold times |
| Debounce.RateStep | radiopanels.cpp:1359-1364 | the procedural `> radspeed` test is a counter with threshold radspeed+1 |
| Debounce.RateFiresOnLastOfRadspeedPlusOne | radiopanels.cpp:1359-1364 | from 0, a held knob fires once, on exactly the (radspeed+1)-th poll, and not before |
| Debounce.FixedStep | radiopanels.cpp:2311-2316 | the lower ADF coarse `== 3` counter behaves as a threshold-3 counter below 3, and past 3 never fires again and keeps counting |
| Debounce.TimeRunAt | radiopanels.cpp:93-100 | ACT/STBY fires at a press exactly when its clock reading t exceeds the previous press's by more than 5 units, fired or not |
| Debounce.SpacingWhileRising | radiopanels.cpp:93-100 | over a stretch of presses whose readings do not fall, a press that fires lies more than 5 units after every earlier press of the stretch |
| Debounce.Stamp | radiopanels.cpp:96 | the recorded time `tv_sec*10 + tv_usec/10000` is narrowed to a 32-bit int; while ten times the seconds plus 99 fits, it lies between ten times the seconds and that plus 99 |
| Debounce.ToInt32 | radiopanels.cpp:96 | storing into `int` gives a value in the 32-bit range congruent to the original modulo 2^32, and leaves 32-bit values alone |
| Debounce.StampInSecond | radiopanels.cpp:96 | in a second whose stamps do not wrap, the stamp is the narrowed second plus the hundredths |
| Debounce.StampRises | radiopanels.cpp:96 | within one second whose stamps do not wrap, a later reading never stamps lower |
| Debounce.StampRefusesFirstPress | radiopanels.cpp:85-100 | at 1600000000 s the stamp is -1179869184, so a fresh handler (switchLastPressed 0) refuses its first ACT/STBY press |
| Debounce.StampRefusesLatePress | radiopanels.cpp:93-100 | presses at 12.99 s and 13.50 s, over half a second apart on a forward-running clock, stamp as 219 and 180, and the second is refused |
| Debounce.TimeRunSpacing | radiopanels.cpp:93-100 | with the stamp as written and a forward-running clock, a press that fires lies more than 5 stamp units, so more than 0.05 s, after every earlier press in the same wall-clock second, when that second's stamps do not wrap |
| Debounce.Tenths | radiopanels.cpp:96 | the corrected stamp `tv_sec*10 + tv_usec/100000` is the whole tenths of a second of the wall clock |
| Debounce.TenthsSpacing | radiopanels.cpp:93-100 | with whole tenths, a press that fires lies more than 0.5 s after every earlier press, across second boundaries too |
| Debounce.TenthsFirstPress | radiopanels.cpp:85-100 | with whole tenths in an unbounded integer, a fresh handler takes its first press at any time after the clock's first second |
| Debounce.TenthsAcceptLatePress | radiopanels.cpp:93-100 | with whole tenths, the same two presses stamp as 129 and 135, and the second goes through |
| Debounce.NoSwapInConsecutiveCycles | radiopanels.cpp:175-192 | the switchDebounce latch keeps two successive update cycles from both flipping the frequencies |
| Encoder.FiveDigitsIsCChain | radiopanels.cpp:125-129 | the digit chain `/10000, %=10000, …` equals the five digits the model computes, for every int including negatives |
| Encoder.PosChain | radiopanels.cpp:125-129 | for a non-negative value each C quotient and remainder of the chain is the ordinary decimal digit |
| Encoder.NegChain | radiopanels.cpp:125-129 | for a negative value, because C division truncates toward zero, each step of the chain is the negated digit of the magnitude |
| Encoder.WeightedFiveDigits | radiopanels.cpp:125-129 | the five stored digits, weighted by place value, give back the value |
| Encoder.FiveDigitsInRange | radiopanels.cpp:125-135 | for 0..99999 every digit is 0..9, and the leading zeros are exactly the places above the value's magnitude |
| Encoder.BlankLeadingZerosAt | radiopanels.cpp:131-134 | the blanking loop turns a digit into 15 exactly when it and every digit before it is 0 |
| Encoder.EncodeBlanksLeadingZeros | radiopanels.cpp:124-135 | digit i of setLeft/setRight is blank exactly when the value is below 10^(4-i) |
| Encoder.EncodeNibbles | radiopanels.cpp:124-135 | every encoded digit is 0..9 or the blank 15 |
| Encoder.DecodeEncode | radiopanels.cpp:124-135 | reading the five windows back (blank as 0) gives the value for every 0..99999 |
| Encoder.EncodeInjective | radiopanels.cpp:124-135 | two different values in 0..99999 never show the same five windows |
| Encoder.EncodeSingleDigit | radiopanels.cpp:342 | a single-digit value shows four blanks and the digit; 0, as in `setRight(0)`, shows all blanks |
| Encoder.EncodeExamples | radiopanels.cpp:342 | `setRight(0)` blanks the window, and 7 shows as four blanks and a 7 |
| Simulator.Sim.Fire | radiopanels.cpp:164 | `XPLMCommandOnce` appends exactly that command to the simulator's command log |
| Panels.ButtonIndex | radiopanels.cpp:26-33 | each button maps to its index below NUM_BUTTONS = 5 |
| Panels.CursorRing | radiopanels.cpp:442-451 | the transponder cursor stays on the ring -1..4, COARSE_DOWN and COARSE_UP undo each other, and each wraps at its end |
| Panels.CursorPeriod | radiopanels.cpp:444-447 | n COARSE_DOWN presses move the cursor as n mod 6 presses do, staying in -1..4 |
| Panels.SixDowns | radiopanels.cpp:444-447 | six COARSE_DOWN presses bring the cursor back where it was |
| Panels.NextTransponderMode | radiopanels.cpp:464-474 | switchTransponderMode: a mode in 0..3 goes to 1 or 2, to 2 exactly from 1, and other values stay |
| Panels.TransponderModeAlternates | radiopanels.cpp:464-474 | after the first press, the transponder mode alternates between standby (1) and on (2) |
| Panels.DigitCommand | radiopanels.cpp:476-514 | up()/down() fire exactly for cursor 0..4: the barometer at 4 and the transponder digit of that place otherwise |
| Panels.DigitCommandInjective | radiopanels.cpp:476-514 | different cursor positions or directions never fire the same command |
| Panels.ButtonEffect | radiopanels.cpp:161-182 | handleButton of every subclass: radios fire the standby step or, if not latched, the flip; ADF and DME do nothing; the transponder moves the cursor, fires a digit or switches mode |
| Panels.XpdrKnobs | radiopanels.cpp:442-457 | the transponder's coarse knob only moves the cursor around its ring; its fine knob fires exactly the command for the cursor, and nothing at -1 |
| Panels.BlinkWindows | radiopanels.cpp:432 | the blink phase is 0 or 1, and 1 exactly in the 200–400 ms and 600–800 ms windows of each second |
| Panels.XpdrDisplayOverlay | radiopanels.cpp:406-440 | mode 0 blanks the code, 1 shows a leading dash, 2 a leading blank, 3 all eights; the digit under the cursor blanks while blinking; the barometer's first digit is blank or the flashing dash |
| Panels.DmeSource | radiopanels.cpp:311-317 | the DME source is the slave source, with values above 5 replaced by 0 |
| Panels.DmeDisplayCases | radiopanels.cpp:307-344 | the DME shows dashes when the source has no DME. Otherwise it shows the distance next to knots when time mod 4 < 2 and minutes after that. With a negative source it shows only the tuned frequency |
| Panels.SetDigits | radiopanels.cpp:124-135 | the in-place digit loop leaves exactly the encoded value in the array |
| Panels.Fill | radiopanels.cpp:115-122 | the fill loop writes the byte to all five digits |
| Panels.Panel.constructor | radiopanels.cpp:84-90 | counters start at 0 and the time stamp at 0; the transponder cursor starts at -1 |
| Panels.Panel.Blank | radiopanels.cpp:115-122 | blank() sets both windows to five blanks |
| Panels.Panel.SetLeft | radiopanels.cpp:124-135 | setLeft leaves the left window equal to the encoded value |
| Panels.Panel.SetRight | radiopanels.cpp:137-148 | setRight leaves the right window equal to the encoded value |
| Panels.Panel.HandleButton | radiopanels.cpp:442-462 | handleButton appends exactly ButtonEffect's commands and sets the cursor, transponder mode and swap mark it gives |
| Panels.Panel.HandleRawButton | radiopanels.cpp:92-108 | ACT/STBY goes through when t is more than 5 units past the last press and always records t; other buttons count, and at threshold 2 dispatch and reset; the handler's whole press state, the command log and the transponder mode become RawPress of the old ones |
| Panels.Panel.Update | radiopanels.cpp:184-193 | update shows the subclass's display; a radio moves this cycle's swap mark into switchDebounce and clears the mark; the press state becomes Refreshed of the old one |
| Panels.RawPress | radiopanels.cpp:92-108 | one raw press adds at most one command to the log, keeps the earlier log as a prefix and never touches switchDebounce |
| Panels.Refreshed | radiopanels.cpp:184-193 | update() on the press state: a radio moves the swap mark into switchDebounce and clears it; the counters, last press time and cursor stay; other handlers keep it all |
| Panels.Panel.UpdateDme | radiopanels.cpp:307-344 | the DME update leaves the windows DmeDisplay computes |
| Panels.Panel.UpdateXpdr | radiopanels.cpp:406-440 | the transponder update leaves the barometer and code windows with mode overlay and cursor blink |
| Panels.Panel.OverlayMode | radiopanels.cpp:410-420 | the in-place mode overlay equals XpdrModeOverlay of the old window |
| RadioObject.SelectMode | radiopanels.cpp:546-560 | the chosen mode is pressed and not current, and no earlier mode in the chain is; none exactly when no selector qualifies |
| RadioObject.SelectModeExamples | radiopanels.cpp:546-560 | NAV1 wins over a held current COM1; a held current mode creates nothing; COM1 wins with no handler |
| RadioObject.SelectModeIndependent | radiopanels.cpp:546-560 | the choice depends only on the half's selector bits |
| RadioObject.AssembleBothPresent | radiopanels.cpp:602-627 | with both handlers present the report is 0, upper left, upper right, lower left, lower right |
| RadioObject.AssembleHalfAbsent | radiopanels.cpp:612-625 | an absent half blanks bytes 0..9, not its own slot: byte 0 becomes 15, a present upper half keeps only its last digit, and the absent lower slot keeps stale bytes |
| RadioObject.TeardownBothPresent | radiopanels.cpp:523-530 | the destructor's final report is 0 followed by twenty blanks |
| RadioObject.Radio.constructor | radiopanels.cpp:517-521 | a new Radio has no upper and no lower handler |
| RadioObject.Radio.SetUpper | radiopanels.cpp:630-635 | setUpper replaces the upper handler, and only it, and drops the old one's objects |
| RadioObject.Radio.SetLower | radiopanels.cpp:637-642 | setLower replaces the lower handler, and only it |
| RadioObject.Radio.WriteToRadio | radiopanels.cpp:602-628 | the buffer becomes Assemble of the previous buffer and the two handlers' windows, and exactly that buffer is sent |
| RadioObject.Radio.CopyDigits | radiopanels.cpp:607-611 | the copy loop writes the five digits at pos and leaves the rest |
| RadioObject.Radio.Memset | radiopanels.cpp:613-614 | the in-place memset equals Memset15 |
| RadioObject.Radio.ReselectUpper | radiopanels.cpp:546-560 | the upper handler is replaced by a fresh one of the selected mode, or kept |
| RadioObject.Radio.ReselectLower | radiopanels.cpp:563-577 | the lower handler is replaced by a fresh one of the selected mode, or kept |
| RadioObject.Serve | radiopanels.cpp:579-585 | the five knob bits are examined in the order radiopanels.cpp lists them and each pressed one goes through handleRawButton; the handler's press state, the command log and the transponder mode end as ServeSlot says; update leaves Display's windows |
| RadioObject.PressIf | radiopanels.cpp:579-583 | a knob bit that is set reaches handleRawButton; one that is clear changes nothing |
| RadioObject.ServeHalf | radiopanels.cpp:579-583 | the five tests of one half add at most five commands, keep the earlier log as a prefix and leave switchDebounce alone |
| RadioObject.ServeSlot | radiopanels.cpp:578-596 | an absent handler leaves the log and transponder mode as they were; a present one ends with a press state, and the log only grows, by at most five commands |
| RadioObject.Radio.ServeBoth | radiopanels.cpp:578-596 | upper first, then lower: each present handler's press state, the command log, the transponder mode and both displays are as Served says; the handler slots stay |
| RadioObject.Radio.ServeAndWrite | radiopanels.cpp:578-599 | serving as Served says, then writeToRadio: the buffer is Assemble of the served windows and exactly that buffer is sent |
| RadioObject.Radio.Reselect | radiopanels.cpp:545-577 | both selection chains, upper first: a selected mode gets a fresh handler with the fresh press state; otherwise the handler stays |
| RadioObject.Radio.Update | radiopanels.cpp:537-599 | one update: selection by SelectMode for each half, a new handler starting from the fresh press state; then serving as Served says, for press state, log, transponder mode and both displays; then one report equal to Assemble of the new windows |
| RadioObject.Radio.Close | radiopanels.cpp:523-535 | the destructor sends one report with the present handlers blanked |
| Toggles.LatchTick | radiopanels.cpp:1683-1690 | a pushed latch releases exactly on its limit-th tick and stays in range; an idle latch is unchanged |
| Toggles.Press | radiopanels.cpp:1648-1681 | an accepted ACT/STBY press always changes the toggled dataref |
| Toggles.Step | radiopanels.cpp:1648-1690 | a toggle moves only when pressed with the latch released, by Press, and then arms the latch |
| Toggles.LatchBlocks | radiopanels.cpp:1683-1690 | while the latch is armed, further presses change nothing |
| Toggles.OneMovePerLockout | radiopanels.cpp:1683-1690 | after a move, the next limit-1 polls cannot move the toggle again, whatever is pressed |
| Toggles.DmeUpperCycle | radiopanels.cpp:1648-1681 | repeated upper-half presses run DME mode through 1, 2, 1, 0, then repeat |
| Toggles.XpdrCycle | radiopanels.cpp:1927-1976 | repeated presses run the transponder mode through its six-step orbit 1, 2, 3, 2, 1, 0 |
| Toggles.SourceFlipInvolution | radiopanels.cpp:1780-1798 | the function-button press swaps the DME slave source between 0 and 1; two presses restore it |
| Toggles.DmeCopiesAgree | radiopanels.cpp:2444-2482 | the lower half's differently written DME toggle produces the same mode sequence as the upper half's |
| Toggles.DmeCopiesAgreeFromStart | radiopanels.cpp:2444-2482 | from the initial state the two DME toggles agree on every press sequence |
| Toggles.RingDown | radiopanels.cpp:1903-1912 | a fired COARSE_DN moves the digit selector up, wrapping past top to 1; not fired it stays; it stays in 1..top |
| Toggles.RingUp | radiopanels.cpp:1914-1923 | a fired COARSE_UP moves the selector down, wrapping below 1 to top; it stays in 1..top |
| Toggles.RingInverse | radiopanels.cpp:1903-1923 | one fired step each way restores the selector |
| Toggles.RingDownsRotate | radiopanels.cpp:1903-1912 | n fired COARSE_DN steps rotate the selector by n mod top |
| Toggles.FineUp | radiopanels.cpp:1719-1728 | fine up touches only the kHz part and its counter, keeping them in band |
| Toggles.FineDown | radiopanels.cpp:1729-1738 | fine down touches only the kHz part and its counter, keeping them in band |
| Toggles.CoarseUp | radiopanels.cpp:1740-1749 | coarse up touches only the MHz part and the shared up counter, keeping them in band |
| Toggles.CoarseDown | radiopanels.cpp:1750-1759 | coarse down touches only the MHz part and the shared down counter, keeping them in band |
| Toggles.SplitJoined | radiopanels.cpp:1762 | joining MHz·100 + kHz and splitting with `/100`, `%100` gives the parts back |
| Toggles.TuneStaysInBand | radiopanels.cpp:1716-1763 | one tuning poll keeps the frequency inside 108.00–117.95, so the value written back splits into the same parts |
| Toggles.TuneCounters | radiopanels.cpp:1719-1759 | the `== 3` tuning counters stay in 0..2 |
| Toggles.FineUpWrapsFirst | radiopanels.cpp:1719-1728 | at .95 a fine-up click wraps kHz to .00 before counting, without adding 5 |
| Toggles.QuietStep | radiopanels.cpp:969-1001 | any knob resets the quiet timer to 1; the mark is shown exactly when the timer has reached 200 with no knob; the timer stays in 1..200 |
| Toggles.QuietRunSaturates | radiopanels.cpp:983-1001 | with no knob the quiet timer climbs by one per poll and holds at 200 |
| Composer.Flagged | radiopanels.cpp:2904 | adding 208 marks one digit and leaves the rest |
| Composer.Five | radiopanels.cpp:2902-2906 | the five-digit chain gives decimal digits whose weighted sum is the value |
| Composer.FiveIsCChain | radiopanels.cpp:2902-2906 | the procedural digit chain equals the model's five digits |
| Composer.ThreeDigits | radiopanels.cpp:780-782 | the three-digit windows show two blanks and the decimal digits of values below 1000 |
| Composer.FourDigits | radiopanels.cpp:889-898 | the four-digit windows show a blank and the decimal digits of values below 10000 |
| Composer.ComNavWindows | radiopanels.cpp:2899-2917 | COM/NAV windows show the five digits of active and standby, with the decimal mark on the third |
| Composer.AdfWindows | radiopanels.cpp:776-835 | ADF shows the three-digit frequencies; selector 1..3 marks the matching standby digit; above 3 no mark; below 1 the windows are stale |
| Composer.DmeDistWindows | radiopanels.cpp:837-851 | mode 0 shows the speed and the distance with the decimal mark before the tenths |
| Composer.DmeFreqWindows | radiopanels.cpp:853-867 | mode 1 shows the tuned frequency with the decimal mark on the third digit and the time |
| Composer.DmeTimeWindows | radiopanels.cpp:869-882 | mode 2 shows the speed and the time |
| Composer.BaroWindow | radiopanels.cpp:888-898 | the barometer window carries a decimal mark exactly in inHg (metric 0) |
| Composer.XpdrWindows | radiopanels.cpp:887-967 | selector 1..4 shows the barometer and the code with the selected digit marked; other selectors leave stale windows |
| Composer.XpdrFnWindows | radiopanels.cpp:1006-1024 | with the function button, the marked blank precedes the barometer and the code is unmarked |
| Composer.ModeMark | radiopanels.cpp:985-996 | the mode mark: 0 marks the leading blank, 1..3 mark that digit of the code, other modes mark nothing |
| Composer.DeadPowerBranches | radiopanels.cpp:2870-2895 | the COM2/NAV1/NAV2 power-off branches can never fire: the seen flags are only 0 or 1, never 2, 3 or 4 |
| Composer.PowerOffBlanksBoth | radiopanels.cpp:2851-2859 | with avionics or battery off, both halves go dark |
| Composer.Com1PowerOff | radiopanels.cpp:2861-2868 | COM1 power off darkens exactly the halves that have shown COM1 |
| Composer.Message | radiopanels.cpp:1324-1350 | the message is 23 bytes: 0, then the four windows in order as chars, with the last two bytes untouched |
| Composer.FlaggedDigitFitsByte | radiopanels.cpp:1329-1335 | a marked digit or blank (up to 223) survives the conversion to char |
| Procedural.OneTurn | radiopanels.cpp:1358-1364 | a held knob counts up and fires its commands exactly when the count passes radspeed, resetting to 0; other counters are untouched |
| Procedural.FourTurns | radiopanels.cpp:1358-1386 | the four knob counters of one owner: no knob, no change; other owners untouched; counters stay in range; only the given commands fire |
| Procedural.FinePair | radiopanels.cpp:1831-1845 | the fine knob pair touches only its two counters and fires only its commands |
| Procedural.ComNavKnobs | radiopanels.cpp:1357-1390 | at most five commands, all for that radio; the flip fires exactly when ACT/STBY is held |
| Procedural.Coarse | radiopanels.cpp:1903-1923 | the coarse pair moves the selector around 1..top and touches only the coarse counters |
| Procedural.CoarsePair | radiopanels.cpp:1373-1386 | the COM/NAV coarse pair: no coarse knob, no change; only that owner's two coarse counters move, staying in range; only the given commands fire |
| Procedural.AdfKnobs | radiopanels.cpp:1549-1628 | the ADF selector stays in 1..3; the flip fires exactly with ACT/STBY; other owners untouched |
| Procedural.XpdrKnobs | radiopanels.cpp:1830-1923 | the digit selector stays in 1..4; at most two digit commands fire, all for the selected place |
| Procedural.Ten | radiopanels.cpp:2009-2029 | a coarse barometer step fires ten barometer commands |
| Procedural.QnhKnobs | radiopanels.cpp:1993-2034 | only barometer commands fire; standard fires exactly with ACT/STBY; at most 23 commands |
| Procedural.XpdrStep | radiopanels.cpp:1829-2035 | a transponder poll keeps the selector and latch in range; only the function-button-up branch can change mode, and only with ACT/STBY; the log only grows, with transponder or barometer commands |
| Procedural.ComNavSeldis | radiopanels.cpp:1357 | COM1..NAV2 select display 1..4 |
| Procedural.Mark | radiopanels.cpp:2195 | marking a radio seen writes 1, except the lower NAVs, which write 0; the others are kept |
| Procedural.AdfNumber | radiopanels.cpp:2256-2343 | the upper half drives ADF1; the lower drives ADF1 or ADF2 by numadf, and nothing otherwise |
| Procedural.FireAll | radiopanels.cpp:1359-1364 | firing a list appends exactly that list to the log |
| Procedural.HalfState.constructor | radiopanels.cpp:728-734 | selectors start at 1, everything else at 0 |
| Procedural.HalfState.Knob | radiopanels.cpp:1358-1364 | one knob poll in place equals OneTurn |
| Procedural.HalfState.FourKnobs | radiopanels.cpp:1358-1386 | the four knob polls in place equal FourTurns |
| Procedural.HalfState.FineKnobs | radiopanels.cpp:1831-1845 | the fine pair in place equals FinePair |
| Procedural.HalfState.CoarseKnobs | radiopanels.cpp:1373-1386 | the coarse pair in place equals CoarsePair |
| Procedural.HalfState.CoarseRing | radiopanels.cpp:1903-1923 | the coarse pair in place equals Coarse |
| Procedural.HalfState.ComNavControls | radiopanels.cpp:1358-1390 | the COM/NAV knobs in place equal ComNavKnobs |
| Procedural.HalfState.ComNavSwitch | radiopanels.cpp:1353-1394 | not selected, nothing changes; selected, display 1..4 is chosen, the knobs run only when data arrived, the frequencies are copied and the radio is marked seen |
| Procedural.HalfState.ComNavShow | radiopanels.cpp:1356-1392 | a selected radio: display 1..4, the knobs only when data arrived, the radio's frequencies copied, and the radio marked seen |
| Procedural.HalfState.AdfControls | radiopanels.cpp:1550-1628 | the ADF knobs in place equal AdfKnobs |
| Procedural.HalfState.AdfSwitch | radiopanels.cpp:1544-1634 | selected, display 5; an unknown lower numadf does nothing more; otherwise the knobs run on data and the frequencies of that ADF are copied |
| Procedural.HalfState.AdfShow | radiopanels.cpp:1549-1632 | for the ADF this half drives: the knobs only when data arrived, then that ADF's frequencies copied |
| Procedural.HalfState.DmeModeToggle | radiopanels.cpp:1648-1690 | the DME mode toggle in place equals Toggles.Step of that half's kind |
| Procedural.HalfState.DmeSourceToggle | radiopanels.cpp:1780-1807 | the slave-source toggle in place equals Toggles.Step |
| Procedural.HalfState.DmeReadout | radiopanels.cpp:1693-1773 | mode 0 shows display 6 and copies source 0/1 readings; mode 1 shows 7 and writes the tuned frequency; mode 2 shows 8 with speed and time |
| Procedural.HalfState.DmeSwitch | radiopanels.cpp:1638-1816 | not selected, or a function-button state other than 0 or 1: nothing changes. Function button 0: the mode toggle steps as Toggles.Step, then ReadOut: display 6/7/8 by mode, the NAV distance and speed, the tuned and written-back frequency, or the DME speed and time. Function button 1: only the source toggle steps; mode, tuning, frequency and copies stay |
| Procedural.HalfState.DmeReleased | radiopanels.cpp:1648-1773 | function button released: the mode toggle steps as Toggles.Step, then ReadOut holds against the values the half started with: the mode and source copied, and per mode the display number, tuning, frequency and copies |
| Procedural.HalfState.XpdrModeToggle | radiopanels.cpp:1925-1988 | the transponder mode toggle in place equals Toggles.Step with the 25-poll lockout |
| Procedural.HalfState.XpdrDigits | radiopanels.cpp:1830-1923 | the digit knobs in place equal XpdrKnobs |
| Procedural.HalfState.QnhSet | radiopanels.cpp:1993-2034 | the barometer knobs in place equal QnhKnobs |
| Procedural.HalfState.XpdrControls | radiopanels.cpp:1829-2035 | the transponder controls in place equal XpdrStep |
| Procedural.HalfState.XpdrCopy | radiopanels.cpp:2037-2050 | the code and mode are copied; the barometer is in hundredths of inHg, in hPa or raw, as metric is 0, 1 or other; metric_press is written for 0 and 1 |
| Procedural.HalfState.XpdrSwitch | radiopanels.cpp:1820-2051 | not selected, the display, controls, code, mode, barometer and metric_press stay; selected, display 9, then XpdrStep, then the copies |
| Procedural.HalfState.XpdrShow | radiopanels.cpp:1829-2050 | a selected transponder: XpdrStep, then the code, mode and barometer copies |
| Procedural.HalfState.XpdrShown | radiopanels.cpp:884-1026 | function button: the fn windows; otherwise the selector's windows, the quiet timer stepped, and at 200 the selector reset to 1 and the mode marked |
| Procedural.HalfState.Shown | radiopanels.cpp:755-1034 | the display composer for display number sel: COM/NAV, ADF, the three DME layouts, transponder, dark, or the stale windows |
| Procedural.HalfState.Display | radiopanels.cpp:755-1034 | the display in place equals Shown for the half's display number |
| Poll.Drained | radiopanels.cpp:2948-2975 | the drain loop runs until a read returns no data, at most 30 times; every read but the last returned data |
| Poll.DrainedIs | radiopanels.cpp:2948-2975 | any count with those properties is the drain count |
| Poll.Guard | radiopanels.cpp:2984-2991 | write exactly when a half's display changed or more than 50 cycles passed; the counter resets to 1 or counts up |
| Poll.SteadySendsAt | radiopanels.cpp:2984-2991 | with displays steady, from counter w the guard writes on poll i exactly when (w-1+i) mod 51 is 50 |
| Poll.SteadyRefreshPeriod | radiopanels.cpp:2984-2991 | after a write, a steady display is rewritten every 51 polls |
| Poll.RadioPanel.constructor | radiopanels.cpp:728-739 | displays remembered as 1, quiet counter 0, buffers zero |
| Poll.RadioPanel.ReadOnce | radiopanels.cpp:2950 | a read sets the result; the buffer changes only when data arrived |
| Poll.RadioPanel.Switches | radiopanels.cpp:2952-2965 | the fourteen switch handlers keep both halves consistent; a half with no selector keeps its display |
| Poll.RadioPanel.BlankDisplay | radiopanels.cpp:2847-2897 | the displays become BlankSelectors of the power state |
| Poll.RadioPanel.Displays | radiopanels.cpp:755-1322 | both halves show their Shown; both fn displays show the upper half's code |
| Poll.RadioPanel.MakeMessage | radiopanels.cpp:1324-1350 | the write buffer becomes Message of the two halves' windows |
| Poll.RadioPanel.Refresh | radiopanels.cpp:2967-2972 | the display numbers become BlankSelectors of the power state; each half then shows Shown for the number the blanking left; the write buffer becomes Message of those windows |
| Poll.RadioPanel.WriteGuard | radiopanels.cpp:2984-2991 | the write guard in place equals Guard, and sends exactly when it says |
| Poll.RadioPanel.DrainStep | radiopanels.cpp:2949-2974 | one drain iteration: read, switches; with data, the write buffer becomes Message of the new windows and exactly it is sent; without, nothing is sent and the buffer stays |
| Poll.RadioPanel.Report | radiopanels.cpp:2967-2973 | a read with data refreshes the display as Refresh says and sends exactly the new message |
| Poll.RadioPanel.Drain | radiopanels.cpp:2948-2975 | the do-while runs Drained reads, 1..30; one report per read with data, each 23 bytes starting with 0 and keeping the buffer's last two bytes; the write guard's state is untouched |
| Poll.RadioPanel.Finish | radiopanels.cpp:2977-2991 | the final refresh as Refresh says, then the message is sent exactly when Guard says, the remembered displays move exactly then, and the counter is Guard's |
| Poll.ShapedAppend | radiopanels.cpp:2967-2973 | appending a message-shaped report to message-shaped reports keeps them all message-shaped |
| Poll.RadioPanel.Cycle | radiopanels.cpp:2941-3002 | one poll: the drain count is Drained, one report per read with data plus the guarded one, and the guard's counter |

## Left out

- HID transport: `hid_read` results are given as a sequence of reads, and each `hid_send_feature_report` is recorded as the bytes sent. Device errors and the report-ID framing are not modelled.
- X-Plane: datarefs the driver writes are fields of `Sim`, and commands are appended to its log. What the simulator does in response (tuning, flipping) is not modelled.
- Floating point: float datarefs (DME distance, speed and time; the barometer) arrive already truncated to ints in `Readings`, as the `(int)` casts do.
- Clocks: `gettimeofday` and `time(NULL)` readings are parameters.
- One radio: the procedural `radnum` round-robin over up to four devices is reduced to one device; the per-radio arrays become one value per half.
- `process_radio_menu` (X-Plane menu setup) is not part of this model.
- Uninitialised members: the object model leaves `digits_left`/`digits_right` (radiopanels.cpp:74-75), `switchDebounce` and `switchDebounceThisRun` uninitialised. The first ACT/STBY press reads `switchDebounce` (radiopanels.cpp:176), and the first `update()` copies `switchDebounceThisRun` (radiopanels.cpp:191) before either is written. The model starts both at 0 and the digits blank, so its first flip goes through where the source reads an indeterminate value. The procedural globals are file-scope statics, zero-initialised or set by their initialisers (radiopanels.cpp:719-739), and the model starts them the same way.
- A read returning data fills all four report bytes.
- Readings are one snapshot per poll; a dataref that changes between two reads inside one poll is not modelled.
- `setLeft`/`setRight` add no decimal mark (radiopanels.cpp:124-148), and neither does the model.
- Poll.RadioPanel.Switches: promises consistency and that a half with no selector keeps its display; the per-handler effects are stated on the HalfState methods it calls.
- Poll.RadioPanel.Cycle: states the count and the guard, not the contents of each report; those are stated by Refresh and MakeMessage.
- Debounce.TimeRunSpacing: states a spacing of more than 5 stamp units (more than 0.05 s) only between presses in the same wall-clock second, not the half second the gate is meant for, because the recorded time `tv_sec*10 + tv_usec/10000` (radiopanels.cpp:96) falls at every second boundary; across one the gate can refuse a late press (see Findings). It also excludes the one second in 429496729 whose stamps wrap past the 32-bit limit mid-second (NoWrapIn), where C's `t - switchLastPressed` can overflow. The handlers take the time t as a parameter, so they cover either clock.
- RadioObject.Radio.ReselectUpper, RadioObject.Radio.ReselectLower, Panels.Panel.constructor: the source never sets `Panel::mode` for a DME handler (declared at radiopanels.cpp:77; the DME constructor at 284-298 does not set it), so `upperMode != DME` (radiopanels.cpp:556, 573) reads an indeterminate value and may install a fresh DMEPanel on every update while DME is held. The model compares the handler's kind and keeps the handler. A DME handler fires nothing and its display depends only on the simulator and the clock, so only its press state differs.
- Poll.RadioPanel.DrainStep: states the message built from the new windows, not which windows the switches and refresh chose; Report and Refresh state that.
- Poll.RadioPanel.Drain: states the shape of each report sent, not which windows the intermediate reports show; DrainStep and Report state that for one pass.
- Procedural.HalfState.DmeReadout: for a source other than 0 or 1 in mode 0, the stale readings are kept, as the code does.

## Findings

| source | as written | input that shows it | evidently intended | confidence | as-written member | corrected member |
|---|---|---|---|---|---|---|
| radiopanels.cpp:96 | `t = tp.tv_sec * 10 + tp.tv_usec / 10000` adds hundredths of a second to tenths, so t falls by up to 89 at each second boundary | ACT/STBY pressed at 12.99 s and again at 13.50 s: t is 219, then 180, and the second press is refused although 0.51 s passed | `tp.tv_usec / 100000`, whole tenths, so a press more than half a second after the last goes through | not executed | Debounce.StampRefusesLatePress | Debounce.TenthsSpacing |
| radiopanels.cpp:96 | `int t = tp.tv_sec * 10 + ...` narrows a `time_t` to 32 bits, which wraps once tv_sec passes 214748364 | a fresh handler at 1600000000 s: t is -1179869184, and `t - switchLastPressed` with switchLastPressed 0 is not above 5, so the first ACT/STBY press is refused | a 64-bit time, with which a fresh handler takes its first press | not executed | Debounce.StampRefusesFirstPress | Debounce.TenthsFirstPress |
