/** The object model's half-panel handlers: Panel and its RadioPanel, ADFPanel, DMEPanel and
    XPDRPanel subclasses, folded into one class tagged by the mode it serves. */
module Panels {
  import opened Bytes
  import opened Controls
  import opened Debounce
  import opened Encoder
  import opened Simulator

  /** The COM/NAV handlers (RadioPanel subclasses). */
  predicate IsRadio(m: Mode)
  {
    m == Com1 || m == Com2 || m == Nav1 || m == Nav2
  }

  /** enum Buttons: the index into debounceValue. */
  function ButtonIndex(b: Button): (i: nat)
    ensures i < 5
  {
    match b
    case CoarseUp => 0
    case CoarseDown => 1
    case FineUp => 2
    case FineDown => 3
    case ActiveStandby => 4
  }

  const FiveBlanks: seq<byte> := [Blank, Blank, Blank, Blank, Blank]
  const FiveDashes: seq<byte> := [Dash, Dash, Dash, Dash, Dash]

  // ---------------------------------------------------------------- XPDRPanel controls

  /** COARSE_DOWN moves the transponder cursor one place up the ring -1, 0, 1, 2, 3, 4. */
  function CursorDown(c: int): int
  {
    if c + 1 > 4 then -1 else c + 1
  }

  /** COARSE_UP moves the transponder cursor one place down the ring. */
  function CursorUp(c: int): int
  {
    if c - 1 < -1 then 4 else c - 1
  }

  /** Both coarse directions keep the cursor on the ring -1..4, wrap 4 -> -1 and -1 -> 4, and
      undo each other. */
  lemma CursorRing(c: int)
    requires -1 <= c <= 4
    ensures -1 <= CursorDown(c) <= 4 && -1 <= CursorUp(c) <= 4
    ensures CursorUp(CursorDown(c)) == c && CursorDown(CursorUp(c)) == c
    ensures (CursorDown(c) == -1 <==> c == 4) && (CursorUp(c) == 4 <==> c == -1)
  {
  }

  /** Six presses of one coarse direction bring the cursor back where it started. */
  lemma {:induction false} CursorPeriod(c: int, n: nat)
    requires -1 <= c <= 4
    ensures IterDown(c, n) == IterDown(c, n % 6)
    ensures -1 <= IterDown(c, n) <= 4
  {
    if n >= 6 {
      CursorPeriod(c, n - 6);
      IterDownSplit(c, n - 6, 6);
      SixDowns(IterDown(c, n - 6));
      assert (n - 6) % 6 == n % 6;
    } else {
      IterDownRange(c, n);
    }
  }

  function IterDown(c: int, n: nat): int
  {
    if n == 0 then c else CursorDown(IterDown(c, n - 1))
  }

  lemma {:induction false} IterDownRange(c: int, n: nat)
    requires -1 <= c <= 4
    ensures -1 <= IterDown(c, n) <= 4
  {
    if n > 0 { IterDownRange(c, n - 1); }
  }

  lemma {:induction false} IterDownSplit(c: int, m: nat, n: nat)
    ensures IterDown(c, m + n) == IterDown(IterDown(c, m), n)
  {
    if n > 0 { IterDownSplit(c, m, n - 1); }
  }

  lemma SixDowns(c: int)
    requires -1 <= c <= 4
    ensures IterDown(c, 6) == c
  {
    var c1 := CursorDown(c);
    var c2 := CursorDown(c1);
    var c3 := CursorDown(c2);
    var c4 := CursorDown(c3);
    var c5 := CursorDown(c4);
    assert IterDown(c, 5) == c5 by {
      assert IterDown(c, 1) == c1;
      assert IterDown(c, 2) == c2;
      assert IterDown(c, 3) == c3;
      assert IterDown(c, 4) == c4;
    }
  }

  /** XPDRPanel::switchTransponderMode: off and every standby/alt mode go to 1, 1 goes to 2, and a
      mode outside 0..3 is written back unchanged. */
  function NextTransponderMode(m: int): (n: int)
    ensures 0 <= m <= 3 ==> (n == 1 || n == 2)
    ensures n == 2 <==> m == 1
    ensures !(0 <= m <= 3) ==> n == m
  {
    match m
    case 0 => 1
    case 1 => 2
    case 2 => 1
    case 3 => 1
    case _ => m
  }

  /** After one press the mode alternates between 1 and 2. */
  lemma TransponderModeAlternates(m: int)
    requires 0 <= m <= 3
    ensures NextTransponderMode(NextTransponderMode(m)) == 3 - NextTransponderMode(m)
  {
  }

  /** XPDRPanel::up / down: the command chosen by the cursor (4 = barometer, 3..0 = thousands,
      hundreds, tens, ones), and none when the cursor is parked at -1. */
  function DigitCommand(cursor: int, up: bool): (c: Option<Command>)
    ensures c.Some? <==> 0 <= cursor <= 4
    ensures cursor == 4 ==> c == Some(BaroStep(up))
    ensures 0 <= cursor <= 3 ==> c == Some(XpdrDigit(cursor, up))
  {
    if cursor == 4 then Some(BaroStep(up))
    else if 0 <= cursor <= 3 then Some(XpdrDigit(cursor, up))
    else None
  }

  /** Distinct cursor positions and directions fire distinct commands. */
  lemma DigitCommandInjective(c1: int, u1: bool, c2: int, u2: bool)
    requires 0 <= c1 <= 4 && 0 <= c2 <= 4
    requires DigitCommand(c1, u1) == DigitCommand(c2, u2)
    ensures c1 == c2 && u1 == u2
  {
  }

  function OptionToSeq<T>(o: Option<T>): seq<T>
  {
    if o.Some? then [o.value] else []
  }

  // ---------------------------------------------------------------- handleButton

  /** What one handleButton call does: the commands it fires, whether it sets
      switchDebounceThisRun, the new transponder cursor and the transponder mode it writes. */
  datatype Effect = Effect(cmds: seq<Command>, armSwap: bool, cursor: int, xpdrMode: int)

  /** The handleButton of each subclass. ADFPanel and DMEPanel do nothing. */
  function ButtonEffect(kind: Mode, b: Button, switchDebounce: int, cursor: int, xpdrMode: int): (e: Effect)
    ensures |e.cmds| <= 1
    ensures !IsRadio(kind) && kind != Xpdr ==> e == Effect([], false, cursor, xpdrMode)
    ensures IsRadio(kind) ==> e.cursor == cursor && e.xpdrMode == xpdrMode
    ensures IsRadio(kind) && b != ActiveStandby ==> e.cmds == [StbyStep(kind, b)] && !e.armSwap
    ensures IsRadio(kind) && b == ActiveStandby ==>
              e.armSwap == (switchDebounce == 0) && (e.cmds == if e.armSwap then [StandbyFlip(kind)] else [])
    ensures kind == Xpdr ==> !e.armSwap
    ensures kind == Xpdr && b != ActiveStandby ==> e.xpdrMode == xpdrMode
    ensures kind == Xpdr && b == ActiveStandby ==>
              e.cmds == [] && e.cursor == cursor && e.xpdrMode == NextTransponderMode(xpdrMode)
  {
    if IsRadio(kind) then
      if b == ActiveStandby then
        if switchDebounce == 0 then Effect([StandbyFlip(kind)], true, cursor, xpdrMode)
        else Effect([], false, cursor, xpdrMode)
      else Effect([StbyStep(kind, b)], false, cursor, xpdrMode)
    else if kind == Xpdr then
      match b
      case CoarseDown => Effect([], false, CursorDown(cursor), xpdrMode)
      case CoarseUp => Effect([], false, CursorUp(cursor), xpdrMode)
      case FineUp => Effect(OptionToSeq(DigitCommand(cursor, true)), false, cursor, xpdrMode)
      case FineDown => Effect(OptionToSeq(DigitCommand(cursor, false)), false, cursor, xpdrMode)
      case ActiveStandby => Effect([], false, cursor, NextTransponderMode(xpdrMode))
    else Effect([], false, cursor, xpdrMode)
  }

  /** The transponder knobs: the coarse directions move only the cursor and keep it on its ring;
      the fine directions fire exactly the command of the cursor position and leave it in place. */
  lemma XpdrKnobs(b: Button, cursor: int, mode: int)
    requires -1 <= cursor <= 4 && b != ActiveStandby
    ensures var e := ButtonEffect(Xpdr, b, 0, cursor, mode);
      -1 <= e.cursor <= 4 &&
      (b == CoarseDown ==> e.cmds == [] && e.cursor == CursorDown(cursor)) &&
      (b == CoarseUp ==> e.cmds == [] && e.cursor == CursorUp(cursor)) &&
      (b == FineUp || b == FineDown ==>
         e.cursor == cursor && (e.cmds == [] <==> cursor == -1) &&
         (cursor != -1 ==> e.cmds == [DigitCommand(cursor, b == FineUp).value]))
  {
    CursorRing(cursor);
  }

  // ---------------------------------------------------------------- update() displays

  /** The half-second blink phase of XPDRPanel::update, from the microseconds of the wall clock. */
  function BlinkPhase(usec: int): int
  {
    CMod(CDiv(usec * 5, 1000000), 2)
  }

  /** Within a second the cursor digit is dark in the second and fourth fifths. */
  lemma BlinkWindows(usec: int)
    requires 0 <= usec < 1000000
    ensures BlinkPhase(usec) == 0 || BlinkPhase(usec) == 1
    ensures BlinkPhase(usec) == 1 <==> 200000 <= usec < 400000 || 600000 <= usec < 800000
  {
    var q := (usec * 5) / 1000000;
    assert 0 <= q <= 4;
    if usec < 200000 {
      assert q == 0;
    } else if usec < 400000 {
      assert q == 1;
    } else if usec < 600000 {
      assert q == 2;
    } else if usec < 800000 {
      assert q == 3;
    } else {
      assert q == 4;
    }
  }

  /** The transponder-mode overlay on the code display. */
  function XpdrModeOverlay(right: seq<byte>, mode: int): (r: seq<byte>)
    requires |right| == 5
    ensures |r| == 5
  {
    if mode == 0 then FiveBlanks
    else if mode == 1 then right[0 := Dash]
    else if mode == 2 then right[0 := Blank]
    else if mode == 3 then [8, 8, 8, 8, 8]
    else right
  }

  /** XPDRPanel::update's right display: the code, the mode overlay, then the blinking cursor. */
  function XpdrRight(code: int, mode: int, cursor: int, blink: int): (r: seq<byte>)
    ensures |r| == 5
  {
    var r := XpdrModeOverlay(Encode(code), mode);
    if blink != 0 && 0 <= cursor <= 3 then r[4 - cursor := Blank] else r
  }

  /** XPDRPanel::update's left display: the barometer with its first digit blanked, then the dash
      that flashes when the cursor is on the barometer. */
  function XpdrLeft(baroHundredths: int, cursor: int, blink: int): (l: seq<byte>)
    ensures |l| == 5
  {
    var l := Encode(baroHundredths)[0 := Blank];
    if blink != 0 && cursor == 4 then l[0 := Dash] else l
  }

  /** The overlay: mode 0 blanks the code, 1 puts a dash in front, 2 blanks the front, 3 shows all
      eights; the blink only darkens the cursor digit (position 4 - cursor) or flashes the dash in
      front of the barometer, and touches nothing else. */
  lemma XpdrDisplayOverlay(code: int, baro: int, mode: int, cursor: int, blink: int, i: nat)
    requires i < 5
    ensures mode == 0 ==> XpdrRight(code, mode, cursor, blink) == FiveBlanks
    ensures mode == 1 ==> XpdrRight(code, mode, cursor, blink)[0] == Dash
    ensures mode == 2 ==> XpdrRight(code, mode, cursor, blink)[0] == Blank
    ensures var blinking := blink != 0 && 0 <= cursor <= 3 && i == 4 - cursor;
      XpdrRight(code, mode, cursor, blink)[i] ==
        if blinking then Blank else XpdrModeOverlay(Encode(code), mode)[i]
    ensures mode == 3 ==> XpdrRight(code, mode, cursor, blink)[i] ==
                            if blink != 0 && 0 <= cursor <= 3 && i == 4 - cursor then Blank else 8
    ensures XpdrLeft(baro, cursor, blink)[0] == if blink != 0 && cursor == 4 then Dash else Blank
    ensures 0 < i ==> XpdrLeft(baro, cursor, blink)[i] == Encode(baro)[i]
  {
  }

  /** DMEPanel::update: a slave source above 5 falls back to 0. */
  function DmeSource(slave: int): (s: int)
    ensures s <= 5
    ensures 0 <= slave ==> 0 <= s
  {
    if slave > 5 then 0 else slave
  }

  /** DMEPanel::update's two displays. */
  function DmeDisplay(slave: int, blocks: seq<DmeIndicator>, freq: int, t: int): (d: (seq<byte>, seq<byte>))
    requires |blocks| == 6
    ensures |d.0| == 5 && |d.1| == 5
  {
    var source := DmeSource(slave);
    if source >= 0 then
      var blk := blocks[source];
      if blk.hasDme == 0 then (FiveDashes, FiveDashes)
      else (Encode(blk.distTenths),
            if CMod(t, 4) < 2 then Encode(blk.knotsTenths) else Encode(blk.minutesTenths))
    else (Encode(freq), Encode(0))
  }

  /** The DME display shows dashes when the source has no DME, alternates knots and minutes every
      two seconds next to the distance when it has one, and shows only the tuned frequency when the
      slave source is negative. */
  lemma DmeDisplayCases(slave: int, blocks: seq<DmeIndicator>, freq: int, t: int)
    requires |blocks| == 6
    ensures var d := DmeDisplay(slave, blocks, freq, t);
      (slave < 0 ==> d == (Encode(freq), FiveBlanks)) &&
      (slave >= 0 ==>
        var blk := blocks[if slave > 5 then 0 else slave];
        (blk.hasDme == 0 ==> d == (FiveDashes, FiveDashes)) &&
        (blk.hasDme != 0 ==>
           d.0 == Encode(blk.distTenths) &&
           (t >= 0 ==> d.1 == if t % 4 < 2 then Encode(blk.knotsTenths) else Encode(blk.minutesTenths))))
  {
    EncodeSingleDigit(0);
  }

  /** The two displays each handler's update() leaves, given the simulator state. */
  function Display(kind: Mode, rd: Readings, code: int, xmode: int, slave: int, dmeFreq: int,
                   cursor: int, usec: int, t: int): (d: (seq<byte>, seq<byte>))
    requires |rd.dmeBlocks| == 6
    ensures |d.0| == 5 && |d.1| == 5
  {
    if IsRadio(kind) then (Encode(rd.RadioFreq(kind).active), Encode(rd.RadioFreq(kind).standby))
    else if kind == Dme then DmeDisplay(slave, rd.dmeBlocks, dmeFreq, t)
    else if kind == Xpdr then
      var blink := BlinkPhase(usec);
      (XpdrLeft(rd.baroHundredths, cursor, blink), XpdrRight(code, xmode, cursor, blink))
    else (FiveBlanks, FiveBlanks)
  }

  /** setLeft/setRight: the five digits, then the leading-zero blanking loop. */
  method SetDigits(d: array<byte>, active: int)
    requires d.Length == 5
    modifies d
    ensures d[..] == Encode(active)
  {
    var a := active;
    d[0] := ToByte(CDiv(a, 10000)); a := CMod(a, 10000);
    d[1] := ToByte(CDiv(a, 1000)); a := CMod(a, 1000);
    d[2] := ToByte(CDiv(a, 100)); a := CMod(a, 100);
    d[3] := ToByte(CDiv(a, 10)); a := CMod(a, 10);
    d[4] := ToByte(a);
    FiveDigitsIsCChain(active);
    ghost var s := StoredDigits(active);
    assert d[..] == s;
    var i := 0;
    while i < 5 && d[i] == 0
      invariant 0 <= i <= 5
      invariant forall k :: 0 <= k < i ==> d[k] == Blank && s[k] == 0
      invariant forall k :: i <= k < 5 ==> d[k] == s[k]
    {
      d[i] := Blank;
      i := i + 1;
    }
    forall k | 0 <= k < 5
      ensures d[k] == Encode(active)[k]
    {
      BlankLeadingZerosAt(s, k);
    }
  }

  /** Writes the same byte into all five positions. */
  method Fill(d: array<byte>, v: byte)
    requires d.Length == 5
    modifies d
    ensures d[..] == [v, v, v, v, v]
  {
    for i := 0 to 5
      invariant forall k :: 0 <= k < i ==> d[k] == v
    {
      d[i] := v;
    }
  }

  // ---------------------------------------------------------------- press state

  /** The fields of a handler that its buttons and update() change. */
  datatype Presses = Presses(debounceValue: seq<int>, switchLastPressed: int, switchDebounce: int,
                             thisRun: int, cursor: int)

  /** A freshly constructed handler. */
  const FreshPresses := Presses([0, 0, 0, 0, 0], 0, 0, 0, -1)

  /** A handler's press state together with the simulator's command log and transponder mode. */
  datatype PanelSim = PanelSim(h: Presses, log: seq<Command>, xpdrMode: int)

  /** Panel::handleRawButton on that state at clock reading t: ACTIVE_STANDBY passes the time gate
      and records t, every other button passes its press counter; a press that goes through has
      the effect of handleButton. */
  function RawPress(kind: Mode, k: PanelSim, b: Button, t: int): (r: PanelSim)
    requires |k.h.debounceValue| == 5
    ensures |r.h.debounceValue| == 5 && r.h.switchDebounce == k.h.switchDebounce
    ensures k.log <= r.log && |r.log| <= |k.log| + 1
  {
    var h := k.h;
    var i := ButtonIndex(b);
    var fires := if b == ActiveStandby then TimeStep(h.switchLastPressed, t).fired
                 else CountStep(h.debounceValue[i], Threshold).fired;
    var e := ButtonEffect(kind, b, h.switchDebounce, h.cursor, k.xpdrMode);
    PanelSim(Presses(if b == ActiveStandby then h.debounceValue
                  else h.debounceValue[i := CountStep(h.debounceValue[i], Threshold).count],
                  if b == ActiveStandby then t else h.switchLastPressed,
                  h.switchDebounce,
                  if fires && e.armSwap then 1 else h.thisRun,
                  if fires then e.cursor else h.cursor),
          k.log + (if fires then e.cmds else []),
          if fires then e.xpdrMode else k.xpdrMode)
  }

  /** The swap-mark part of update(): a RadioPanel moves this run's mark into switchDebounce. */
  function Refreshed(kind: Mode, h: Presses): (r: Presses)
    ensures r.debounceValue == h.debounceValue && r.switchLastPressed == h.switchLastPressed
    ensures r.cursor == h.cursor
    ensures IsRadio(kind) ==> r.switchDebounce == h.thisRun && r.thisRun == 0
    ensures !IsRadio(kind) ==> r == h
  {
    if IsRadio(kind) then h.(switchDebounce := h.thisRun, thisRun := 0) else h
  }

  /** One half-panel handler. */
  class Panel {
    const kind: Mode
    const digitsLeft: array<byte>
    const digitsRight: array<byte>
    /** debounceValue[NUM_BUTTONS]; every debounceThreshold entry is Threshold. */
    var debounceValue: seq<int>
    var switchLastPressed: int
    /** RadioPanel's swap lockout. */
    var switchDebounce: int
    var switchDebounceThisRun: int
    /** XPDRPanel's digit cursor. */
    var currentDigit: int

    ghost predicate Valid()
      reads this
    {
      kind != Invalid && digitsLeft.Length == 5 && digitsRight.Length == 5 &&
      digitsLeft != digitsRight && |debounceValue| == 5
    }

    /** The press state of this handler. */
    function PressesOf(): Presses
      reads this
    {
      Presses(debounceValue, switchLastPressed, switchDebounce, switchDebounceThisRun, currentDigit)
    }

    /** The constructor of the subclass serving `kind`. */
    constructor(kind: Mode)
      requires kind != Invalid
      ensures Valid() && fresh(digitsLeft) && fresh(digitsRight)
      ensures this.kind == kind && debounceValue == [0, 0, 0, 0, 0] && switchLastPressed == 0
      ensures switchDebounce == 0 && switchDebounceThisRun == 0 && currentDigit == -1
    {
      this.kind := kind;
      digitsLeft := new byte[5](_ => Encoder.Blank);
      digitsRight := new byte[5](_ => Encoder.Blank);
      debounceValue := [0, 0, 0, 0, 0];
      switchLastPressed := 0;
      switchDebounce := 0;
      switchDebounceThisRun := 0;
      currentDigit := -1;
    }

    /** Panel::blank: all ten digits dark. */
    method Blank()
      requires Valid()
      modifies digitsLeft, digitsRight
      ensures digitsLeft[..] == FiveBlanks && digitsRight[..] == FiveBlanks
    {
      for i := 0 to 5
        invariant forall k :: 0 <= k < i ==> digitsLeft[k] == Encoder.Blank && digitsRight[k] == Encoder.Blank
      {
        digitsLeft[i] := Encoder.Blank;
        digitsRight[i] := Encoder.Blank;
      }
    }

    method SetLeft(active: int)
      requires Valid()
      modifies digitsLeft
      ensures digitsLeft[..] == Encode(active)
    {
      SetDigits(digitsLeft, active);
    }

    method SetRight(active: int)
      requires Valid()
      modifies digitsRight
      ensures digitsRight[..] == Encode(active)
    {
      SetDigits(digitsRight, active);
    }

    /** handleButton, dispatched on the handler's kind. */
    method HandleButton(b: Button, sim: Sim)
      requires Valid()
      modifies this`switchDebounceThisRun, this`currentDigit, sim`log, sim`xpdrMode
      ensures var e := ButtonEffect(kind, b, switchDebounce, old(currentDigit), old(sim.xpdrMode));
        sim.log == old(sim.log) + e.cmds && currentDigit == e.cursor && sim.xpdrMode == e.xpdrMode &&
        switchDebounceThisRun == if e.armSwap then 1 else old(switchDebounceThisRun)
    {
      if IsRadio(kind) {
        if b == ActiveStandby {
          if switchDebounce == 0 {
            switchDebounceThisRun := 1;
            sim.Fire(StandbyFlip(kind));
          }
        } else {
          sim.Fire(StbyStep(kind, b));
        }
      } else if kind == Xpdr {
        match b
        case CoarseDown =>
          currentDigit := currentDigit + 1;
          if currentDigit > 4 { currentDigit := -1; }
        case CoarseUp =>
          currentDigit := currentDigit - 1;
          if currentDigit < -1 { currentDigit := 4; }
        case FineUp =>
          var c := DigitCommand(currentDigit, true);
          if c.Some? { sim.Fire(c.value); }
        case FineDown =>
          var c := DigitCommand(currentDigit, false);
          if c.Some? { sim.Fire(c.value); }
        case ActiveStandby =>
          sim.xpdrMode := NextTransponderMode(sim.xpdrMode);
      }
    }

    /** Panel::handleRawButton at time t (the clock reading Stamp computes, taken as given):
        ACTIVE_STANDBY goes through the time gate and always records t; every other button goes
        through its press counter. */
    method HandleRawButton(b: Button, t: int, sim: Sim)
      requires Valid()
      modifies this`debounceValue, this`switchLastPressed, this`switchDebounceThisRun, this`currentDigit
      modifies sim`log, sim`xpdrMode
      ensures Valid()
      ensures b == ActiveStandby ==> switchLastPressed == t && debounceValue == old(debounceValue)
      ensures b != ActiveStandby ==>
        switchLastPressed == old(switchLastPressed) &&
        debounceValue == old(debounceValue)[ButtonIndex(b) :=
                           CountStep(old(debounceValue)[ButtonIndex(b)], Threshold).count]
      ensures
        var fires := if b == ActiveStandby then TimeStep(old(switchLastPressed), t).fired
                     else CountStep(old(debounceValue)[ButtonIndex(b)], Threshold).fired;
        var e := ButtonEffect(kind, b, switchDebounce, old(currentDigit), old(sim.xpdrMode));
        sim.log == old(sim.log) + (if fires then e.cmds else []) &&
        currentDigit == (if fires then e.cursor else old(currentDigit)) &&
        sim.xpdrMode == (if fires then e.xpdrMode else old(sim.xpdrMode)) &&
        switchDebounceThisRun == (if fires && e.armSwap then 1 else old(switchDebounceThisRun))
      ensures PanelSim(PressesOf(), sim.log, sim.xpdrMode) == RawPress(kind, old(PanelSim(PressesOf(), sim.log, sim.xpdrMode)), b, t)
    {
      if b == ActiveStandby {
        if t - switchLastPressed > 5 {
          HandleButton(b, sim);
        }
        switchLastPressed := t;
        return;
      }
      var i := ButtonIndex(b);
      debounceValue := debounceValue[i := debounceValue[i] + 1];
      if debounceValue[i] >= Threshold {
        HandleButton(b, sim);
        debounceValue := debounceValue[i := 0];
      }
    }

    /** update() of each subclass at wall-clock microseconds usec and time(NULL) = t. RadioPanel
        also moves this cycle's swap mark into switchDebounce. */
    method Update(rd: Readings, sim: Sim, usec: int, t: int)
      requires Valid() && |rd.dmeBlocks| == 6
      modifies digitsLeft, digitsRight, this`switchDebounce, this`switchDebounceThisRun
      ensures (digitsLeft[..], digitsRight[..]) ==
              Display(kind, rd, sim.xpdrCode, sim.xpdrMode, sim.dmeSlave, sim.dmeFreq, currentDigit, usec, t)
      ensures IsRadio(kind) ==> switchDebounce == old(switchDebounceThisRun) && switchDebounceThisRun == 0
      ensures !IsRadio(kind) ==> switchDebounce == old(switchDebounce) &&
                                 switchDebounceThisRun == old(switchDebounceThisRun)
      ensures PressesOf() == Refreshed(kind, old(PressesOf()))
    {
      if IsRadio(kind) {
        var f := rd.RadioFreq(kind);
        SetLeft(f.active);
        SetRight(f.standby);
        switchDebounce := switchDebounceThisRun;
        switchDebounceThisRun := 0;
      } else if kind == Dme {
        UpdateDme(rd, sim, t);
      } else if kind == Xpdr {
        UpdateXpdr(rd, sim, usec);
      } else {
        Blank();
      }
    }

    /** DMEPanel::update. */
    method UpdateDme(rd: Readings, sim: Sim, t: int)
      requires Valid() && |rd.dmeBlocks| == 6
      modifies digitsLeft, digitsRight
      ensures (digitsLeft[..], digitsRight[..]) == DmeDisplay(sim.dmeSlave, rd.dmeBlocks, sim.dmeFreq, t)
    {
      var source := sim.dmeSlave;
      if source > 5 { source := 0; }
      if source >= 0 {
        var blk := rd.dmeBlocks[source];
        if blk.hasDme == 0 {
          for i := 0 to 5
            invariant forall k :: 0 <= k < i ==> digitsLeft[k] == Dash && digitsRight[k] == Dash
          {
            digitsLeft[i] := Dash;
            digitsRight[i] := Dash;
          }
          assert digitsLeft[..] == FiveDashes && digitsRight[..] == FiveDashes;
        } else {
          SetLeft(blk.distTenths);
          if CMod(t, 4) < 2 {
            SetRight(blk.knotsTenths);
          } else {
            SetRight(blk.minutesTenths);
          }
        }
      } else {
        SetLeft(sim.dmeFreq);
        SetRight(0);
      }
    }

    /** XPDRPanel::update. */
    method UpdateXpdr(rd: Readings, sim: Sim, usec: int)
      requires Valid()
      modifies digitsLeft, digitsRight
      ensures digitsLeft[..] == XpdrLeft(rd.baroHundredths, currentDigit, BlinkPhase(usec))
      ensures digitsRight[..] == XpdrRight(sim.xpdrCode, sim.xpdrMode, currentDigit, BlinkPhase(usec))
    {
      SetRight(sim.xpdrCode);
      OverlayMode(sim.xpdrMode);
      SetLeft(rd.baroHundredths);
      digitsLeft[0] := Encoder.Blank;
      ghost var left := digitsLeft[..];
      ghost var right := digitsRight[..];
      var blink := BlinkPhase(usec);
      if blink != 0 {
        if 0 <= currentDigit <= 3 {
          digitsRight[4 - currentDigit] := Encoder.Blank;
          assert digitsRight[..] == right[4 - currentDigit := Encoder.Blank];
        } else if currentDigit == 4 {
          digitsLeft[0] := Dash;
          assert digitsLeft[..] == left[0 := Dash];
        }
      }
    }

    /** The transponder-mode overlay of XPDRPanel::update. */
    method OverlayMode(mode: int)
      requires Valid()
      modifies digitsRight
      ensures digitsRight[..] == XpdrModeOverlay(old(digitsRight[..]), mode)
    {
      if mode == 0 {
        Fill(digitsRight, Encoder.Blank);
      } else if mode == 1 {
        digitsRight[0] := Dash;
      } else if mode == 2 {
        digitsRight[0] := Encoder.Blank;
      } else if mode == 3 {
        Fill(digitsRight, 8);
      }
    }
  }
}
