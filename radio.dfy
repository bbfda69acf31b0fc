/** The object model's Radio: it owns an upper and a lower handler, replaces them when a mode
    button is pressed, feeds them the knob bits and assembles the output report. */
module RadioObject {
  import opened Bytes
  import opened Controls
  import opened Encoder
  import opened Simulator
  import opened Panels

  /** The size of write_buffer: a leading byte and twenty digits. */
  const ReportSize := 21

  /** The position of each mode in the order Radio::update tests the select buttons. */
  function Rank(m: Mode): nat
  {
    match m
    case Com1 => 0
    case Com2 => 1
    case Nav1 => 2
    case Nav2 => 3
    case Adf => 4
    case Dme => 5
    case Xpdr => 6
    case Invalid => 7
  }

  /** A mode whose select button is pressed and that is not the mode already served. */
  predicate Eligible(buf: seq<byte>, half: Half, current: Mode, m: Mode)
    requires |buf| >= 3
  {
    m != Invalid && Selected(buf, half, m) && m != current
  }

  /** The if/else-if chain of Radio::update for one half: the handler to install, if any. */
  function SelectMode(buf: seq<byte>, half: Half, current: Mode): (r: Option<Mode>)
    requires |buf| >= 3
    ensures r.Some? ==> Eligible(buf, half, current, r.value)
    ensures r.Some? ==> forall m :: Rank(m) < Rank(r.value) ==> !Eligible(buf, half, current, m)
    ensures r.None? <==> forall m :: !Eligible(buf, half, current, m)
  {
    if Eligible(buf, half, current, Com1) then Some(Com1)
    else if Eligible(buf, half, current, Com2) then Some(Com2)
    else if Eligible(buf, half, current, Nav1) then Some(Nav1)
    else if Eligible(buf, half, current, Nav2) then Some(Nav2)
    else if Eligible(buf, half, current, Adf) then Some(Adf)
    else if Eligible(buf, half, current, Dme) then Some(Dme)
    else if Eligible(buf, half, current, Xpdr) then Some(Xpdr)
    else None
  }

  /** With COM1 and NAV1 both held on the upper half while COM1 is served, NAV1 is installed;
      with only the served mode held, nothing changes. */
  lemma SelectModeExamples()
    ensures SelectMode([0x05, 0, 0], Upper, Com1) == Some(Nav1)
    ensures SelectMode([0x01, 0, 0], Upper, Com1) == None
    ensures SelectMode([0x05, 0, 0], Upper, Invalid) == Some(Com1)
  {
    var b: seq<byte> := [0x05, 0, 0];
    assert BitMask[7] == 1 && BitMask[6] == 2 && BitMask[5] == 4;
    assert Selected(b, Upper, Com1) && !Selected(b, Upper, Com2) && Selected(b, Upper, Nav1);
    var c: seq<byte> := [0x01, 0, 0];
    assert Selected(c, Upper, Com1);
    assert forall m :: m != Invalid && m != Com1 ==> !Selected(c, Upper, m);
  }

  /** The upper choice depends only on the upper select buttons, the lower only on the lower ones:
      the two halves are decided independently. */
  lemma SelectModeIndependent(buf1: seq<byte>, buf2: seq<byte>, half: Half, current: Mode)
    requires |buf1| >= 3 && |buf2| >= 3
    requires forall m :: m != Invalid ==> Selected(buf1, half, m) == Selected(buf2, half, m)
    ensures SelectMode(buf1, half, current) == SelectMode(buf2, half, current)
  {
    forall m | m != Invalid
      ensures Eligible(buf1, half, current, m) == Eligible(buf2, half, current, m)
    {
      assert Selected(buf1, half, m) == Selected(buf2, half, m);
    }
  }

  /** The mode a handler slot serves (INVALID when empty). */
  function ModeOf(p: Panel?): Mode
  {
    if p == null then Invalid else p.kind
  }

  /** The ten digits a handler currently shows, left then right. */
  function Shown(p: Panel?): (r: Option<(seq<byte>, seq<byte>)>)
    reads p, if p != null then {p.digitsLeft, p.digitsRight} else {}
  {
    if p == null then None else Some((p.digitsLeft[..], p.digitsRight[..]))
  }

  /** memset(write_buffer, 15, 10): the first ten bytes, whatever slot was meant. */
  function Memset15(b: seq<byte>): (r: seq<byte>)
    requires |b| == ReportSize
    ensures |r| == ReportSize
  {
    FiveBlanks + FiveBlanks + b[10..]
  }

  /** Writes ten digits at position `at`. */
  function Place(b: seq<byte>, at: nat, d: (seq<byte>, seq<byte>)): (r: seq<byte>)
    requires |b| == ReportSize && at + 10 <= ReportSize && |d.0| == 5 && |d.1| == 5
    ensures |r| == ReportSize
  {
    b[..at] + d.0 + d.1 + b[at + 10..]
  }

  predicate FiveFive(d: Option<(seq<byte>, seq<byte>)>)
  {
    d.Some? ==> |d.value.0| == 5 && |d.value.1| == 5
  }

  /** Radio::writeToRadio's buffer, starting from the previous buffer contents: byte 0 is cleared,
      then each present half is copied into its slot, and each absent half runs the memset. */
  function Assemble(prev: seq<byte>, up: Option<(seq<byte>, seq<byte>)>,
                    lo: Option<(seq<byte>, seq<byte>)>): (r: seq<byte>)
    requires |prev| == ReportSize && FiveFive(up) && FiveFive(lo)
    ensures |r| == ReportSize
  {
    var b0 := prev[0 := 0];
    var b1 := if up.Some? then Place(b0, 1, up.value) else Memset15(b0);
    if lo.Some? then Place(b1, 11, lo.value) else Memset15(b1)
  }

  /** With both halves present the report is 0, upper left, upper right, lower left, lower right,
      whatever the buffer held before. */
  lemma AssembleBothPresent(prev: seq<byte>, ul: seq<byte>, ur: seq<byte>, ll: seq<byte>, lr: seq<byte>)
    requires |prev| == ReportSize && |ul| == 5 && |ur| == 5 && |ll| == 5 && |lr| == 5
    ensures Assemble(prev, Some((ul, ur)), Some((ll, lr))) == [0] + ul + ur + ll + lr
  {
  }

  /** An absent half does not blank its own slot: the memset overwrites bytes 0..9, so byte 0 is
      15 instead of 0, byte 10 and the absent lower slot keep whatever the buffer held, and a
      present upper half loses its first nine digits. */
  lemma AssembleHalfAbsent(prev: seq<byte>, up: Option<(seq<byte>, seq<byte>)>,
                           lo: Option<(seq<byte>, seq<byte>)>)
    requires |prev| == ReportSize && FiveFive(up) && FiveFive(lo)
    requires up.None? || lo.None?
    ensures var r := Assemble(prev, up, lo);
      r[..10] == FiveBlanks + FiveBlanks &&
      r[10] == (if up.Some? then up.value.1[4] else prev[10]) &&
      r[11..] == (if lo.Some? then lo.value.0 + lo.value.1 else prev[11..])
  {
  }

  /** The blank display of a present handler, for the teardown. */
  function Blanked(p: Panel?): (r: Option<(seq<byte>, seq<byte>)>)
    ensures FiveFive(r)
  {
    if p == null then None else Some((FiveBlanks, FiveBlanks))
  }

  /** With both handlers present, the last report before the device closes is 0 then twenty
      blanks. */
  lemma TeardownBothPresent(prev: seq<byte>)
    requires |prev| == ReportSize
    ensures Assemble(prev, Some((FiveBlanks, FiveBlanks)), Some((FiveBlanks, FiveBlanks))) ==
            [0] + FiveBlanks + FiveBlanks + FiveBlanks + FiveBlanks
  {
    AssembleBothPresent(prev, FiveBlanks, FiveBlanks, FiveBlanks, FiveBlanks);
  }

  /** The objects a handler slot owns. */
  function PanelRepr(p: Panel?): set<object>
  {
    if p == null then {} else {p, p.digitsLeft, p.digitsRight}
  }

  /** One knob bit of Radio::update: the press reaches the handler only when the bit is set. */
  function PressIf(kind: Mode, k: PanelSim, buf: seq<byte>, half: Half, b: Button, t: int): (r: PanelSim)
    requires |buf| >= 3 && |k.h.debounceValue| == 5
    ensures |r.h.debounceValue| == 5 && r.h.switchDebounce == k.h.switchDebounce
    ensures Pressed(buf, half, b) ==> r == RawPress(kind, k, b, t)
    ensures !Pressed(buf, half, b) ==> r == k
  {
    if Pressed(buf, half, b) then RawPress(kind, k, b, t) else k
  }

  /** The knob pass of Radio::update over one half, in the order it tests the bits: coarse up,
      coarse down, fine up, fine down, then active/standby. */
  function ServeHalf(kind: Mode, k: PanelSim, buf: seq<byte>, half: Half, t: int): (r: PanelSim)
    requires |buf| >= 3 && |k.h.debounceValue| == 5
    ensures |r.h.debounceValue| == 5 && r.h.switchDebounce == k.h.switchDebounce
    ensures k.log <= r.log && |r.log| <= |k.log| + 5
  {
    var k1 := PressIf(kind, k, buf, half, CoarseUp, t);
    var k2 := PressIf(kind, k1, buf, half, CoarseDown, t);
    var k3 := PressIf(kind, k2, buf, half, FineUp, t);
    var k4 := PressIf(kind, k3, buf, half, FineDown, t);
    PressIf(kind, k4, buf, half, ActiveStandby, t)
  }

  /** A handler slot as the knob pass sees it: the mode served and the handler's press state. */
  function SlotOf(p: Panel?): Option<(Mode, Presses)>
    reads p
  {
    if p == null then None else Some((p.kind, p.PressesOf()))
  }

  /** The press state of the handler in a slot, if any. */
  function PressesIn(p: Panel?): Option<Presses>
    reads p
  {
    if p == null then None else Some(p.PressesOf())
  }

  predicate SlotOk(slot: Option<(Mode, Presses)>)
  {
    slot.Some? ==> |slot.value.1.debounceValue| == 5
  }

  /** The press state a slot ends with and the simulator's log and transponder mode after it. */
  datatype Pass = Pass(h: Option<Presses>, log: seq<Command>, xpdrMode: int)

  /** One half of Radio::update after the selection: the knob pass, then the handler's update();
      an empty slot passes the simulator's log and transponder mode through. */
  function ServeSlot(slot: Option<(Mode, Presses)>, buf: seq<byte>, half: Half, t: int,
                     log: seq<Command>, xpdrMode: int): (r: Pass)
    requires |buf| >= 3 && SlotOk(slot)
    ensures r.h.Some? <==> slot.Some?
    ensures slot.None? ==> r.log == log && r.xpdrMode == xpdrMode
    ensures log <= r.log && |r.log| <= |log| + 5
  {
    match slot
    case None => Pass(None, log, xpdrMode)
    case Some((kind, h)) =>
      var k := ServeHalf(kind, PanelSim(h, log, xpdrMode), buf, half, t);
      Pass(Some(Refreshed(kind, k.h)), k.log, k.xpdrMode)
  }

  /** The handlers and the simulator once Radio::update has fed both halves their knobs, upper first,
      starting from the slots `us` and `ls` and the simulator's log and transponder mode: each
      handler holds the press state of its pass and shows what its update() draws, the upper one
      against the transponder mode its own pass left. */
  ghost predicate Served(upper: Panel?, lower: Panel?, sim: Sim, us: Option<(Mode, Presses)>,
                         ls: Option<(Mode, Presses)>, log: seq<Command>, xpdrMode: int,
                         buf: seq<byte>, rd: Readings, t: int, usec: int, now: int)
    requires |buf| >= 3 && |rd.dmeBlocks| == 6 && SlotOk(us) && SlotOk(ls)
    reads PanelRepr(upper), PanelRepr(lower), sim
  {
    var ru := ServeSlot(us, buf, Upper, t, log, xpdrMode);
    var rl := ServeSlot(ls, buf, Lower, t, ru.log, ru.xpdrMode);
    ru.h == PressesIn(upper) && rl.h == PressesIn(lower) &&
    sim.log == rl.log && sim.xpdrMode == rl.xpdrMode &&
    (upper != null ==>
       (upper.digitsLeft[..], upper.digitsRight[..]) ==
       Display(upper.kind, rd, sim.xpdrCode, ru.xpdrMode, sim.dmeSlave, sim.dmeFreq, upper.currentDigit, usec, now)) &&
    (lower != null ==>
       (lower.digitsLeft[..], lower.digitsRight[..]) ==
       Display(lower.kind, rd, sim.xpdrCode, sim.xpdrMode, sim.dmeSlave, sim.dmeFreq, lower.currentDigit, usec, now))
  }

  /** Feeds one half's knob bits to its handler in the order Radio::update tests them, then lets
      the handler refresh its digits. */
  method Serve(p: Panel, buf: seq<byte>, half: Half, rd: Readings, sim: Sim, t: int, usec: int, now: int)
    requires p.Valid() && |buf| >= 3 && |rd.dmeBlocks| == 6
    modifies p, p.digitsLeft, p.digitsRight, sim`log, sim`xpdrMode
    ensures p.Valid()
    ensures var r := ServeSlot(old(SlotOf(p)), buf, half, t, old(sim.log), old(sim.xpdrMode));
      r.h == Some(p.PressesOf()) && sim.log == r.log && sim.xpdrMode == r.xpdrMode
    ensures (p.digitsLeft[..], p.digitsRight[..]) ==
            Display(p.kind, rd, sim.xpdrCode, sim.xpdrMode, sim.dmeSlave, sim.dmeFreq, p.currentDigit, usec, now)
  {
    ghost var k0 := PanelSim(p.PressesOf(), sim.log, sim.xpdrMode);
    PressBit(p, buf, half, CoarseUp, t, sim);
    PressBit(p, buf, half, CoarseDown, t, sim);
    PressBit(p, buf, half, FineUp, t, sim);
    PressBit(p, buf, half, FineDown, t, sim);
    PressBit(p, buf, half, ActiveStandby, t, sim);
    assert PanelSim(p.PressesOf(), sim.log, sim.xpdrMode) == ServeHalf(p.kind, k0, buf, half, t);
    p.Update(rd, sim, usec, now);
  }

  /** One `if` of Radio::update's knob tests. */
  method PressBit(p: Panel, buf: seq<byte>, half: Half, b: Button, t: int, sim: Sim)
    requires p.Valid() && |buf| >= 3
    modifies p, sim`log, sim`xpdrMode
    ensures p.Valid() && unchanged(p`switchDebounce)
    ensures PanelSim(p.PressesOf(), sim.log, sim.xpdrMode) ==
            PressIf(p.kind, old(PanelSim(p.PressesOf(), sim.log, sim.xpdrMode)), buf, half, b, t)
  {
    if Pressed(buf, half, b) { p.HandleRawButton(b, t, sim); }
  }

  class Radio {
    var upper: Panel?
    var lower: Panel?
    const writeBuffer: array<byte>
    /** Every report handed to hid_send_feature_report, oldest first. */
    var sent: seq<seq<byte>>
    ghost var Repr: set<object>

    ghost predicate Valid()
      reads this, Repr
    {
      Repr == {this, writeBuffer} + PanelRepr(upper) + PanelRepr(lower) &&
      writeBuffer.Length == ReportSize &&
      (upper != null ==> upper.Valid() && writeBuffer != upper.digitsLeft && writeBuffer != upper.digitsRight) &&
      (lower != null ==> lower.Valid() && writeBuffer != lower.digitsLeft && writeBuffer != lower.digitsRight) &&
      (upper != null && lower != null ==> upper != lower && PanelRepr(upper) !! PanelRepr(lower))
    }

    /** Radio::Radio: both slots empty. */
    constructor()
      ensures Valid() && fresh(Repr)
      ensures upper == null && lower == null && sent == []
    {
      upper := null;
      lower := null;
      writeBuffer := new byte[ReportSize](_ => 0);
      sent := [];
      Repr := {this, writeBuffer};
    }

    /** Radio::setUpper: the old handler is discarded and the new one takes the slot. */
    method SetUpper(p: Panel)
      requires Valid() && p.Valid() && PanelRepr(p) !! Repr
      modifies this`upper, this`Repr
      ensures Valid() && upper == p && lower == old(lower)
      ensures Repr == old(Repr) - PanelRepr(old(upper)) + PanelRepr(p)
    {
      upper := p;
      Repr := {this, writeBuffer} + PanelRepr(upper) + PanelRepr(lower);
    }

    /** Radio::setLower. */
    method SetLower(p: Panel)
      requires Valid() && p.Valid() && PanelRepr(p) !! Repr
      modifies this`lower, this`Repr
      ensures Valid() && lower == p && upper == old(upper)
      ensures Repr == old(Repr) - PanelRepr(old(lower)) + PanelRepr(p)
    {
      lower := p;
      Repr := {this, writeBuffer} + PanelRepr(upper) + PanelRepr(lower);
    }

    /** Radio::writeToRadio: fills write_buffer with a running position and sends it. */
    method WriteToRadio()
      requires Valid()
      modifies writeBuffer, this`sent
      ensures Valid()
      ensures writeBuffer[..] == Assemble(old(writeBuffer[..]), Shown(upper), Shown(lower))
      ensures sent == old(sent) + [writeBuffer[..]]
    {
      ghost var prev := writeBuffer[..];
      var pos := 0;
      writeBuffer[pos] := 0;
      pos := pos + 1;
      ghost var b0 := writeBuffer[..];
      assert b0 == prev[0 := 0];
      if upper != null {
        CopyDigits(upper.digitsLeft, pos);
        pos := pos + 5;
        CopyDigits(upper.digitsRight, pos);
        pos := pos + 5;
        assert writeBuffer[..] == Place(b0, 1, Shown(upper).value);
      } else {
        Memset();
        pos := pos + 10;
      }
      ghost var b1 := writeBuffer[..];
      if lower != null {
        CopyDigits(lower.digitsLeft, pos);
        pos := pos + 5;
        CopyDigits(lower.digitsRight, pos);
        pos := pos + 5;
        assert writeBuffer[..] == Place(b1, 11, Shown(lower).value);
      } else {
        Memset();
        pos := pos + 10;
      }
      sent := sent + [writeBuffer[..]];
    }

    /** The five-step copy loop of writeToRadio. */
    method CopyDigits(d: array<byte>, pos: nat)
      requires writeBuffer.Length == ReportSize && d.Length == 5 && d != writeBuffer && pos + 5 <= ReportSize
      modifies writeBuffer
      ensures writeBuffer[..] == old(writeBuffer[..pos]) + d[..] + old(writeBuffer[pos + 5..])
    {
      for i := 0 to 5
        invariant writeBuffer[..] == old(writeBuffer[..pos]) + d[..i] + old(writeBuffer[pos + i..])
      {
        writeBuffer[pos + i] := d[i];
        assert d[..i + 1] == d[..i] + [d[i]];
      }
    }

    /** memset(write_buffer, 15, 10). */
    method Memset()
      requires Valid()
      modifies writeBuffer
      ensures writeBuffer[..] == Memset15(old(writeBuffer[..]))
    {
      for i := 0 to 10
        invariant forall k :: 0 <= k < i ==> writeBuffer[k] == Encoder.Blank
        invariant forall k :: i <= k < ReportSize ==> writeBuffer[k] == old(writeBuffer[k])
      {
        writeBuffer[i] := Encoder.Blank;
      }
      assert forall k :: 0 <= k < ReportSize ==> writeBuffer[..][k] == Memset15(old(writeBuffer[..]))[k];
    }

    /** The upper branch of the selection in Radio::update. */
    method ReselectUpper(buf: seq<byte>)
      requires Valid() && |buf| >= 3
      modifies this`upper, this`Repr
      ensures Valid() && fresh(Repr - old(Repr)) && lower == old(lower)
      ensures var su := SelectMode(buf, Upper, ModeOf(old(upper)));
        (su.Some? ==> upper != null && fresh(upper) && upper.kind == su.value && upper.PressesOf() == FreshPresses) &&
        (su.None? ==> upper == old(upper))
    {
      var su := SelectMode(buf, Upper, ModeOf(upper));
      if su.Some? {
        var p := new Panel(su.value);
        SetUpper(p);
      }
    }

    /** The lower branch of the selection in Radio::update. */
    method ReselectLower(buf: seq<byte>)
      requires Valid() && |buf| >= 3
      modifies this`lower, this`Repr
      ensures Valid() && fresh(Repr - old(Repr)) && upper == old(upper)
      ensures var sl := SelectMode(buf, Lower, ModeOf(old(lower)));
        (sl.Some? ==> lower != null && fresh(lower) && lower.kind == sl.value && lower.PressesOf() == FreshPresses) &&
        (sl.None? ==> lower == old(lower))
    {
      var sl := SelectMode(buf, Lower, ModeOf(lower));
      if sl.Some? {
        var p := new Panel(sl.value);
        SetLower(p);
      }
    }

    /** The button and refresh part of Radio::update: upper half first, then lower. */
    method ServeBoth(buf: seq<byte>, rd: Readings, sim: Sim, t: int, usec: int, now: int)
      requires Valid() && |buf| >= 3 && |rd.dmeBlocks| == 6
      modifies PanelRepr(upper), PanelRepr(lower), sim`log, sim`xpdrMode
      ensures Valid() && unchanged(this)
      ensures Served(upper, lower, sim, old(SlotOf(upper)), old(SlotOf(lower)), old(sim.log), old(sim.xpdrMode),
                     buf, rd, t, usec, now)
    {
      if upper != null {
        Serve(upper, buf, Upper, rd, sim, t, usec, now);
      }
      if lower != null {
        Serve(lower, buf, Lower, rd, sim, t, usec, now);
      }
    }

    /** The selection part of Radio::update, upper half first. */
    method Reselect(buf: seq<byte>)
      requires Valid() && |buf| >= 3
      modifies this`upper, this`lower, this`Repr
      ensures Valid() && fresh(Repr - old(Repr))
      ensures var su := SelectMode(buf, Upper, ModeOf(old(upper)));
        (su.Some? ==> upper != null && fresh(upper) && upper.kind == su.value && upper.PressesOf() == FreshPresses) &&
        (su.None? ==> upper == old(upper))
      ensures var sl := SelectMode(buf, Lower, ModeOf(old(lower)));
        (sl.Some? ==> lower != null && fresh(lower) && lower.kind == sl.value && lower.PressesOf() == FreshPresses) &&
        (sl.None? ==> lower == old(lower))
    {
      ReselectUpper(buf);
      ReselectLower(buf);
    }

    /** The rest of Radio::update once the handlers are chosen. */
    method ServeAndWrite(buf: seq<byte>, rd: Readings, sim: Sim, t: int, usec: int, now: int)
      requires Valid() && |buf| >= 3 && |rd.dmeBlocks| == 6
      modifies Repr, sim`log, sim`xpdrMode
      ensures Valid() && upper == old(upper) && lower == old(lower) && Repr == old(Repr)
      ensures Served(upper, lower, sim, old(SlotOf(upper)), old(SlotOf(lower)), old(sim.log), old(sim.xpdrMode),
                     buf, rd, t, usec, now)
      ensures writeBuffer[..] == Assemble(old(writeBuffer[..]), Shown(upper), Shown(lower))
      ensures sent == old(sent) + [writeBuffer[..]]
    {
      ghost var prev := writeBuffer[..];
      ghost var us, ls, log, mode := SlotOf(upper), SlotOf(lower), sim.log, sim.xpdrMode;
      ServeBoth(buf, rd, sim, t, usec, now);
      assert writeBuffer[..] == prev;
      assert Served(upper, lower, sim, us, ls, log, mode, buf, rd, t, usec, now);
      WriteToRadio();
      assert Served(upper, lower, sim, us, ls, log, mode, buf, rd, t, usec, now);
    }

    /** Radio::update for one input report: replace handlers whose select button is pressed,
        feed each present handler its knobs, refresh it, and send the report. */
    method Update(buf: seq<byte>, rd: Readings, sim: Sim, t: int, usec: int, now: int)
      requires Valid() && |buf| >= 3 && |rd.dmeBlocks| == 6
      modifies Repr, sim`log, sim`xpdrMode
      ensures Valid() && fresh(Repr - old(Repr))
      ensures var su := SelectMode(buf, Upper, ModeOf(old(upper)));
        (su.Some? ==> upper != null && fresh(upper) && upper.kind == su.value) &&
        (su.None? ==> upper == old(upper))
      ensures var sl := SelectMode(buf, Lower, ModeOf(old(lower)));
        (sl.Some? ==> lower != null && fresh(lower) && lower.kind == sl.value) &&
        (sl.None? ==> lower == old(lower))
      ensures var su := SelectMode(buf, Upper, ModeOf(old(upper)));
        var sl := SelectMode(buf, Lower, ModeOf(old(lower)));
        Served(upper, lower, sim,
               if su.Some? then Some((su.value, FreshPresses)) else old(SlotOf(upper)),
               if sl.Some? then Some((sl.value, FreshPresses)) else old(SlotOf(lower)),
               old(sim.log), old(sim.xpdrMode), buf, rd, t, usec, now)
      ensures writeBuffer[..] == Assemble(old(writeBuffer[..]), Shown(upper), Shown(lower))
      ensures sent == old(sent) + [writeBuffer[..]]
    {
      Reselect(buf);
      ServeAndWrite(buf, rd, sim, t, usec, now);
    }

    /** Radio::~Radio: both present handlers go blank and one last report is sent. */
    method Close()
      requires Valid()
      modifies Repr
      ensures Valid() && upper == old(upper) && lower == old(lower)
      ensures writeBuffer[..] == Assemble(old(writeBuffer[..]), Blanked(upper), Blanked(lower))
      ensures sent == old(sent) + [writeBuffer[..]]
    {
      if upper != null {
        upper.Blank();
      }
      if lower != null {
        lower.Blank();
      }
      WriteToRadio();
    }
  }
}
