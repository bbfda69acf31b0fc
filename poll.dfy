/** The procedural model's poll cycle for one radio (process_radio_panel1): drain the pending
    input reports, running the fourteen switch handlers after each read and refreshing the display
    after each read that returned data, then refresh once more and write the display when a
    selector changed or 51 cycles passed without a write. */
module Poll {
  import opened Bytes
  import opened Controls
  import opened Simulator
  import opened Composer
  import opened Procedural
  import Debounce

  /** The input report buffer (radiobuf): four bytes. */
  type Report = s: seq<byte> | |s| == 4 witness [0, 0, 0, 0]

  /** One non-blocking hid_read: what it returned, and the report it delivered when that is
      positive. */
  datatype Read = Read(res: int, data: Report)

  /** radio_safety_cntr's start value: the most reads one cycle performs. */
  const SafetyCount := 30

  /** radionowrite above this forces a write. */
  const RefreshAfter := 50

  /** What the i-th read of a cycle returns; past the given reads the device has nothing (0). */
  function ResAt(inputs: seq<Read>, i: nat): int
  {
    if i < |inputs| then inputs[i].res else 0
  }

  /** The number of reads a cycle performs counting from read i: it stops after the first read
      that returns no data, or after the thirtieth read. */
  function Drained(inputs: seq<Read>, i: nat): (n: nat)
    requires i < SafetyCount
    ensures i < n <= SafetyCount
    ensures forall j :: i <= j < n - 1 ==> ResAt(inputs, j) > 0
    ensures n < SafetyCount ==> ResAt(inputs, n - 1) <= 0
    decreases SafetyCount - i
  {
    if i == SafetyCount - 1 || ResAt(inputs, i) <= 0 then i + 1 else Drained(inputs, i + 1)
  }

  /** The number of reads is determined by where the data stops: n reads when the first n - 1
      returned data and the n-th did not or was the thirtieth. */
  lemma {:induction false} DrainedIs(inputs: seq<Read>, i: nat, n: nat)
    requires i < n <= SafetyCount
    requires forall j :: i <= j < n - 1 ==> ResAt(inputs, j) > 0
    requires n == SafetyCount || ResAt(inputs, n - 1) <= 0
    ensures Drained(inputs, i) == n
    decreases n - i
  {
    if i < n - 1 {
      assert ResAt(inputs, i) > 0;
      DrainedIs(inputs, i + 1, n);
    }
  }

  /** The power datarefs of the readings. */
  function PowerOf(rd: Readings): Power
  {
    Power(rd.avPower, rd.batPower, rd.com1Power, rd.com2Power, rd.nav1Power, rd.nav2Power)
  }

  /** The write guard: send when either selector differs from the last one sent or more than 50
      cycles passed without a send. Returns whether to send and the new radionowrite. */
  function Guard(lastUp: int, lastLo: int, up: int, lo: int, nowrite: int): (r: (bool, int))
    ensures r.0 <==> lastUp != up || lastLo != lo || nowrite > RefreshAfter
    ensures r.1 == if r.0 then 1 else nowrite + 1
  {
    if lastUp != up || lastLo != lo || nowrite > RefreshAfter then (true, 1) else (false, nowrite + 1)
  }

  /** The send decisions of n cycles whose selectors equal the last ones sent, starting from
      radionowrite w. */
  function SteadySends(w: int, n: nat): (s: seq<bool>)
    ensures |s| == n
    decreases n
  {
    if n == 0 then []
    else
      var g := Guard(0, 0, 0, 0, w);
      [g.0] + SteadySends(g.1, n - 1)
  }

  /** With the selectors steady, cycle i sends exactly when (w - 1 + i) % 51 == 50: radionowrite
      cycles through 1..51 and a send resets it. */
  lemma {:induction false} SteadySendsAt(w: int, n: nat, i: nat)
    requires 1 <= w <= RefreshAfter + 1 && i < n
    ensures SteadySends(w, n)[i] <==> (w - 1 + i) % (RefreshAfter + 1) == RefreshAfter
    decreases i
  {
    var period := RefreshAfter + 1;
    if i > 0 {
      var w' := if w == period then 1 else w + 1;
      assert Guard(0, 0, 0, 0, w).1 == w';
      assert SteadySends(w, n)[i] == SteadySends(w', n - 1)[i - 1];
      SteadySendsAt(w', n - 1, i - 1);
      if w == period {
        Debounce.AddThresholdDivMod(i - 1, period);
        assert w - 1 + i == (i - 1) + period;
      } else {
        assert w' - 1 + (i - 1) == w - 1 + i;
      }
    } else {
      assert SteadySends(w, n)[0] == (w > RefreshAfter);
      assert (w - 1) % period == w - 1;
    }
  }

  /** Right after a send the display is rewritten every 51st cycle while nothing changes, so
      the radio never goes more than 50 cycles without a write. */
  lemma SteadyRefreshPeriod(n: nat, i: nat)
    requires i < n
    ensures SteadySends(1, n)[i] <==> i % (RefreshAfter + 1) == RefreshAfter
  {
    SteadySendsAt(1, n, i);
  }

  /** Whether the report holds a select button of the half. */
  predicate AnySelector(buf: seq<byte>, half: Half)
    requires |buf| >= 3
  {
    exists m: Mode :: m != Invalid && Selected(buf, half, m)
  }

  /** A report as process_radio_make_message leaves it: 23 bytes, 0 first, and the two trailing
      bytes of the buffer as they were. */
  predicate MessageShape(m: seq<byte>, tail: seq<byte>)
  {
    |m| == 23 && m[0] == 0 && m[21..] == tail
  }

  /** Every report in the list has that shape. */
  predicate Shaped(reports: seq<seq<byte>>, tail: seq<byte>)
  {
    forall k :: 0 <= k < |reports| ==> MessageShape(reports[k], tail)
  }

  lemma ShapedAppend(reports: seq<seq<byte>>, m: seq<byte>, tail: seq<byte>)
    requires Shaped(reports, tail) && MessageShape(m, tail)
    ensures Shaped(reports + [m], tail)
  {
    assert forall k :: 0 <= k < |reports| ==> (reports + [m])[k] == reports[k];
  }

  /** One radio's poll state: both halves, the last read's result and report, the output buffer,
      the write guard's memory, and every report sent to the panel. */
  class RadioPanel {
    const upper: HalfState
    const lower: HalfState
    /** radiores */
    var res: int
    /** radiobuf[radnum] */
    var buf: Report
    /** radiowbuf[radnum]: 23 bytes, the last two never written. */
    var wbuf: seq<byte>
    /** lastupseldis / lastloseldis and radionowrite. */
    var lastUp: int
    var lastLo: int
    var nowrite: int
    /** Every hid_send_feature_report, oldest first. */
    var sent: seq<seq<byte>>

    ghost predicate Valid()
      reads this, upper, lower
    {
      upper != lower && upper.half == Upper && lower.half == Lower &&
      upper.Valid() && lower.Valid() && |wbuf| == 23 && 0 <= nowrite <= RefreshAfter + 1
    }

    /** The globals as the program starts: both halves fresh, the remembered selectors 1, every
        buffer and counter zero. */
    constructor()
      ensures Valid() && fresh(upper) && fresh(lower)
      ensures res == 0 && buf == [0, 0, 0, 0] && wbuf == seq(23, _ => 0)
      ensures lastUp == 1 && lastLo == 1 && nowrite == 0 && sent == []
    {
      upper := new HalfState(Upper);
      lower := new HalfState(Lower);
      res := 0;
      buf := [0, 0, 0, 0];
      wbuf := seq(23, _ => 0);
      lastUp, lastLo, nowrite := 1, 1, 0;
      sent := [];
    }

    /** hid_read: the result, and the report when the read returned data; otherwise the buffer
        keeps the previous report. */
    method ReadOnce(r: Read)
      modifies this`res, this`buf
      ensures res == r.res && buf == (if r.res > 0 then r.data else old(buf))
    {
      res := r.res;
      if r.res > 0 {
        buf := r.data;
      }
    }

    /** The fourteen switch handlers in the order the cycle calls them. A half whose report holds
        no select button keeps its display selector. */
    method Switches(cfg: Config, rd: Readings, sim: Sim)
      requires Valid()
      modifies upper, lower, sim`log, sim`xpdrMode, sim`dmeMode, sim`dmeSlave, sim`dmeFreq, sim`metricPress
      ensures Valid()
      ensures !AnySelector(buf, Upper) ==> upper.seldis == old(upper.seldis)
      ensures !AnySelector(buf, Lower) ==> lower.seldis == old(lower.seldis)
    {
      UpperSwitches(cfg, rd, sim);
      LowerSwitches(cfg, rd, sim);
    }

    method UpperSwitches(cfg: Config, rd: Readings, sim: Sim)
      requires Valid()
      modifies upper, sim`log, sim`xpdrMode, sim`dmeMode, sim`dmeSlave, sim`dmeFreq, sim`metricPress
      ensures Valid()
      ensures !AnySelector(buf, Upper) ==> upper.seldis == old(upper.seldis)
    {
      upper.ComNavSwitch(Com1, buf, res, cfg, rd, sim);
      upper.ComNavSwitch(Com2, buf, res, cfg, rd, sim);
      upper.ComNavSwitch(Nav1, buf, res, cfg, rd, sim);
      upper.ComNavSwitch(Nav2, buf, res, cfg, rd, sim);
      upper.AdfSwitch(buf, res, cfg, rd, sim);
      upper.DmeSwitch(buf, cfg, rd, sim);
      upper.XpdrSwitch(buf, cfg, rd, sim);
    }

    method LowerSwitches(cfg: Config, rd: Readings, sim: Sim)
      requires Valid()
      modifies lower, sim`log, sim`xpdrMode, sim`dmeMode, sim`dmeSlave, sim`dmeFreq, sim`metricPress
      ensures Valid()
      ensures !AnySelector(buf, Lower) ==> lower.seldis == old(lower.seldis)
    {
      lower.ComNavSwitch(Com1, buf, res, cfg, rd, sim);
      lower.ComNavSwitch(Com2, buf, res, cfg, rd, sim);
      lower.ComNavSwitch(Nav1, buf, res, cfg, rd, sim);
      lower.ComNavSwitch(Nav2, buf, res, cfg, rd, sim);
      lower.AdfSwitch(buf, res, cfg, rd, sim);
      lower.DmeSwitch(buf, cfg, rd, sim);
      lower.XpdrSwitch(buf, cfg, rd, sim);
    }

    /** process_radio_blank_display. */
    method BlankDisplay(rd: Readings)
      requires Valid()
      modifies upper`seldis, lower`seldis
      ensures Valid()
      ensures (upper.seldis, lower.seldis) ==
              BlankSelectors(PowerOf(rd), old(upper.seldis), old(lower.seldis), upper.seen, lower.seen)
    {
      var s := BlankSelectors(PowerOf(rd), upper.seldis, lower.seldis, upper.seen, lower.seen);
      upper.seldis := s.0;
      lower.seldis := s.1;
    }

    /** process_radio_upper_display and process_radio_lower_display. The lower half's
        function-button display shows the code the upper half stored. */
    method Displays(cfg: Config, sim: Sim)
      requires Valid()
      modifies upper`windows, upper`modeTurnoff, upper`xpdrSel, lower`windows, lower`modeTurnoff, lower`xpdrSel
      ensures Valid()
      ensures (upper.windows, upper.modeTurnoff, upper.xpdrSel) ==
              old(upper.Shown(upper.seldis, KnobsOf(buf, Upper), cfg, sim.xpdrMode, upper.xpdrCode))
      ensures (lower.windows, lower.modeTurnoff, lower.xpdrSel) ==
              old(lower.Shown(lower.seldis, KnobsOf(buf, Lower), cfg, sim.xpdrMode, upper.xpdrCode))
    {
      upper.Display(KnobsOf(buf, Upper), cfg, sim.xpdrMode, upper.xpdrCode);
      lower.Display(KnobsOf(buf, Lower), cfg, sim.xpdrMode, upper.xpdrCode);
    }

    /** After a refresh: each half's windows, quiet timer and transponder selector are what its
        digit display routine shows, on the state before the refresh, for the selector the
        blanking left. */
    twostate predicate ShowsSelected(cfg: Config, sim: Sim)
      requires old(Valid())
      reads this, upper, lower, sim
    {
      var su, sl := upper.seldis, lower.seldis;
      (upper.windows, upper.modeTurnoff, upper.xpdrSel) ==
        old(upper.Shown(su, KnobsOf(buf, Upper), cfg, sim.xpdrMode, upper.xpdrCode)) &&
      (lower.windows, lower.modeTurnoff, lower.xpdrSel) ==
        old(lower.Shown(sl, KnobsOf(buf, Lower), cfg, sim.xpdrMode, upper.xpdrCode))
    }

    /** process_radio_make_message. */
    method MakeMessage()
      requires Valid()
      modifies this`wbuf
      ensures Valid()
      ensures wbuf == Message(upper.windows, lower.windows, old(wbuf)[21..])
    {
      wbuf := Message(upper.windows, lower.windows, wbuf[21..]);
    }

    /** Blank, compose both halves and build the message. */
    method Refresh(cfg: Config, rd: Readings, sim: Sim)
      requires Valid()
      modifies upper`seldis, lower`seldis, upper`windows, upper`modeTurnoff, upper`xpdrSel,
               lower`windows, lower`modeTurnoff, lower`xpdrSel, this`wbuf
      ensures Valid()
      ensures wbuf == Message(upper.windows, lower.windows, old(wbuf)[21..])
      ensures (upper.seldis, lower.seldis) ==
              BlankSelectors(PowerOf(rd), old(upper.seldis), old(lower.seldis), upper.seen, lower.seen)
      ensures ShowsSelected(cfg, sim)
    {
      BlankDisplay(rd);
      ghost var su, sl, ku, kl := upper.seldis, lower.seldis, KnobsOf(buf, Upper), KnobsOf(buf, Lower);
      assert upper.Shown(su, ku, cfg, sim.xpdrMode, upper.xpdrCode) ==
             old(upper.Shown(su, ku, cfg, sim.xpdrMode, upper.xpdrCode));
      assert lower.Shown(sl, kl, cfg, sim.xpdrMode, upper.xpdrCode) ==
             old(lower.Shown(sl, kl, cfg, sim.xpdrMode, upper.xpdrCode));
      ShowAndMake(cfg, sim);
    }

    /** The digit displays of both halves, then the message built from them. */
    method ShowAndMake(cfg: Config, sim: Sim)
      requires Valid()
      modifies upper`windows, upper`modeTurnoff, upper`xpdrSel,
               lower`windows, lower`modeTurnoff, lower`xpdrSel, this`wbuf
      ensures Valid()
      ensures wbuf == Message(upper.windows, lower.windows, old(wbuf)[21..])
      ensures (upper.windows, upper.modeTurnoff, upper.xpdrSel) ==
              old(upper.Shown(upper.seldis, KnobsOf(buf, Upper), cfg, sim.xpdrMode, upper.xpdrCode))
      ensures (lower.windows, lower.modeTurnoff, lower.xpdrSel) ==
              old(lower.Shown(lower.seldis, KnobsOf(buf, Lower), cfg, sim.xpdrMode, upper.xpdrCode))
    {
      Displays(cfg, sim);
      MakeMessage();
    }

    /** The end of a cycle: write the message when a selector changed or the guard ran out. */
    method WriteGuard()
      requires Valid()
      modifies this`sent, this`nowrite, this`lastUp, this`lastLo
      ensures Valid()
      ensures var g := Guard(old(lastUp), old(lastLo), upper.seldis, lower.seldis, old(nowrite));
              nowrite == g.1 &&
              (g.0 ==> sent == old(sent) + [wbuf] && lastUp == upper.seldis && lastLo == lower.seldis) &&
              (!g.0 ==> sent == old(sent) && lastUp == old(lastUp) && lastLo == old(lastLo))
    {
      var g := Guard(lastUp, lastLo, upper.seldis, lower.seldis, nowrite);
      if g.0 {
        sent := sent + [wbuf];
        lastUp, lastLo := upper.seldis, lower.seldis;
      }
      nowrite := g.1;
    }

    /** One pass of the drain loop: read, run the handlers, and refresh and send when the read
        returned data. */
    method DrainStep(r: Read, cfg: Config, rd: Readings, sim: Sim)
      requires Valid()
      modifies this`res, this`buf, this`wbuf, this`sent, upper, lower,
               sim`log, sim`xpdrMode, sim`dmeMode, sim`dmeSlave, sim`dmeFreq, sim`metricPress
      ensures Valid()
      ensures res == r.res && buf == (if r.res > 0 then r.data else old(buf))
      ensures sent == old(sent) + (if r.res > 0 then [wbuf] else [])
      ensures wbuf == if r.res > 0 then Message(upper.windows, lower.windows, old(wbuf)[21..]) else old(wbuf)
      ensures nowrite == old(nowrite) && lastUp == old(lastUp) && lastLo == old(lastLo)
    {
      ReadOnce(r);
      Switches(cfg, rd, sim);
      ReportIfData(cfg, rd, sim);
    }

    /** A pass of the drain loop as the loop counts it: the report sent when the read returned
        data has the shape of a message and keeps the buffer's two trailing bytes. DrainStep's
        full contract, in which windows each report shows, is more than the loop invariant can
        carry cheaply; this view of it is what Drain's loop needs. */
    method DrainPass(r: Read, cfg: Config, rd: Readings, sim: Sim)
      requires Valid()
      modifies this`res, this`buf, this`wbuf, this`sent, upper, lower,
               sim`log, sim`xpdrMode, sim`dmeMode, sim`dmeSlave, sim`dmeFreq, sim`metricPress
      ensures Valid()
      ensures res == r.res && buf == (if r.res > 0 then r.data else old(buf))
      ensures sent == old(sent) + (if r.res > 0 then [wbuf] else [])
      ensures wbuf[21..] == old(wbuf)[21..] && (r.res > 0 ==> MessageShape(wbuf, old(wbuf)[21..]))
      ensures nowrite == old(nowrite) && lastUp == old(lastUp) && lastLo == old(lastLo)
    {
      DrainStep(r, cfg, rd, sim);
    }

    /** The `if (res > 0)` of the drain loop. */
    method ReportIfData(cfg: Config, rd: Readings, sim: Sim)
      requires Valid()
      modifies upper`seldis, lower`seldis, upper`windows, upper`modeTurnoff, upper`xpdrSel,
               lower`windows, lower`modeTurnoff, lower`xpdrSel, this`wbuf, this`sent
      ensures Valid()
      ensures sent == old(sent) + (if res > 0 then [wbuf] else [])
      ensures wbuf == if res > 0 then Message(upper.windows, lower.windows, old(wbuf)[21..]) else old(wbuf)
    {
      if res > 0 {
        Report(cfg, rd, sim);
      }
    }

    /** The tail of a read that returned data: refresh the display and send the message. */
    method Report(cfg: Config, rd: Readings, sim: Sim)
      requires Valid()
      modifies upper`seldis, lower`seldis, upper`windows, upper`modeTurnoff, upper`xpdrSel,
               lower`windows, lower`modeTurnoff, lower`xpdrSel, this`wbuf, this`sent
      ensures Valid()
      ensures sent == old(sent) + [wbuf]
      ensures wbuf == Message(upper.windows, lower.windows, old(wbuf)[21..])
      ensures (upper.seldis, lower.seldis) ==
              BlankSelectors(PowerOf(rd), old(upper.seldis), old(lower.seldis), upper.seen, lower.seen)
      ensures ShowsSelected(cfg, sim)
    {
      Refresh(cfg, rd, sim);
      sent := sent + [wbuf];
    }

    /** The drain loop of process_radio_panel1: read until a read returns no data or the
        thirtieth read. Returns the number of reads performed; every read that returned data sent
        one report, and the write guard is untouched. */
    method Drain(inputs: seq<Read>, cfg: Config, rd: Readings, sim: Sim) returns (n: nat)
      requires Valid()
      modifies this`res, this`buf, this`wbuf, this`sent,
               upper, lower, sim`log, sim`xpdrMode, sim`dmeMode, sim`dmeSlave, sim`dmeFreq, sim`metricPress
      ensures Valid()
      ensures n == Drained(inputs, 0) && 1 <= n <= SafetyCount
      ensures res == ResAt(inputs, n - 1)
      ensures |sent| == |old(sent)| + (if res > 0 then n else n - 1)
      ensures wbuf[21..] == old(wbuf)[21..]
      ensures |old(sent)| <= |sent| && Shaped(sent[|old(sent)|..], old(wbuf)[21..])
      ensures nowrite == old(nowrite) && lastUp == old(lastUp) && lastLo == old(lastLo)
    {
      ghost var tail, news := wbuf[21..], [];
      var cntr := SafetyCount;
      n := 0;
      var more := true;
      while more
        invariant Valid()
        invariant 0 <= n <= SafetyCount && cntr == SafetyCount - n
        invariant nowrite == old(nowrite) && lastUp == old(lastUp) && lastLo == old(lastLo)
        invariant more ==> n < SafetyCount && (forall j :: 0 <= j < n ==> ResAt(inputs, j) > 0)
        invariant more ==> |sent| == |old(sent)| + n
        invariant !more ==> 1 <= n && (forall j :: 0 <= j < n - 1 ==> ResAt(inputs, j) > 0)
        invariant !more ==> res == ResAt(inputs, n - 1) && (n == SafetyCount || res <= 0)
        invariant !more ==> |sent| == |old(sent)| + (if res > 0 then n else n - 1)
        invariant wbuf[21..] == tail && sent == old(sent) + news && Shaped(news, tail)
        decreases SafetyCount - n
      {
        var r := if n < |inputs| then inputs[n] else Read(0, buf);
        DrainPass(r, cfg, rd, sim);
        if r.res > 0 {
          ShapedAppend(news, wbuf, tail);
          news := news + [wbuf];
        }
        cntr := cntr - 1;
        n := n + 1;
        more := res > 0 && cntr > 0;
      }
      DrainedIs(inputs, 0, n);
      assert sent[|old(sent)|..] == news;
    }

    /** process_radio_panel1 without the menu: drain the pending reads (the i-th read returns
        reads[i]), refresh, and apply the write guard. Returns the number of reads performed:
        every read but the last returned data, and the last returned none or was the thirtieth.
        Every read that returned data sent one report. */
    method Cycle(inputs: seq<Read>, cfg: Config, rd: Readings, sim: Sim) returns (n: nat)
      requires Valid()
      modifies this`res, this`buf, this`wbuf, this`sent, this`nowrite, this`lastUp, this`lastLo,
               upper, lower, sim`log, sim`xpdrMode, sim`dmeMode, sim`dmeSlave, sim`dmeFreq, sim`metricPress
      ensures Valid()
      ensures n == Drained(inputs, 0) && 1 <= n <= SafetyCount
      ensures res == ResAt(inputs, n - 1)
      ensures |sent| == |old(sent)| + (if res > 0 then n else n - 1) +
                        (if Guard(old(lastUp), old(lastLo), upper.seldis, lower.seldis, old(nowrite)).0 then 1 else 0)
      ensures nowrite == Guard(old(lastUp), old(lastLo), upper.seldis, lower.seldis, old(nowrite)).1
    {
      n := Drain(inputs, cfg, rd, sim);
      FinishPass(cfg, rd, sim);
    }

    /** Finish as the cycle counts it: the guard's verdict and the report it adds. Cycle calls this
        view of Finish, so that Finish's statement about the windows does not weigh on it. */
    method FinishPass(cfg: Config, rd: Readings, sim: Sim)
      requires Valid()
      modifies upper`seldis, lower`seldis, upper`windows, upper`modeTurnoff, upper`xpdrSel,
               lower`windows, lower`modeTurnoff, lower`xpdrSel,
               this`wbuf, this`sent, this`nowrite, this`lastUp, this`lastLo
      ensures Valid()
      ensures var g := Guard(old(lastUp), old(lastLo), upper.seldis, lower.seldis, old(nowrite));
              nowrite == g.1 && |sent| == |old(sent)| + (if g.0 then 1 else 0)
    {
      Finish(cfg, rd, sim);
    }

    /** The end of process_radio_panel1: refresh the display, then apply the write guard to the
        selectors the refresh left. */
    method Finish(cfg: Config, rd: Readings, sim: Sim)
      requires Valid()
      modifies upper`seldis, lower`seldis, upper`windows, upper`modeTurnoff, upper`xpdrSel,
               lower`windows, lower`modeTurnoff, lower`xpdrSel,
               this`wbuf, this`sent, this`nowrite, this`lastUp, this`lastLo
      ensures Valid()
      ensures var g := Guard(old(lastUp), old(lastLo), upper.seldis, lower.seldis, old(nowrite));
              nowrite == g.1 && sent == old(sent) + (if g.0 then [wbuf] else []) &&
              (g.0 ==> lastUp == upper.seldis && lastLo == lower.seldis) &&
              (!g.0 ==> lastUp == old(lastUp) && lastLo == old(lastLo))
      ensures wbuf == Message(upper.windows, lower.windows, old(wbuf)[21..])
      ensures (upper.seldis, lower.seldis) ==
              BlankSelectors(PowerOf(rd), old(upper.seldis), old(lower.seldis), upper.seen, lower.seen)
      ensures ShowsSelected(cfg, sim)
    {
      Refresh(cfg, rd, sim);
      WriteGuard();
    }
  }
}
