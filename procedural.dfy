/** The procedural model of one radio: the global variables one half-panel keeps (its display
    selector, knob counters, digit selectors, press latches, DME tuner, quiet timer and display
    digits) as a class, and one method per process_<half>_<mode>_switch handler and per digit
    display routine. Each handler is proved against the pure step functions of Toggles and
    Composer, and against the knob functions below. */
module Procedural {
  import opened Bytes
  import opened Controls
  import opened Debounce
  import opened Simulator
  import opened Composer
  import Toggles

  /** The configuration globals: radspeed, numadf, metricpressenable and xpanelsfnbutton. */
  datatype Config = Config(radspeed: int, numadf: int, metric: int, fn: int)

  // ---------------------------------------------------------------- knob counters

  /** The handler a knob counter belongs to: a COM/NAV radio, the ADF, the transponder digits,
      or the barometer (the transponder handler with the function button held). */
  datatype Owner = RadioKnob(m: Mode) | AdfKnob | XpdrKnob | QnhKnob

  /** One of the *dbncfninc / *dbncfndec / *dbnccorinc / *dbnccordec counters. */
  datatype Counter = Counter(owner: Owner, knob: Button)

  /** All the counters of one half; a counter never touched reads 0, as a zeroed global does. */
  type Counters = map<Counter, int>

  function Get(c: Counters, k: Counter): int
  {
    if k in c then c[k] else 0
  }

  /** Counters that stay within 0..radspeed. */
  predicate CountersIn(c: Counters, o: Owner, radspeed: int)
  {
    forall b: Button :: 0 <= Get(c, Counter(o, b)) <= radspeed
  }

  /** A rate-debounced control: its counter, the commands it fires, and whether it is held. */
  datatype Turn = Turn(key: Counter, cmds: seq<Command>, held: bool)

  /** One rate-debounced control on one call: a held control counts, and once its counter exceeds
      radspeed it fires its commands and restarts from 0. A control that is not held does
      nothing. */
  function OneTurn(c: Counters, t: Turn, radspeed: int): (r: (Counters, seq<Command>))
    ensures !t.held ==> r == (c, [])
    ensures forall k: Counter :: k != t.key ==> Get(r.0, k) == Get(c, k)
    ensures r.1 == [] || r.1 == t.cmds
    ensures r.1 != [] ==> t.held && Get(r.0, t.key) == 0
    ensures t.held && 0 <= Get(c, t.key) <= radspeed ==>
              0 <= Get(r.0, t.key) <= radspeed &&
              (Get(r.0, t.key) == 0 <==> Get(c, t.key) == radspeed)
  {
    if t.held then
      var s := RateStep(Get(c, t.key), radspeed);
      (c[t.key := s.count], if s.fired then t.cmds else [])
    else (c, [])
  }

  /** The four rate-debounced knob directions of a handler, in the order the handlers test them
      (FINE_UP, FINE_DN, COARSE_UP, COARSE_DN), each on its own counter of owner o and each firing
      its own commands. */
  function FourTurns(c: Counters, o: Owner, k: Knobs, fu: seq<Command>, fd: seq<Command>,
                     cu: seq<Command>, cd: seq<Command>, radspeed: int): (r: (Counters, seq<Command>))
    ensures !k.AnyKnob() ==> r == (c, [])
    ensures forall key: Counter :: key.owner != o ==> Get(r.0, key) == Get(c, key)
    ensures CountersIn(c, o, radspeed) ==> CountersIn(r.0, o, radspeed)
    ensures |r.1| <= |fu| + |fd| + |cu| + |cd|
    ensures forall x :: x in r.1 ==> x in fu || x in fd || x in cu || x in cd
  {
    var f := FinePair(c, o, k, fu, fd, radspeed);
    var g := CoarsePair(f.0, o, k, cu, cd, radspeed);
    (g.0, f.1 + g.1)
  }

  /** The fine knob of a handler: FINE_UP and FINE_DN on their own counters of owner o, firing
      the given commands (for ADF and transponder, the step of the selected digit). */
  function FinePair(c: Counters, o: Owner, k: Knobs, up: seq<Command>, dn: seq<Command>, radspeed: int): (r: (Counters, seq<Command>))
    ensures !k.fineUp && !k.fineDn ==> r == (c, [])
    ensures forall key: Counter :: key.owner != o || key.knob in {CoarseUp, CoarseDown, ActiveStandby} ==>
              Get(r.0, key) == Get(c, key)
    ensures CountersIn(c, o, radspeed) ==> CountersIn(r.0, o, radspeed)
    ensures |r.1| <= |up| + |dn|
    ensures forall x :: x in r.1 ==> x in up || x in dn
  {
    var r1 := OneTurn(c, Turn(Counter(o, FineUp), up, k.fineUp), radspeed);
    var r2 := OneTurn(r1.0, Turn(Counter(o, FineDown), dn, k.fineDn), radspeed);
    (r2.0, r1.1 + r2.1)
  }

  /** The coarse knob of a COM/NAV or barometer handler: COARSE_UP and COARSE_DN on their own
      counters of owner o, firing the given commands. */
  function CoarsePair(c: Counters, o: Owner, k: Knobs, up: seq<Command>, dn: seq<Command>, radspeed: int): (r: (Counters, seq<Command>))
    ensures !k.coarseUp && !k.coarseDn ==> r == (c, [])
    ensures forall key: Counter :: key.owner != o || key.knob in {FineUp, FineDown, ActiveStandby} ==>
              Get(r.0, key) == Get(c, key)
    ensures CountersIn(c, o, radspeed) ==> CountersIn(r.0, o, radspeed)
    ensures |r.1| <= |up| + |dn|
    ensures forall x :: x in r.1 ==> x in up || x in dn
  {
    var r1 := OneTurn(c, Turn(Counter(o, CoarseUp), up, k.coarseUp), radspeed);
    var r2 := OneTurn(r1.0, Turn(Counter(o, CoarseDown), dn, k.coarseDn), radspeed);
    (r2.0, r1.1 + r2.1)
  }

  /** The COM/NAV handler's knobs with res > 0: each direction steps the standby frequency of
      radio m, and ACT/STBY, which is not debounced, flips it. */
  function ComNavKnobs(c: Counters, m: Mode, k: Knobs, radspeed: int): (r: (Counters, seq<Command>))
    requires m in {Com1, Com2, Nav1, Nav2}
    ensures !k.AnyKnob() && !k.actStby ==> r == (c, [])
    ensures forall key: Counter :: key.owner != RadioKnob(m) ==> Get(r.0, key) == Get(c, key)
    ensures CountersIn(c, RadioKnob(m), radspeed) ==> CountersIn(r.0, RadioKnob(m), radspeed)
    ensures |r.1| <= 5
    ensures forall x :: x in r.1 ==> (x.StbyStep? || x.StandbyFlip?) && x.radio == m
    ensures StandbyFlip(m) in r.1 <==> k.actStby
  {
    var f := FourTurns(c, RadioKnob(m), k, [StbyStep(m, FineUp)], [StbyStep(m, FineDown)],
                       [StbyStep(m, CoarseUp)], [StbyStep(m, CoarseDown)], radspeed);
    var flip := if k.actStby then [StandbyFlip(m)] else [];
    assert forall x :: x in f.1 ==> x.StbyStep? && x.radio == m;
    assert forall x :: x in f.1 + flip <==> x in f.1 || x in flip;
    (f.0, f.1 + flip)
  }

  /** The debounce a coarse selector counter uses: radspeed, or the fixed "== 3" of the lower
      first ADF. */
  function Debounced(count: int, fixed: bool, radspeed: int): Tick
  {
    if fixed then FixedStep(count, 3) else RateStep(count, radspeed)
  }

  /** The coarse knob on a digit-selector ring 1..top: COARSE_DN steps the selector up and
      COARSE_UP steps it down, each on its own counter. */
  function Coarse(c: Counters, o: Owner, sel: int, k: Knobs, top: int, fixed: bool, radspeed: int): (r: (Counters, int))
    ensures 1 <= sel <= top ==> 1 <= r.1 <= top
    ensures forall key: Counter :: key.owner != o ==> Get(r.0, key) == Get(c, key)
    ensures !k.coarseDn && !k.coarseUp ==> r == (c, sel)
    ensures forall b: Button :: b != CoarseUp && b != CoarseDown ==> Get(r.0, Counter(o, b)) == Get(c, Counter(o, b))
  {
    var dn := Counter(o, CoarseDown);
    var up := Counter(o, CoarseUp);
    var (c1, s1) :=
      if k.coarseDn then
        var t := Debounced(Get(c, dn), fixed, radspeed);
        (c[dn := t.count], Toggles.RingDown(sel, t.fired, top))
      else (c, sel);
    if k.coarseUp then
      var t := Debounced(Get(c1, up), fixed, radspeed);
      (c1[up := t.count], Toggles.RingUp(s1, t.fired, top))
    else (c1, s1)
  }

  /** The ADF handler's knobs with res > 0: the fine knob steps the selected standby digit of
      ADF n (selector 1 ones, 2 tens, 3 hundreds), the coarse knob moves the selector, ACT/STBY
      flips ADF n. */
  function AdfKnobs(c: Counters, sel: int, n: nat, k: Knobs, fixed: bool, radspeed: int): (r: (Counters, int, seq<Command>))
    ensures 1 <= sel <= 3 ==> 1 <= r.1 <= 3
    ensures !k.coarseDn && !k.coarseUp ==> r.1 == sel
    ensures !k.AnyKnob() && !k.actStby ==> r == (c, sel, [])
    ensures forall key: Counter :: key.owner != AdfKnob ==> Get(r.0, key) == Get(c, key)
    ensures AdfFlip(n) in r.2 <==> k.actStby
    ensures forall x :: x in r.2 ==>
              x == AdfFlip(n) || (1 <= sel <= 3 && x.AdfStbyStep? && x.adf == n && x.place == sel - 1)
  {
    var f :=
      if 1 <= sel <= 3 then FinePair(c, AdfKnob, k, [AdfStbyStep(n, sel - 1, true)], [AdfStbyStep(n, sel - 1, false)], radspeed)
      else (c, []);
    var g := Coarse(f.0, AdfKnob, sel, k, 3, fixed, radspeed);
    var flip := if k.actStby then [AdfFlip(n)] else [];
    assert forall x :: x in f.1 ==> 1 <= sel <= 3 && x.AdfStbyStep? && x.adf == n && x.place == sel - 1;
    assert forall x :: x in f.1 + flip <==> x in f.1 || x in flip;
    (g.0, g.1, f.1 + flip)
  }

  /** The transponder handler's knobs with the function button released: the fine knob steps the
      selected code digit (1 ones … 4 thousands), the coarse knob moves the selector. */
  function XpdrKnobs(c: Counters, sel: int, k: Knobs, radspeed: int): (r: (Counters, int, seq<Command>))
    ensures 1 <= sel <= 4 ==> 1 <= r.1 <= 4
    ensures !k.coarseDn && !k.coarseUp ==> r.1 == sel
    ensures !k.AnyKnob() ==> r == (c, sel, [])
    ensures forall key: Counter :: key.owner != XpdrKnob ==> Get(r.0, key) == Get(c, key)
    ensures |r.2| <= 2
    ensures forall i :: 0 <= i < |r.2| ==> 1 <= sel <= 4 && r.2[i].XpdrDigit? && r.2[i].place == sel - 1
  {
    var f :=
      if 1 <= sel <= 4 then FinePair(c, XpdrKnob, k, [XpdrDigit(sel - 1, true)], [XpdrDigit(sel - 1, false)], radspeed)
      else (c, []);
    forall i | 0 <= i < |f.1|
      ensures 1 <= sel <= 4 && f.1[i].XpdrDigit? && f.1[i].place == sel - 1
    {
      assert f.1[i] in f.1;
    }
    var g := Coarse(f.0, XpdrKnob, sel, k, 4, false, radspeed);
    (g.0, g.1, f.1)
  }

  /** The barometer step fired ten times by a coarse turn (the radn loop). */
  function Ten(up: bool): (s: seq<Command>)
    ensures |s| == 10 && forall i :: 0 <= i < 10 ==> s[i] == BaroStep(up)
  {
    seq(10, _ => BaroStep(up))
  }

  /** The transponder handler's knobs with the function button held: the fine knob steps the
      barometer once, the coarse knob ten times, ACT/STBY selects standard pressure. */
  function QnhKnobs(c: Counters, k: Knobs, radspeed: int): (r: (Counters, seq<Command>))
    ensures !k.AnyKnob() && !k.actStby ==> r == (c, [])
    ensures forall key: Counter :: key.owner != QnhKnob ==> Get(r.0, key) == Get(c, key)
    ensures CountersIn(c, QnhKnob, radspeed) ==> CountersIn(r.0, QnhKnob, radspeed)
    ensures |r.1| <= 23
    ensures forall x :: x in r.1 ==> x.BaroStep? || x == BaroStd
    ensures BaroStd in r.1 <==> k.actStby
  {
    var f := FourTurns(c, QnhKnob, k, [BaroStep(true)], [BaroStep(false)], Ten(true), Ten(false), radspeed);
    var std := if k.actStby then [BaroStd] else [];
    assert forall x :: x in f.1 ==> x.BaroStep?;
    assert forall x :: x in f.1 + std <==> x in f.1 || x in std;
    (f.0, f.1 + std)
  }

  /** What the transponder handler's controls change: the knob counters, the digit selector, the
      mode toggle with its latch, and the command log. */
  datatype XpdrControlState = XpdrControlState(counters: Counters, sel: int, mode: Toggles.Machine, log: seq<Command>)

  /** The transponder handler's controls on one call: with the function button released the code
      knobs and the mode toggle, held the barometer knobs, any other value nothing. */
  function XpdrStep(s: XpdrControlState, k: Knobs, cfg: Config): (r: XpdrControlState)
    ensures 1 <= s.sel <= 4 ==> 1 <= r.sel <= 4
    ensures Toggles.LatchOk(s.mode.latch, Toggles.XpdrLockout) ==> Toggles.LatchOk(r.mode.latch, Toggles.XpdrLockout)
    ensures cfg.fn != 0 ==> r.sel == s.sel && r.mode == s.mode
    ensures cfg.fn != 0 && cfg.fn != 1 ==> r == s
    ensures r.mode.t != s.mode.t ==> k.actStby && cfg.fn == 0
    ensures |s.log| <= |r.log| && r.log[..|s.log|] == s.log
    ensures forall i :: |s.log| <= i < |r.log| ==>
              (cfg.fn == 0 && r.log[i].XpdrDigit?) || (cfg.fn == 1 && (r.log[i].BaroStep? || r.log[i] == BaroStd))
  {
    if cfg.fn == 0 then
      var x := XpdrKnobs(s.counters, s.sel, k, cfg.radspeed);
      XpdrControlState(x.0, x.1, Toggles.Step(Toggles.XpdrMode, s.mode, k.actStby, Toggles.XpdrLockout), s.log + x.2)
    else if cfg.fn == 1 then
      var q := QnhKnobs(s.counters, k, cfg.radspeed);
      s.(counters := q.0, log := s.log + q.1)
    else s
  }

  // ---------------------------------------------------------------- selectors and flags

  /** The display selector of a COM/NAV handler. */
  function ComNavSeldis(m: Mode): (s: int)
    requires m in {Com1, Com2, Nav1, Nav2}
    ensures 1 <= s <= 4
  {
    match m
    case Com1 => 1
    case Com2 => 2
    case Nav1 => 3
    case Nav2 => 4
  }

  /** The seen flag of radio m. */
  function SeenOf(s: Seen, m: Mode): int
    requires m in {Com1, Com2, Nav1, Nav2}
  {
    match m
    case Com1 => s.com1
    case Com2 => s.com2
    case Nav1 => s.nav1
    case Nav2 => s.nav2
  }

  /** A COM/NAV handler's flag write: the upper handlers and the lower COM handlers store 1, the
      lower NAV handlers store 0. */
  function Mark(s: Seen, half: Half, m: Mode): (r: Seen)
    requires m in {Com1, Com2, Nav1, Nav2}
    ensures Flags01(s) ==> Flags01(r)
    ensures SeenOf(r, m) == (if half == Lower && m in {Nav1, Nav2} then 0 else 1)
    ensures forall m' :: m' in {Com1, Com2, Nav1, Nav2} && m' != m ==> SeenOf(r, m') == SeenOf(s, m')
  {
    var v := if half == Lower && m in {Nav1, Nav2} then 0 else 1;
    match m
    case Com1 => s.(com1 := v)
    case Com2 => s.(com2 := v)
    case Nav1 => s.(nav1 := v)
    case Nav2 => s.(nav2 := v)
  }

  /** Which ADF a half drives: the upper half always ADF 1, the lower ADF 1 or 2 as numadf says,
      and none for any other numadf. */
  function AdfNumber(half: Half, numadf: int): (n: Option<nat>)
    ensures n.Some? ==> n.value == 1 || n.value == 2
    ensures n.None? <==> half == Lower && numadf != 1 && numadf != 2
  {
    if half.Upper? || numadf == 1 then Some(1)
    else if numadf == 2 then Some(2)
    else None
  }

  /** Fire a sequence of commands in order (the radn loop of the coarse barometer knob). */
  method FireAll(cmds: seq<Command>, sim: Sim)
    modifies sim`log
    ensures sim.log == old(sim.log) + cmds
  {
    var radn := |cmds|;
    while radn > 0
      invariant 0 <= radn <= |cmds|
      invariant sim.log == old(sim.log) + cmds[..|cmds| - radn]
    {
      assert cmds[..|cmds| - radn + 1] == cmds[..|cmds| - radn] + [cmds[|cmds| - radn]];
      sim.Fire(cmds[|cmds| - radn]);
      radn := radn - 1;
    }
    assert cmds[..|cmds|] == cmds;
  }

  // ---------------------------------------------------------------- one half's globals

  class HalfState {
    const half: Half
    /** upseldis / loseldis: what the digit display shows (1..9, 10 dark). */
    var seldis: int
    /** upcom1, upcom2, upnav1, upnav2 (locom1 …): which radios this half has served. */
    var seen: Seen
    var counters: Counters
    /** *actcomnavfreq / *stbycomnavfreq */
    var actFreq: int
    var stbyFreq: int
    /** *actadffreq / *stbyadffreq and the ADF digit selector *adfsel. */
    var adfAct: int
    var adfStby: int
    var adfSel: int
    /** The DME press latch and last position (*dmepushed, *dmeloop, *lastdmepos). */
    var dmeLatch: Toggles.Latch
    var lastDmePos: int
    /** *dmemode, *dmesource, *dmefreq and the tuner (*dmefreqhnd, *dmefreqfrc, *dmedbncfninc,
        *dmedbncfndec). */
    var dmeMode: int
    var dmeSource: int
    var dmeFreq: int
    var tuning: Toggles.Tuning
    /** *dmedist (tenths), *dmenavspeed, *dmespeed, *dmetime. */
    var dmeDist: int
    var dmeNavSpeed: int
    var dmeSpeed: int
    var dmeTime: int
    /** The transponder press latch and last position, digit selector, code, mode and the
        barometer value (*xpdrpushed, *xpdrloop, *lastxpdrpos, *xpdrsel, *xpdrcode, *xpdrmode,
        *baroset). */
    var xpdrLatch: Toggles.Latch
    var lastXpdrPos: int
    var xpdrSel: int
    var xpdrCode: int
    var xpdrMode: int
    var baroSet: int
    /** *modeturnoff: calls since a knob last turned in transponder mode. */
    var modeTurnoff: int
    /** The ten digits of the half (radioadig1..5 and radiobdig1..5 for the upper half,
        radiocdig/radioddig for the lower). */
    var windows: Windows

    /** What the handlers keep true: seen flags 0 or 1, the selectors on their rings, latches in
        shape, tuner counters below 3, and the quiet timer at most 200. */
    ghost predicate Valid()
      reads this
    {
      Flags01(seen) && ShowOk() &&
      Toggles.LatchOk(dmeLatch, Toggles.DmeLockout) &&
      Toggles.LatchOk(xpdrLatch, Toggles.XpdrLockout) &&
      0 <= tuning.inc < 3 && 0 <= tuning.dec < 3
    }

    /** The part of Valid() the display routine needs: the digit selectors on their rings and the
        quiet timer at most 200. */
    ghost predicate ShowOk()
      reads this`adfSel, this`xpdrSel, this`modeTurnoff
    {
      1 <= adfSel <= 3 && 1 <= xpdrSel <= 4 && 0 <= modeTurnoff <= Toggles.QuietLimit
    }

    /** The globals as the program starts: zero, except the selectors, which start at 1. */
    constructor(half: Half)
      ensures Valid() && this.half == half
      ensures seldis == 1 && adfSel == 1 && xpdrSel == 1 && counters == map[]
      ensures seen == Seen(0, 0, 0, 0) && modeTurnoff == 0
      ensures dmeLatch == Toggles.Released && xpdrLatch == Toggles.Released
      ensures lastDmePos == 0 && lastXpdrPos == 0 && tuning == Toggles.Tuning(0, 0, 0, 0)
      ensures actFreq == 0 && stbyFreq == 0 && adfAct == 0 && adfStby == 0
      ensures dmeMode == 0 && dmeSource == 0 && dmeFreq == 0
      ensures dmeDist == 0 && dmeNavSpeed == 0 && dmeSpeed == 0 && dmeTime == 0
      ensures xpdrCode == 0 && xpdrMode == 0 && baroSet == 0
      ensures windows == Windows([0, 0, 0, 0, 0], [0, 0, 0, 0, 0])
    {
      this.half := half;
      seldis := 1;
      seen := Seen(0, 0, 0, 0);
      counters := map[];
      actFreq, stbyFreq := 0, 0;
      adfAct, adfStby, adfSel := 0, 0, 1;
      dmeLatch, lastDmePos := Toggles.Released, 0;
      dmeMode, dmeSource, dmeFreq := 0, 0, 0;
      tuning := Toggles.Tuning(0, 0, 0, 0);
      dmeDist, dmeNavSpeed, dmeSpeed, dmeTime := 0, 0, 0, 0;
      xpdrLatch, lastXpdrPos := Toggles.Released, 0;
      xpdrSel, xpdrCode, xpdrMode, baroSet := 1, 0, 0, 0;
      modeTurnoff := 0;
      windows := Windows([0, 0, 0, 0, 0], [0, 0, 0, 0, 0]);
    }

    /** One rate-debounced control. */
    method Knob(t: Turn, radspeed: int, sim: Sim)
      modifies this`counters, sim`log
      ensures counters == OneTurn(old(counters), t, radspeed).0
      ensures sim.log == old(sim.log) + OneTurn(old(counters), t, radspeed).1
    {
      if t.held {
        var s := RateStep(Get(counters, t.key), radspeed);
        counters := counters[t.key := s.count];
        if s.fired {
          FireAll(t.cmds, sim);
        }
      }
    }

    /** The four knob directions of one handler. */
    method FourKnobs(o: Owner, k: Knobs, fu: seq<Command>, fd: seq<Command>,
                     cu: seq<Command>, cd: seq<Command>, radspeed: int, sim: Sim)
      modifies this`counters, sim`log
      ensures counters == FourTurns(old(counters), o, k, fu, fd, cu, cd, radspeed).0
      ensures sim.log == old(sim.log) + FourTurns(old(counters), o, k, fu, fd, cu, cd, radspeed).1
    {
      ghost var l0 := sim.log;
      ghost var f := FinePair(counters, o, k, fu, fd, radspeed);
      FineKnobs(o, k, fu, fd, radspeed, sim);
      ghost var g := CoarsePair(counters, o, k, cu, cd, radspeed);
      CoarseKnobs(o, k, cu, cd, radspeed, sim);
      assert sim.log == l0 + (f.1 + g.1);
    }

    /** The fine knob of a handler. */
    method FineKnobs(o: Owner, k: Knobs, up: seq<Command>, dn: seq<Command>, radspeed: int, sim: Sim)
      modifies this`counters, sim`log
      ensures counters == FinePair(old(counters), o, k, up, dn, radspeed).0
      ensures sim.log == old(sim.log) + FinePair(old(counters), o, k, up, dn, radspeed).1
    {
      ghost var l0 := sim.log;
      ghost var r1 := OneTurn(counters, Turn(Counter(o, FineUp), up, k.fineUp), radspeed);
      Knob(Turn(Counter(o, FineUp), up, k.fineUp), radspeed, sim);
      ghost var r2 := OneTurn(counters, Turn(Counter(o, FineDown), dn, k.fineDn), radspeed);
      Knob(Turn(Counter(o, FineDown), dn, k.fineDn), radspeed, sim);
      assert sim.log == l0 + (r1.1 + r2.1);
    }

    /** The coarse knob of a COM/NAV or barometer handler. */
    method CoarseKnobs(o: Owner, k: Knobs, up: seq<Command>, dn: seq<Command>, radspeed: int, sim: Sim)
      modifies this`counters, sim`log
      ensures counters == CoarsePair(old(counters), o, k, up, dn, radspeed).0
      ensures sim.log == old(sim.log) + CoarsePair(old(counters), o, k, up, dn, radspeed).1
    {
      ghost var l0 := sim.log;
      ghost var r1 := OneTurn(counters, Turn(Counter(o, CoarseUp), up, k.coarseUp), radspeed);
      Knob(Turn(Counter(o, CoarseUp), up, k.coarseUp), radspeed, sim);
      ghost var r2 := OneTurn(counters, Turn(Counter(o, CoarseDown), dn, k.coarseDn), radspeed);
      Knob(Turn(Counter(o, CoarseDown), dn, k.coarseDn), radspeed, sim);
      assert sim.log == l0 + (r1.1 + r2.1);
    }

    /** The coarse knob on a selector ring; returns the new selector. */
    method CoarseRing(o: Owner, sel: int, k: Knobs, top: int, fixed: bool, radspeed: int) returns (s: int)
      modifies this`counters
      ensures (counters, s) == Coarse(old(counters), o, sel, k, top, fixed, radspeed)
    {
      s := sel;
      if k.coarseDn {
        var dn := Counter(o, CoarseDown);
        var t := Debounced(Get(counters, dn), fixed, radspeed);
        counters := counters[dn := t.count];
        if t.fired {
          s := s + 1;
        }
        if s == top + 1 {
          s := 1;
        }
        assert s == Toggles.RingDown(sel, t.fired, top);
      }
      ghost var s1 := s;
      if k.coarseUp {
        var up := Counter(o, CoarseUp);
        var t := Debounced(Get(counters, up), fixed, radspeed);
        counters := counters[up := t.count];
        if t.fired {
          s := s - 1;
        }
        if s == 0 {
          s := top;
        }
        assert s == Toggles.RingUp(s1, t.fired, top);
      }
    }

    /** The COM/NAV knobs and ACT/STBY of radio m. */
    method ComNavControls(m: Mode, k: Knobs, radspeed: int, sim: Sim)
      requires Valid() && m in {Com1, Com2, Nav1, Nav2}
      modifies this`counters, sim`log
      ensures Valid()
      ensures counters == ComNavKnobs(old(counters), m, k, radspeed).0
      ensures sim.log == old(sim.log) + ComNavKnobs(old(counters), m, k, radspeed).1
    {
      ghost var l0 := sim.log;
      ghost var f := FourTurns(counters, RadioKnob(m), k, [StbyStep(m, FineUp)], [StbyStep(m, FineDown)],
                               [StbyStep(m, CoarseUp)], [StbyStep(m, CoarseDown)], radspeed);
      FourKnobs(RadioKnob(m), k, [StbyStep(m, FineUp)], [StbyStep(m, FineDown)],
                [StbyStep(m, CoarseUp)], [StbyStep(m, CoarseDown)], radspeed, sim);
      if k.actStby {
        sim.Fire(StandbyFlip(m));
      }
      assert sim.log == l0 + (f.1 + (if k.actStby then [StandbyFlip(m)] else []));
    }

    /** process_<half>_com1_switch … process_<half>_nav2_switch: with the radio's select button
        held, show it, run the knobs when the read returned data, copy both frequencies and mark
        the radio seen. Without the button nothing changes. */
    method ComNavSwitch(m: Mode, buf: seq<byte>, res: int, cfg: Config, rd: Readings, sim: Sim)
      requires Valid() && m in {Com1, Com2, Nav1, Nav2} && |buf| >= 3
      modifies this`seldis, this`counters, this`actFreq, this`stbyFreq, this`seen, sim`log
      ensures Valid()
      ensures !Selected(buf, half, m) ==>
                seldis == old(seldis) && counters == old(counters) && seen == old(seen) &&
                actFreq == old(actFreq) && stbyFreq == old(stbyFreq) && sim.log == old(sim.log)
      ensures Selected(buf, half, m) ==>
                var r := if res > 0 then ComNavKnobs(old(counters), m, KnobsOf(buf, half), cfg.radspeed)
                         else (old(counters), []);
                seldis == ComNavSeldis(m) && counters == r.0 && sim.log == old(sim.log) + r.1 &&
                actFreq == rd.RadioFreq(m).active && stbyFreq == rd.RadioFreq(m).standby &&
                seen == Mark(old(seen), half, m)
    {
      if Selected(buf, half, m) {
        ComNavShow(m, KnobsOf(buf, half), res, cfg, rd, sim);
      }
    }

    /** The body of process_<half>_<radio>_switch once the radio is selected. */
    method ComNavShow(m: Mode, k: Knobs, res: int, cfg: Config, rd: Readings, sim: Sim)
      requires Valid() && m in {Com1, Com2, Nav1, Nav2}
      modifies this`seldis, this`counters, this`actFreq, this`stbyFreq, this`seen, sim`log
      ensures Valid()
      ensures var r := if res > 0 then ComNavKnobs(old(counters), m, k, cfg.radspeed)
                       else (old(counters), []);
              seldis == ComNavSeldis(m) && counters == r.0 && sim.log == old(sim.log) + r.1 &&
              actFreq == rd.RadioFreq(m).active && stbyFreq == rd.RadioFreq(m).standby &&
              seen == Mark(old(seen), half, m)
    {
      seldis := ComNavSeldis(m);
      if res > 0 {
        ComNavControls(m, k, cfg.radspeed, sim);
      }
      actFreq := rd.RadioFreq(m).active;
      stbyFreq := rd.RadioFreq(m).standby;
      seen := Mark(seen, half, m);
    }

    /** The ADF knobs and ACT/STBY for ADF n. */
    method AdfControls(n: nat, k: Knobs, fixed: bool, radspeed: int, sim: Sim)
      requires 1 <= adfSel <= 3
      modifies this`counters, this`adfSel, sim`log
      ensures 1 <= adfSel <= 3
      ensures counters == AdfKnobs(old(counters), old(adfSel), n, k, fixed, radspeed).0
      ensures adfSel == AdfKnobs(old(counters), old(adfSel), n, k, fixed, radspeed).1
      ensures sim.log == old(sim.log) + AdfKnobs(old(counters), old(adfSel), n, k, fixed, radspeed).2
    {
      ghost var c0, s0, l0 := counters, adfSel, sim.log;
      var up, dn := [AdfStbyStep(n, adfSel - 1, true)], [AdfStbyStep(n, adfSel - 1, false)];
      ghost var f := FinePair(counters, AdfKnob, k, up, dn, radspeed);
      FineKnobs(AdfKnob, k, up, dn, radspeed, sim);
      ghost var g := Coarse(f.0, AdfKnob, s0, k, 3, fixed, radspeed);
      adfSel := CoarseRing(AdfKnob, adfSel, k, 3, fixed, radspeed);
      ghost var flip := if k.actStby then [AdfFlip(n)] else [];
      if k.actStby {
        sim.Fire(AdfFlip(n));
      }
      assert sim.log == l0 + (f.1 + flip);
      assert AdfKnobs(c0, s0, n, k, fixed, radspeed) == (g.0, g.1, f.1 + flip);
    }

    /** process_<half>_adf_switch: show the ADF; for the ADF this half drives, run the knobs when
        the read returned data and copy both frequencies. */
    method AdfSwitch(buf: seq<byte>, res: int, cfg: Config, rd: Readings, sim: Sim)
      requires Valid() && |buf| >= 3
      modifies this`seldis, this`counters, this`adfSel, this`adfAct, this`adfStby, sim`log
      ensures Valid()
      ensures !Selected(buf, half, Adf) ==>
                seldis == old(seldis) && counters == old(counters) && adfSel == old(adfSel) &&
                adfAct == old(adfAct) && adfStby == old(adfStby) && sim.log == old(sim.log)
      ensures Selected(buf, half, Adf) ==> seldis == 5
      ensures Selected(buf, half, Adf) && AdfNumber(half, cfg.numadf).None? ==>
                counters == old(counters) && adfSel == old(adfSel) &&
                adfAct == old(adfAct) && adfStby == old(adfStby) && sim.log == old(sim.log)
      ensures Selected(buf, half, Adf) && AdfNumber(half, cfg.numadf).Some? ==>
                var n := AdfNumber(half, cfg.numadf).value;
                var fixed := half == Lower && n == 1;
                var r := if res > 0 then AdfKnobs(old(counters), old(adfSel), n, KnobsOf(buf, half), fixed, cfg.radspeed)
                         else (old(counters), old(adfSel), []);
                counters == r.0 && adfSel == r.1 && sim.log == old(sim.log) + r.2 &&
                adfAct == (if n == 1 then rd.adf1 else rd.adf2).active &&
                adfStby == (if n == 1 then rd.adf1 else rd.adf2).standby
    {
      if Selected(buf, half, Adf) {
        seldis := 5;
        var num := AdfNumber(half, cfg.numadf);
        if num.Some? {
          var n := num.value;
          AdfShow(n, KnobsOf(buf, half), half == Lower && n == 1, res, cfg.radspeed,
                  if n == 1 then rd.adf1 else rd.adf2, sim);
        }
      }
    }

    /** The body of process_<half>_adf_switch for the ADF n this half drives. */
    method AdfShow(n: nat, k: Knobs, fixed: bool, res: int, radspeed: int, f: FreqPair, sim: Sim)
      requires Valid()
      modifies this`counters, this`adfSel, this`adfAct, this`adfStby, sim`log
      ensures Valid()
      ensures var r := if res > 0 then AdfKnobs(old(counters), old(adfSel), n, k, fixed, radspeed)
                       else (old(counters), old(adfSel), []);
              counters == r.0 && adfSel == r.1 && sim.log == old(sim.log) + r.2 &&
              adfAct == f.active && adfStby == f.standby
    {
      if res > 0 {
        AdfControls(n, k, fixed, radspeed, sim);
      }
      adfAct := f.active;
      adfStby := f.standby;
    }

    /** The DME mode press toggle (function button released). */
    method DmeModeToggle(pressed: bool, sim: Sim)
      requires Valid()
      modifies this`dmeLatch, this`lastDmePos, sim`dmeMode
      ensures Valid()
      ensures Toggles.Machine(Toggles.Toggle(sim.dmeMode, lastDmePos), dmeLatch) ==
              Toggles.Step(if half == Upper then Toggles.DmeUpper else Toggles.DmeLower,
                           Toggles.Machine(Toggles.Toggle(old(sim.dmeMode), old(lastDmePos)), old(dmeLatch)),
                           pressed, Toggles.DmeLockout)
    {
      var kind := if half == Upper then Toggles.DmeUpper else Toggles.DmeLower;
      var m := Toggles.Step(kind, Toggles.Machine(Toggles.Toggle(sim.dmeMode, lastDmePos), dmeLatch), pressed, Toggles.DmeLockout);
      sim.dmeMode := m.t.pos;
      lastDmePos := m.t.last;
      dmeLatch := m.latch;
    }

    /** The DME slave-source press toggle (function button held). */
    method DmeSourceToggle(pressed: bool, sim: Sim)
      requires Valid()
      modifies this`dmeLatch, this`lastDmePos, sim`dmeSlave
      ensures Valid()
      ensures Toggles.Machine(Toggles.Toggle(sim.dmeSlave, lastDmePos), dmeLatch) ==
              Toggles.Step(Toggles.DmeSource,
                           Toggles.Machine(Toggles.Toggle(old(sim.dmeSlave), old(lastDmePos)), old(dmeLatch)),
                           pressed, Toggles.DmeLockout)
    {
      var m := Toggles.Step(Toggles.DmeSource, Toggles.Machine(Toggles.Toggle(sim.dmeSlave, lastDmePos), dmeLatch), pressed, Toggles.DmeLockout);
      sim.dmeSlave := m.t.pos;
      lastDmePos := m.t.last;
      dmeLatch := m.latch;
    }

    /** The DME read-out after the toggle: copy mode and source; mode 0 shows the selected NAV
        radio's DME speed and distance, mode 1 tunes the DME frequency and writes it back, mode 2
        shows the DME's own speed and time. */
    method DmeReadout(k: Knobs, rd: Readings, sim: Sim)
      requires 0 <= tuning.inc < 3 && 0 <= tuning.dec < 3
      modifies this`seldis, this`dmeMode, this`dmeSource, this`dmeFreq, this`tuning, this`dmeDist,
               this`dmeNavSpeed, this`dmeSpeed, this`dmeTime, sim`dmeFreq
      ensures 0 <= tuning.inc < 3 && 0 <= tuning.dec < 3
      ensures dmeMode == sim.dmeMode && dmeSource == sim.dmeSlave
      ensures dmeMode == 0 ==>
                seldis == 6 && tuning == old(tuning) && dmeFreq == old(dmeFreq) &&
                sim.dmeFreq == old(sim.dmeFreq) && dmeSpeed == old(dmeSpeed) && dmeTime == old(dmeTime) &&
                (dmeSource == 0 ==> dmeNavSpeed == rd.nav1DmeSpeed && dmeDist == rd.nav1DmeDistTenths) &&
                (dmeSource == 1 ==> dmeNavSpeed == rd.nav2DmeSpeed && dmeDist == rd.nav2DmeDistTenths) &&
                (dmeSource != 0 && dmeSource != 1 ==> dmeNavSpeed == old(dmeNavSpeed) && dmeDist == old(dmeDist))
      ensures dmeMode == 1 ==>
                seldis == 7 && tuning == Toggles.Tune(old(sim.dmeFreq), k, old(tuning).inc, old(tuning).dec) &&
                dmeFreq == Toggles.Joined(tuning) && sim.dmeFreq == dmeFreq && dmeTime == rd.dmeTime &&
                dmeNavSpeed == old(dmeNavSpeed) && dmeDist == old(dmeDist) && dmeSpeed == old(dmeSpeed)
      ensures dmeMode == 2 ==>
                seldis == 8 && dmeSpeed == rd.dmeSpeed && dmeTime == rd.dmeTime &&
                tuning == old(tuning) && dmeFreq == old(dmeFreq) && sim.dmeFreq == old(sim.dmeFreq) &&
                dmeNavSpeed == old(dmeNavSpeed) && dmeDist == old(dmeDist)
      ensures dmeMode !in {0, 1, 2} ==>
                seldis == old(seldis) && tuning == old(tuning) && dmeFreq == old(dmeFreq) &&
                sim.dmeFreq == old(sim.dmeFreq) && dmeNavSpeed == old(dmeNavSpeed) &&
                dmeDist == old(dmeDist) && dmeSpeed == old(dmeSpeed) && dmeTime == old(dmeTime)
    {
      dmeMode := sim.dmeMode;
      dmeSource := sim.dmeSlave;
      if dmeMode == 0 {
        seldis := 6;
        if dmeSource == 0 {
          dmeNavSpeed := rd.nav1DmeSpeed;
          dmeDist := rd.nav1DmeDistTenths;
        } else if dmeSource == 1 {
          dmeNavSpeed := rd.nav2DmeSpeed;
          dmeDist := rd.nav2DmeDistTenths;
        }
      }
      if dmeMode == 1 {
        seldis := 7;
        Toggles.TuneCounters(sim.dmeFreq, k, tuning.inc, tuning.dec);
        tuning := Toggles.Tune(sim.dmeFreq, k, tuning.inc, tuning.dec);
        dmeFreq := Toggles.Joined(tuning);
        sim.dmeFreq := dmeFreq;
        dmeTime := rd.dmeTime;
      }
      if dmeMode == 2 {
        seldis := 8;
        dmeSpeed := rd.dmeSpeed;
        dmeTime := rd.dmeTime;
      }
    }

    /** What the DME read-out leaves, from the display number, tuning state, simulator frequency,
        DME frequency and readings it started with: the mode and source copied; mode 0 the NAV
        distance and speed of source 0 or 1, mode 1 the tuned frequency, mode 2 the DME's speed
        and time; anything else nothing. */
    ghost predicate ReadOut(k: Knobs, rd: Readings, sim: Sim, sel0: int, tuning0: Toggles.Tuning, simFreq0: int,
                            freq0: int, dist0: int, navSpeed0: int, speed0: int, time0: int)
      reads this, sim
    {
      dmeMode == sim.dmeMode && dmeSource == sim.dmeSlave &&
      (dmeMode == 0 ==>
         seldis == 6 && tuning == tuning0 && dmeFreq == freq0 && sim.dmeFreq == simFreq0 &&
         dmeSpeed == speed0 && dmeTime == time0 &&
         (dmeSource == 0 ==> dmeNavSpeed == rd.nav1DmeSpeed && dmeDist == rd.nav1DmeDistTenths) &&
         (dmeSource == 1 ==> dmeNavSpeed == rd.nav2DmeSpeed && dmeDist == rd.nav2DmeDistTenths) &&
         (dmeSource != 0 && dmeSource != 1 ==> dmeNavSpeed == navSpeed0 && dmeDist == dist0)) &&
      (dmeMode == 1 ==>
         seldis == 7 && tuning == Toggles.Tune(simFreq0, k, tuning0.inc, tuning0.dec) &&
         dmeFreq == Toggles.Joined(tuning) && sim.dmeFreq == dmeFreq && dmeTime == rd.dmeTime &&
         dmeNavSpeed == navSpeed0 && dmeDist == dist0 && dmeSpeed == speed0) &&
      (dmeMode == 2 ==>
         seldis == 8 && dmeSpeed == rd.dmeSpeed && dmeTime == rd.dmeTime &&
         tuning == tuning0 && dmeFreq == freq0 && sim.dmeFreq == simFreq0 &&
         dmeNavSpeed == navSpeed0 && dmeDist == dist0) &&
      (dmeMode !in {0, 1, 2} ==>
         seldis == sel0 && tuning == tuning0 && dmeFreq == freq0 && sim.dmeFreq == simFreq0 &&
         dmeNavSpeed == navSpeed0 && dmeDist == dist0 && dmeSpeed == speed0 && dmeTime == time0)
    }

    /** The DME handler with the function button released: the mode toggle, then the read-out. */
    method DmeReleased(pressed: bool, k: Knobs, rd: Readings, sim: Sim)
      requires Valid()
      modifies this`seldis, this`dmeLatch, this`lastDmePos, this`dmeMode, this`dmeSource,
               this`dmeFreq, this`tuning, this`dmeDist, this`dmeNavSpeed, this`dmeSpeed,
               this`dmeTime, sim`dmeMode, sim`dmeFreq
      ensures Valid()
      ensures dmeMode == sim.dmeMode && dmeSource == sim.dmeSlave &&
              Toggles.Machine(Toggles.Toggle(sim.dmeMode, lastDmePos), dmeLatch) ==
              Toggles.Step(if half == Upper then Toggles.DmeUpper else Toggles.DmeLower,
                           Toggles.Machine(Toggles.Toggle(old(sim.dmeMode), old(lastDmePos)), old(dmeLatch)),
                           pressed, Toggles.DmeLockout)
      ensures ReadOut(k, rd, sim, old(seldis), old(tuning), old(sim.dmeFreq), old(dmeFreq), old(dmeDist),
                      old(dmeNavSpeed), old(dmeSpeed), old(dmeTime))
    {
      DmeModeToggle(pressed, sim);
      DmeReadout(k, rd, sim);
    }

    /** process_<half>_dme_switch: with the DME select button held, the function button released
        runs the mode toggle and the read-out, the function button held runs the source toggle. */
    method DmeSwitch(buf: seq<byte>, cfg: Config, rd: Readings, sim: Sim)
      requires Valid() && |buf| >= 3
      modifies this`seldis, this`dmeLatch, this`lastDmePos, this`dmeMode, this`dmeSource,
               this`dmeFreq, this`tuning, this`dmeDist, this`dmeNavSpeed, this`dmeSpeed,
               this`dmeTime, sim`dmeMode, sim`dmeSlave, sim`dmeFreq
      ensures Valid()
      ensures !Selected(buf, half, Dme) || (cfg.fn != 0 && cfg.fn != 1) ==>
                seldis == old(seldis) && dmeLatch == old(dmeLatch) && lastDmePos == old(lastDmePos) &&
                sim.dmeMode == old(sim.dmeMode) && sim.dmeSlave == old(sim.dmeSlave) &&
                sim.dmeFreq == old(sim.dmeFreq) && tuning == old(tuning) &&
                unchanged(this) && unchanged(sim)
      ensures Selected(buf, half, Dme) && cfg.fn == 0 ==>
                sim.dmeSlave == old(sim.dmeSlave) && dmeMode == sim.dmeMode && dmeSource == sim.dmeSlave &&
                Toggles.Machine(Toggles.Toggle(sim.dmeMode, lastDmePos), dmeLatch) ==
                Toggles.Step(if half == Upper then Toggles.DmeUpper else Toggles.DmeLower,
                             Toggles.Machine(Toggles.Toggle(old(sim.dmeMode), old(lastDmePos)), old(dmeLatch)),
                             Pressed(buf, half, ActiveStandby), Toggles.DmeLockout) &&
                ReadOut(KnobsOf(buf, half), rd, sim, old(seldis), old(tuning), old(sim.dmeFreq), old(dmeFreq),
                        old(dmeDist), old(dmeNavSpeed), old(dmeSpeed), old(dmeTime))
      ensures Selected(buf, half, Dme) && cfg.fn == 1 ==>
                seldis == old(seldis) && sim.dmeMode == old(sim.dmeMode) && sim.dmeFreq == old(sim.dmeFreq) &&
                unchanged(this`dmeMode, this`dmeSource, this`dmeFreq, this`tuning, this`dmeDist,
                          this`dmeNavSpeed, this`dmeSpeed, this`dmeTime) &&
                Toggles.Machine(Toggles.Toggle(sim.dmeSlave, lastDmePos), dmeLatch) ==
                Toggles.Step(Toggles.DmeSource,
                             Toggles.Machine(Toggles.Toggle(old(sim.dmeSlave), old(lastDmePos)), old(dmeLatch)),
                             Pressed(buf, half, ActiveStandby), Toggles.DmeLockout)
    {
      if Selected(buf, half, Dme) {
        if cfg.fn == 0 {
          DmeReleased(Pressed(buf, half, ActiveStandby), KnobsOf(buf, half), rd, sim);
        }
        if cfg.fn == 1 {
          DmeSourceToggle(Pressed(buf, half, ActiveStandby), sim);
        }
      }
    }

    /** The transponder mode press toggle (function button released). */
    method XpdrModeToggle(pressed: bool, sim: Sim)
      requires Valid()
      modifies this`xpdrLatch, this`lastXpdrPos, sim`xpdrMode
      ensures Valid()
      ensures Toggles.Machine(Toggles.Toggle(sim.xpdrMode, lastXpdrPos), xpdrLatch) ==
              Toggles.Step(Toggles.XpdrMode,
                           Toggles.Machine(Toggles.Toggle(old(sim.xpdrMode), old(lastXpdrPos)), old(xpdrLatch)),
                           pressed, Toggles.XpdrLockout)
    {
      var m := Toggles.Step(Toggles.XpdrMode, Toggles.Machine(Toggles.Toggle(sim.xpdrMode, lastXpdrPos), xpdrLatch), pressed, Toggles.XpdrLockout);
      sim.xpdrMode := m.t.pos;
      lastXpdrPos := m.t.last;
      xpdrLatch := m.latch;
    }

    /** The transponder knobs with the function button released: code digits and the selector. */
    method XpdrDigits(k: Knobs, radspeed: int, sim: Sim)
      requires Valid()
      modifies this`counters, this`xpdrSel, sim`log
      ensures Valid()
      ensures counters == XpdrKnobs(old(counters), old(xpdrSel), k, radspeed).0
      ensures xpdrSel == XpdrKnobs(old(counters), old(xpdrSel), k, radspeed).1
      ensures sim.log == old(sim.log) + XpdrKnobs(old(counters), old(xpdrSel), k, radspeed).2
    {
      ghost var c0, s0, l0 := counters, xpdrSel, sim.log;
      var up, dn := [XpdrDigit(xpdrSel - 1, true)], [XpdrDigit(xpdrSel - 1, false)];
      ghost var f := FinePair(counters, XpdrKnob, k, up, dn, radspeed);
      FineKnobs(XpdrKnob, k, up, dn, radspeed, sim);
      ghost var g := Coarse(f.0, XpdrKnob, s0, k, 4, false, radspeed);
      xpdrSel := CoarseRing(XpdrKnob, xpdrSel, k, 4, false, radspeed);
      assert XpdrKnobs(c0, s0, k, radspeed) == (g.0, g.1, f.1);
    }

    /** The transponder knobs with the function button held: the barometer. */
    method QnhSet(k: Knobs, radspeed: int, sim: Sim)
      modifies this`counters, sim`log
      ensures counters == QnhKnobs(old(counters), k, radspeed).0
      ensures sim.log == old(sim.log) + QnhKnobs(old(counters), k, radspeed).1
    {
      ghost var l0 := sim.log;
      ghost var f := FourTurns(counters, QnhKnob, k, [BaroStep(true)], [BaroStep(false)], Ten(true), Ten(false), radspeed);
      FourKnobs(QnhKnob, k, [BaroStep(true)], [BaroStep(false)], Ten(true), Ten(false), radspeed, sim);
      if k.actStby {
        sim.Fire(BaroStd);
      }
      assert sim.log == l0 + (f.1 + (if k.actStby then [BaroStd] else []));
    }

    /** process_<half>_xpdr_switch: show the transponder; the function button released runs the
        code knobs and the mode toggle, held runs the barometer knobs; then copy code, mode and
        the barometer in the unit the metric switch selects, and set the simulator's unit. */
    method XpdrSwitch(buf: seq<byte>, cfg: Config, rd: Readings, sim: Sim)
      requires Valid() && |buf| >= 3
      modifies this`seldis, this`counters, this`xpdrSel, this`xpdrLatch, this`lastXpdrPos,
               this`xpdrCode, this`xpdrMode, this`baroSet, sim`log, sim`xpdrMode, sim`metricPress
      ensures Valid()
      ensures !Selected(buf, half, Xpdr) ==>
                seldis == old(seldis) && XpdrControlsNow(sim) == old(XpdrControlsNow(sim)) &&
                sim.metricPress == old(sim.metricPress) &&
                xpdrCode == old(xpdrCode) && xpdrMode == old(xpdrMode) && baroSet == old(baroSet)
      ensures Selected(buf, half, Xpdr) ==>
                seldis == 9 && XpdrControlsNow(sim) == XpdrStep(old(XpdrControlsNow(sim)), KnobsOf(buf, half), cfg) &&
                xpdrCode == sim.xpdrCode && xpdrMode == sim.xpdrMode &&
                baroSet == (if cfg.metric == 0 then rd.baroInHgHundredths
                            else if cfg.metric == 1 then rd.baroHpa else rd.baroRaw) &&
                sim.metricPress == (if cfg.metric == 0 then 0 else if cfg.metric == 1 then 1
                                    else old(sim.metricPress))
    {
      if Selected(buf, half, Xpdr) {
        seldis := 9;
        XpdrShow(KnobsOf(buf, half), cfg, rd, sim);
      }
    }

    /** The body of process_<half>_xpdr_switch once the transponder is selected. */
    method XpdrShow(k: Knobs, cfg: Config, rd: Readings, sim: Sim)
      requires Valid()
      modifies this`counters, this`xpdrSel, this`xpdrLatch, this`lastXpdrPos,
               this`xpdrCode, this`xpdrMode, this`baroSet, sim`log, sim`xpdrMode, sim`metricPress
      ensures Valid()
      ensures XpdrControlsNow(sim) == XpdrStep(old(XpdrControlsNow(sim)), k, cfg) &&
              xpdrCode == sim.xpdrCode && xpdrMode == sim.xpdrMode &&
              baroSet == (if cfg.metric == 0 then rd.baroInHgHundredths
                          else if cfg.metric == 1 then rd.baroHpa else rd.baroRaw) &&
              sim.metricPress == (if cfg.metric == 0 then 0 else if cfg.metric == 1 then 1
                                  else old(sim.metricPress))
    {
      XpdrControls(k, cfg, sim);
      XpdrCopy(cfg, rd, sim);
    }

    /** The part of the state the transponder controls change. */
    function XpdrControlsNow(sim: Sim): XpdrControlState
      reads this, sim
    {
      XpdrControlState(counters, xpdrSel, Toggles.Machine(Toggles.Toggle(sim.xpdrMode, lastXpdrPos), xpdrLatch), sim.log)
    }

    /** The transponder handler's knobs and ACT/STBY, by the function button. */
    method XpdrControls(k: Knobs, cfg: Config, sim: Sim)
      requires Valid()
      modifies this`counters, this`xpdrSel, this`xpdrLatch, this`lastXpdrPos, sim`log, sim`xpdrMode
      ensures Valid()
      ensures XpdrControlsNow(sim) == XpdrStep(old(XpdrControlsNow(sim)), k, cfg)
    {
      if cfg.fn == 0 {
        XpdrDigits(k, cfg.radspeed, sim);
        XpdrModeToggle(k.actStby, sim);
      }
      if cfg.fn == 1 {
        QnhSet(k, cfg.radspeed, sim);
      }
    }

    /** The tail of the transponder handler: code, mode and barometer copied, the barometer in the
        unit the metric switch selects, and the simulator's unit set to match. */
    method XpdrCopy(cfg: Config, rd: Readings, sim: Sim)
      modifies this`xpdrCode, this`xpdrMode, this`baroSet, sim`metricPress
      ensures xpdrCode == sim.xpdrCode && xpdrMode == sim.xpdrMode
      ensures baroSet == (if cfg.metric == 0 then rd.baroInHgHundredths
                          else if cfg.metric == 1 then rd.baroHpa else rd.baroRaw)
      ensures sim.metricPress == (if cfg.metric == 0 then 0 else if cfg.metric == 1 then 1
                                  else old(sim.metricPress))
    {
      xpdrCode := sim.xpdrCode;
      xpdrMode := sim.xpdrMode;
      if cfg.metric == 0 {
        baroSet := rd.baroInHgHundredths;
        sim.metricPress := 0;
      } else if cfg.metric == 1 {
        baroSet := rd.baroHpa;
        sim.metricPress := 1;
      } else {
        baroSet := rd.baroRaw;
      }
    }

    /** The transponder display (selector 9): the windows, the quiet timer and the selector after
        one call. With the function button released the code shows the selected digit, and after
        200 quiet calls the mode mark with the selector back on the ones digit; held, the
        barometer is marked as being set and the code shown is codeShown. */
    function XpdrShown(k: Knobs, cfg: Config, mode: int, codeShown: int): (r: (Windows, int, int))
      reads this`baroSet, this`xpdrCode, this`xpdrSel, this`modeTurnoff, this`windows, this`adfSel
      requires ShowOk()
      ensures 0 <= r.1 <= Toggles.QuietLimit && 1 <= r.2 <= 4
      ensures cfg.fn == 1 ==> r.0 == XpdrFnWindows(baroSet, codeShown, cfg.metric)
      ensures cfg.fn != 0 ==> r.1 == modeTurnoff && r.2 == xpdrSel
      ensures cfg.fn == 0 && k.AnyKnob() ==>
                r == (XpdrWindows(baroSet, xpdrCode, xpdrSel, cfg.metric).value, 1, xpdrSel)
      ensures cfg.fn == 0 && modeTurnoff == Toggles.QuietLimit && !k.AnyKnob() ==>
                r.1 == Toggles.QuietLimit && r.2 == 1 &&
                r.0.b == ModeMark(Flagged(Four(xpdrCode), 5 - xpdrSel), mode)
    {
      if cfg.fn == 0 then
        var w := XpdrWindows(baroSet, xpdrCode, xpdrSel, cfg.metric).value;
        var q := Toggles.QuietStep(modeTurnoff, k.AnyKnob());
        if q.1 then (w.(b := ModeMark(w.b, mode)), q.0, 1) else (w, q.0, xpdrSel)
      else if cfg.fn == 1 then (XpdrFnWindows(baroSet, codeShown, cfg.metric), modeTurnoff, xpdrSel)
      else (windows, modeTurnoff, xpdrSel)
    }

    /** process_<half>_digit_display: the windows for the display selector sel (the half's
        seldis when it runs); a selector with no rule (or an ADF selector below 1) leaves the
        windows as they were. The transponder mode mark uses the simulator's mode, and the lower
        half's function-button display shows the code the upper half last stored (codeShown). */
    function Shown(sel: int, k: Knobs, cfg: Config, mode: int, codeShown: int): (r: (Windows, int, int))
      reads this`windows, this`modeTurnoff, this`xpdrSel, this`xpdrCode, this`baroSet
      reads this`actFreq, this`stbyFreq, this`adfAct, this`adfStby, this`adfSel
      reads this`dmeNavSpeed, this`dmeSpeed, this`dmeDist, this`dmeFreq, this`dmeTime
      requires ShowOk()
      ensures 0 <= r.1 <= Toggles.QuietLimit && 1 <= r.2 <= 4
      ensures sel != 9 ==> r.1 == modeTurnoff && r.2 == xpdrSel
      ensures 1 <= sel <= 4 ==> r.0 == ComNavWindows(actFreq, stbyFreq)
      ensures sel == 5 ==> r.0 == AdfWindows(adfAct, adfStby, adfSel).value
      ensures sel == 6 ==> r.0 == DmeDistWindows(dmeNavSpeed, dmeDist)
      ensures sel == 7 ==> r.0 == DmeFreqWindows(dmeFreq, dmeTime)
      ensures sel == 8 ==> r.0 == DmeTimeWindows(if half == Upper then dmeNavSpeed else dmeSpeed, dmeTime)
      ensures sel == 9 ==> r == XpdrShown(k, cfg, mode, codeShown)
      ensures sel == 10 ==> r.0 == Dark
      ensures sel < 1 || sel > 10 ==> r.0 == windows
    {
      if 1 <= sel <= 4 then (ComNavWindows(actFreq, stbyFreq), modeTurnoff, xpdrSel)
      else if sel == 5 then (AdfWindows(adfAct, adfStby, adfSel).value, modeTurnoff, xpdrSel)
      else if sel == 6 then (DmeDistWindows(dmeNavSpeed, dmeDist), modeTurnoff, xpdrSel)
      else if sel == 7 then (DmeFreqWindows(dmeFreq, dmeTime), modeTurnoff, xpdrSel)
      else if sel == 8 then
        (DmeTimeWindows(if half == Upper then dmeNavSpeed else dmeSpeed, dmeTime), modeTurnoff, xpdrSel)
      else if sel == 9 then XpdrShown(k, cfg, mode, codeShown)
      else if sel == 10 then (Dark, modeTurnoff, xpdrSel)
      else (windows, modeTurnoff, xpdrSel)
    }

    /** Run the digit display routine. */
    method Display(k: Knobs, cfg: Config, mode: int, codeShown: int)
      requires Valid()
      modifies this`windows, this`modeTurnoff, this`xpdrSel
      ensures Valid()
      ensures (windows, modeTurnoff, xpdrSel) == old(Shown(seldis, k, cfg, mode, codeShown))
    {
      var r := Shown(seldis, k, cfg, mode, codeShown);
      windows, modeTurnoff, xpdrSel := r.0, r.1, r.2;
    }
  }
}
