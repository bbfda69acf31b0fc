/** The small state machines of the procedural model: the ACT/STBY press toggles with their
    lockout latches, the digit-selector rings, the DME frequency tuner and the transponder quiet
    timer. Each is a pure step function; the handlers in the procedural model apply them to the
    global state they keep. */
module Toggles {
  import opened Bytes
  import opened Controls

  /** Calls a DME toggle stays locked after a press (updmeloop == 50). */
  const DmeLockout := 50
  /** Calls a transponder toggle stays locked after a press (upxpdrloop == 25). */
  const XpdrLockout := 25

  // ---------------------------------------------------------------- press latch

  /** A press latch: the pushed flag and its loop counter (updmepushed/updmeloop, ...). */
  datatype Latch = Latch(pushed: int, loop: int)

  const Released := Latch(0, 0)

  /** The shape a latch keeps: pushed is 0 or 1, the counter stays below the limit, and a free
      latch has a zero counter. */
  predicate LatchOk(l: Latch, limit: int)
  {
    (l.pushed == 0 || l.pushed == 1) && 0 <= l.loop < limit && (l.pushed == 0 ==> l.loop == 0)
  }

  /** The tail of each toggle handler: while pushed, count the call, and release at the limit. */
  function LatchTick(l: Latch, limit: int): (r: Latch)
    ensures limit >= 1 && LatchOk(l, limit) ==> LatchOk(r, limit)
    ensures l.pushed != 1 ==> r == l
    ensures l.pushed == 1 ==> (r == Released <==> l.loop + 1 == limit)
  {
    if l.pushed == 1 then
      if l.loop + 1 == limit then Released else Latch(1, l.loop + 1)
    else l
  }

  // ---------------------------------------------------------------- press toggles

  /** A toggle's position (the dataref it drives) and the remembered last position. */
  datatype Toggle = Toggle(pos: int, last: int)

  /** The four toggles the handlers implement. */
  datatype Kind =
    | DmeUpper   // upper DME mode switch
    | DmeLower   // lower DME mode switch, with its own lastpos bookkeeping
    | XpdrMode   // transponder mode switch (same code in both halves)
    | DmeSource  // DME slave source, with the function button held (same in both halves)

  /** The guarded blocks of one handler for a call with ACT/STBY held and the latch free: the
      toggle after the one block that applies, or None when no block applies. */
  function Press(kind: Kind, s: Toggle): (r: Option<Toggle>)
    ensures r.Some? ==> r.value.pos != s.pos
  {
    match kind
    case DmeUpper =>
      if s.pos == 0 then Some(Toggle(1, 0))
      else if s.pos == 1 then
        if s.last == 0 then Some(Toggle(2, s.last))
        else if s.last == 2 then Some(Toggle(0, s.last))
        else None
      else if s.pos == 2 then Some(Toggle(1, 2))
      else None
    case DmeLower =>
      if s.pos == 0 then Some(Toggle(1, 1))
      else if s.pos == 1 then Some(Toggle(if s.last == 2 then 0 else 2, s.last))
      else if s.pos == 2 then Some(Toggle(1, 2))
      else None
    case XpdrMode =>
      if s.pos == 0 then Some(Toggle(1, 0))
      else if s.pos == 1 then
        if s.last == 0 then Some(Toggle(2, 1))
        else if s.last == 2 then Some(Toggle(0, s.last))
        else None
      else if s.pos == 2 then
        if s.last == 1 then Some(Toggle(3, 2))
        else if s.last == 3 then Some(Toggle(1, 2))
        else None
      else if s.pos == 3 then Some(Toggle(2, 3))
      else None
    case DmeSource =>
      if s.pos == 0 then Some(Toggle(1, 0))
      else if s.pos == 1 then Some(Toggle(0, s.last))
      else None
  }

  /** The source flip undoes itself: two presses from source 0 or 1 come back to it. */
  lemma SourceFlipInvolution(s: Toggle)
    requires s.pos == 0 || s.pos == 1
    ensures Press(DmeSource, s).Some?
    ensures Press(DmeSource, Press(DmeSource, s).value).Some?
    ensures Press(DmeSource, Press(DmeSource, s).value).value.pos == s.pos
  {
  }

  /** `n` consecutive accepted presses. */
  function Presses(kind: Kind, s: Toggle, n: nat): Toggle
  {
    if n == 0 then s
    else
      var p := Presses(kind, s, n - 1);
      match Press(kind, p)
      case Some(q) => q
      case None => p
  }

  /** The states the upper DME switch passes through from OFF: 1, 2, 1, 0, and around again. */
  const DmeUpperOrbit: seq<Toggle> := [Toggle(1, 0), Toggle(2, 0), Toggle(1, 2), Toggle(0, 2)]

  /** Upper DME presses cycle 0 → 1 → 2 → 1 → 0 with period four, whatever lastpos held. */
  lemma {:induction false} DmeUpperCycle(last: int, n: nat)
    requires n >= 1
    ensures Presses(DmeUpper, Toggle(0, last), n) == DmeUpperOrbit[(n - 1) % 4]
  {
    if n > 1 {
      DmeUpperCycle(last, n - 1);
      var k := (n - 2) % 4;
      assert (n - 1) % 4 == (k + 1) % 4;
    }
  }

  /** The states the transponder mode switch passes through from OFF: 1, 2, 3, 2, 1, 0. */
  const XpdrOrbit: seq<Toggle> :=
    [Toggle(1, 0), Toggle(2, 1), Toggle(3, 2), Toggle(2, 3), Toggle(1, 2), Toggle(0, 2)]

  /** Transponder presses cycle 0 → 1 → 2 → 3 → 2 → 1 → 0 with period six. */
  lemma {:induction false} XpdrCycle(last: int, n: nat)
    requires n >= 1
    ensures Presses(XpdrMode, Toggle(0, last), n) == XpdrOrbit[(n - 1) % 6]
  {
    if n > 1 {
      XpdrCycle(last, n - 1);
      var k := (n - 2) % 6;
      assert (n - 1) % 6 == (k + 1) % 6;
    }
  }

  // ---------------------------------------------------------------- toggle with latch

  /** A toggle together with its latch. */
  datatype Machine = Machine(t: Toggle, latch: Latch)

  /** One call of a toggle handler: the guarded press (only with the latch free and ACT/STBY
      held), then the latch tick. */
  function Step(kind: Kind, m: Machine, pressed: bool, limit: int): (r: Machine)
    ensures r.t != m.t ==> m.latch.pushed == 0 && pressed && Press(kind, m.t) == Some(r.t)
    ensures limit >= 2 && LatchOk(m.latch, limit) ==> LatchOk(r.latch, limit)
    ensures limit >= 2 && LatchOk(m.latch, limit) && r.t != m.t ==> r.latch == Latch(1, 1)
  {
    var p := if m.latch.pushed == 0 && pressed then Press(kind, m.t) else None;
    match p
    case Some(q) => Machine(q, LatchTick(Latch(1, m.latch.loop), limit))
    case None => Machine(m.t, LatchTick(m.latch, limit))
  }

  /** The machines after each of a run of calls. */
  function Run(kind: Kind, m: Machine, presses: seq<bool>, limit: int): (r: seq<Machine>)
    ensures |r| == |presses|
    decreases |presses|
  {
    if presses == [] then []
    else
      var m1 := Step(kind, m, presses[0], limit);
      [m1] + Run(kind, m1, presses[1..], limit)
  }

  /** While the latch is held the toggle does not move, whatever is pressed: a latch that has
      counted k calls blocks the next limit - k calls. */
  lemma {:induction false} LatchBlocks(kind: Kind, m: Machine, presses: seq<bool>, limit: int)
    requires 1 <= m.latch.loop < limit && m.latch.pushed == 1
    requires |presses| <= limit - m.latch.loop
    ensures forall j :: 0 <= j < |presses| ==> Run(kind, m, presses, limit)[j].t == m.t
    decreases |presses|
  {
    if presses != [] {
      var m1 := Step(kind, m, presses[0], limit);
      assert m1.t == m.t;
      if |presses| > 1 {
        assert m1.latch == Latch(1, m.latch.loop + 1);
        LatchBlocks(kind, m1, presses[1..], limit);
      }
      var r := Run(kind, m, presses, limit);
      assert r == [m1] + Run(kind, m1, presses[1..], limit);
      forall j | 0 <= j < |presses|
        ensures r[j].t == m.t
      {
        if j > 0 {
          assert r[j] == Run(kind, m1, presses[1..], limit)[j - 1];
        }
      }
    }
  }

  /** After a call that moves the toggle, the next limit - 1 calls cannot move it: at most one
      transition per lockout period. */
  lemma OneMovePerLockout(kind: Kind, m: Machine, pressed: bool, later: seq<bool>, limit: int)
    requires limit >= 2 && LatchOk(m.latch, limit)
    requires Step(kind, m, pressed, limit).t != m.t
    requires |later| <= limit - 1
    ensures forall j :: 0 <= j < |later| ==>
      Run(kind, Step(kind, m, pressed, limit), later, limit)[j].t == Step(kind, m, pressed, limit).t
  {
    LatchBlocks(kind, Step(kind, m, pressed, limit), later, limit);
  }

  /** Upper DME state and lower DME state that show the same mode now and in every later call:
      same mode, same latch, and lastpos equal to 2 in both or in neither. */
  predicate DmeTwins(u: Machine, l: Machine)
  {
    u.t.pos == l.t.pos && 0 <= u.t.pos <= 2 && u.latch == l.latch &&
    (u.t.last == 0 || u.t.last == 2) && (u.t.last == 2 <==> l.t.last == 2)
  }

  /** The positions a run shows. */
  function Positions(r: seq<Machine>): (p: seq<int>)
    ensures |p| == |r|
  {
    if r == [] then [] else [r[0].t.pos] + Positions(r[1..])
  }

  /** The lower DME copy keeps different lastpos values, but driven by the same calls it shows the
      same modes as the upper copy. */
  lemma {:induction false} DmeCopiesAgree(u: Machine, l: Machine, presses: seq<bool>)
    requires DmeTwins(u, l)
    ensures Positions(Run(DmeUpper, u, presses, DmeLockout)) ==
            Positions(Run(DmeLower, l, presses, DmeLockout))
    decreases |presses|
  {
    if presses != [] {
      var u1 := Step(DmeUpper, u, presses[0], DmeLockout);
      var l1 := Step(DmeLower, l, presses[0], DmeLockout);
      assert DmeTwins(u1, l1);
      DmeCopiesAgree(u1, l1, presses[1..]);
    }
  }

  /** Both copies start from mode OFF, lastpos 0 and a free latch. */
  lemma DmeCopiesAgreeFromStart(presses: seq<bool>)
    ensures Positions(Run(DmeUpper, Machine(Toggle(0, 0), Released), presses, DmeLockout)) ==
            Positions(Run(DmeLower, Machine(Toggle(0, 0), Released), presses, DmeLockout))
  {
    DmeCopiesAgree(Machine(Toggle(0, 0), Released), Machine(Toggle(0, 0), Released), presses);
  }

  // ---------------------------------------------------------------- digit-selector rings

  /** COARSE_DN on a selector ring 1..top: step up when the debounce fired, then wrap top+1 to 1
      (the wrap test runs whether or not it fired). */
  function RingDown(sel: int, fired: bool, top: int): (r: int)
    ensures 1 <= sel <= top ==> 1 <= r <= top
    ensures 1 <= sel <= top && !fired ==> r == sel
  {
    var s := if fired then sel + 1 else sel;
    if s == top + 1 then 1 else s
  }

  /** COARSE_UP on a selector ring: step down when fired, then wrap 0 to top. */
  function RingUp(sel: int, fired: bool, top: int): (r: int)
    ensures 1 <= sel <= top ==> 1 <= r <= top
    ensures 1 <= sel <= top && !fired ==> r == sel
  {
    var s := if fired then sel - 1 else sel;
    if s == 0 then top else s
  }

  /** A fired COARSE_UP undoes a fired COARSE_DN and the other way round. */
  lemma RingInverse(sel: int, top: int)
    requires 1 <= sel <= top
    ensures RingUp(RingDown(sel, true, top), true, top) == sel
    ensures RingDown(RingUp(sel, true, top), true, top) == sel
  {
  }

  /** n fired COARSE_DN steps. */
  function RingDowns(sel: int, top: int, n: nat): int
  {
    if n == 0 then sel else RingDown(RingDowns(sel, top, n - 1), true, top)
  }

  /** The successor of x modulo top. */
  lemma ModSucc(x: nat, top: int)
    requires top >= 1
    ensures (x + 1) % top == if x % top + 1 == top then 0 else x % top + 1
  {
    var q, k := x / top, x % top;
    assert x == q * top + k && 0 <= k < top;
    if k + 1 == top {
      assert x + 1 == (q + 1) * top + 0 by {
        assert (q + 1) * top == q * top + top;
      }
      DivUnique(x + 1, top, q + 1, 0);
    } else {
      DivUnique(x + 1, top, q, k + 1);
    }
  }

  /** Stepping a ring of size top moves the selector n places round it. */
  lemma {:induction false} RingDownsRotate(sel: int, top: int, n: nat)
    requires 1 <= sel <= top
    ensures RingDowns(sel, top, n) == (sel - 1 + n) % top + 1
  {
    if n > 0 {
      RingDownsRotate(sel, top, n - 1);
      var x: nat := sel - 1 + n - 1;
      ModSucc(x, top);
      assert RingDowns(sel, top, n) == RingDown(x % top + 1, true, top);
    }
  }

  // ---------------------------------------------------------------- DME tuner

  /** The tuner's split frequency (updmefreqhnd/updmefreqfrc) and its two shared counters
      (updmedbncfninc/updmedbncfndec). */
  datatype Tuning = Tuning(hnd: int, frc: int, inc: int, dec: int)

  /** The DME band: 108.00 to 117.95 in steps of 0.05. */
  predicate InBand(t: Tuning)
  {
    108 <= t.hnd <= 117 && 0 <= t.frc <= 95 && t.frc % 5 == 0
  }

  /** FINE_UP: wrap 95 to 0 first, then count; the third tick adds 5. */
  function FineUp(t: Tuning): (r: Tuning)
    ensures InBand(t) ==> InBand(r)
    ensures r.hnd == t.hnd && r.dec == t.dec
  {
    var f := if t.frc == 95 then 0 else t.frc;
    if t.inc + 1 == 3 then t.(frc := f + 5, inc := 0) else t.(frc := f, inc := t.inc + 1)
  }

  /** FINE_DN: wrap 0 to 95 first, then count; the third tick subtracts 5. */
  function FineDown(t: Tuning): (r: Tuning)
    ensures InBand(t) ==> InBand(r)
    ensures r.hnd == t.hnd && r.inc == t.inc
  {
    var f := if t.frc == 0 then 95 else t.frc;
    if t.dec + 1 == 3 then t.(frc := f - 5, dec := 0) else t.(frc := f, dec := t.dec + 1)
  }

  /** COARSE_UP: wrap 117 to 108 first, then count on the fine-up counter; the third tick adds 1. */
  function CoarseUp(t: Tuning): (r: Tuning)
    ensures InBand(t) ==> InBand(r)
    ensures r.frc == t.frc && r.dec == t.dec
  {
    var h := if t.hnd == 117 then 108 else t.hnd;
    if t.inc + 1 == 3 then t.(hnd := h + 1, inc := 0) else t.(hnd := h, inc := t.inc + 1)
  }

  /** COARSE_DN: wrap 108 to 117 first, then count on the fine-down counter; the third tick
      subtracts 1. */
  function CoarseDown(t: Tuning): (r: Tuning)
    ensures InBand(t) ==> InBand(r)
    ensures r.frc == t.frc && r.inc == t.inc
  {
    var h := if t.hnd == 108 then 117 else t.hnd;
    if t.dec + 1 == 3 then t.(hnd := h - 1, dec := 0) else t.(hnd := h, dec := t.dec + 1)
  }

  /** The tuning block of the DME handler in mode 1: split the frequency, apply the held knobs in
      the order FINE_UP, FINE_DN, COARSE_UP, COARSE_DN. */
  function Tune(freq: int, k: Knobs, inc: int, dec: int): Tuning
  {
    var t0 := Tuning(CDiv(freq, 100), CMod(freq, 100), inc, dec);
    var t1 := if k.fineUp then FineUp(t0) else t0;
    var t2 := if k.fineDn then FineDown(t1) else t1;
    var t3 := if k.coarseUp then CoarseUp(t2) else t2;
    if k.coarseDn then CoarseDown(t3) else t3
  }

  /** The frequency written back: hnd * 100 + frc. */
  function Joined(t: Tuning): int
  {
    t.hnd * 100 + t.frc
  }

  /** A frequency in the band splits back into the hundreds and fraction it was joined from. */
  lemma SplitJoined(t: Tuning)
    requires InBand(t)
    ensures CDiv(Joined(t), 100) == t.hnd && CMod(Joined(t), 100) == t.frc
  {
    DivUnique(Joined(t), 100, t.hnd, t.frc);
  }

  /** A tuning step from an in-band frequency writes an in-band frequency, and re-reading it on
      the next call recovers the same split. */
  lemma TuneStaysInBand(freq: int, k: Knobs, inc: int, dec: int)
    requires InBand(Tuning(CDiv(freq, 100), CMod(freq, 100), inc, dec))
    ensures InBand(Tune(freq, k, inc, dec))
    ensures CDiv(Joined(Tune(freq, k, inc, dec)), 100) == Tune(freq, k, inc, dec).hnd
    ensures CMod(Joined(Tune(freq, k, inc, dec)), 100) == Tune(freq, k, inc, dec).frc
  {
    SplitJoined(Tune(freq, k, inc, dec));
  }

  /** The counters stay in 0..2 when they start there. */
  lemma TuneCounters(freq: int, k: Knobs, inc: int, dec: int)
    requires 0 <= inc < 3 && 0 <= dec < 3
    ensures 0 <= Tune(freq, k, inc, dec).inc < 3 && 0 <= Tune(freq, k, inc, dec).dec < 3
  {
  }

  /** The wrap comes before the counter: FINE_UP on .95 reads .00 on a tick that does not fire,
      so the fraction jumps back without a third tick. */
  lemma FineUpWrapsFirst(hnd: int, inc: int, dec: int)
    requires 0 <= inc < 2
    ensures FineUp(Tuning(hnd, 95, inc, dec)) == Tuning(hnd, 0, inc + 1, dec)
  {
  }

  // ---------------------------------------------------------------- quiet timer

  /** The saturation value of upmodeturnoff. */
  const QuietLimit := 200

  /** One call of the quiet timer: any knob resets it; at 200 it expires (and stays at 200),
      otherwise it counts. The boolean says whether it expired. */
  function QuietStep(t: int, anyKnob: bool): (r: (int, bool))
    ensures 0 <= t <= QuietLimit ==> 1 <= r.0 <= QuietLimit
    ensures anyKnob ==> r == (1, false)
    ensures r.1 <==> !anyKnob && t == QuietLimit
  {
    var t0 := if anyKnob then 0 else t;
    if t0 == QuietLimit then (QuietLimit, true) else (t0 + 1, false)
  }

  /** The timer after n calls without a knob. */
  function QuietRun(t: int, n: nat): int
  {
    if n == 0 then t else QuietStep(QuietRun(t, n - 1), false).0
  }

  /** Without knob activity the timer climbs one per call and then sits at 200. */
  lemma {:induction false} QuietRunSaturates(t: int, n: nat)
    requires 0 <= t <= QuietLimit
    ensures QuietRun(t, n) == if t + n < QuietLimit then t + n else QuietLimit
  {
    if n > 0 {
      QuietRunSaturates(t, n - 1);
    }
  }
}
