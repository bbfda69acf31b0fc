/** The count-domain and time-domain debounces shared by both models. */
module Debounce {
  import Bytes

  /** Every entry of Panel::debounceThreshold. */
  const Threshold := 2

  /** A counter after one asserted call, and whether the guarded action fired. */
  datatype Tick = Tick(count: int, fired: bool)

  /** Panel::handleRawButton for a knob: the counter is incremented and, once it reaches the
      threshold, the action fires and the counter is reset to 0. */
  function CountStep(count: int, threshold: int): (t: Tick)
    ensures 1 <= threshold && 0 <= count < threshold ==>
              0 <= t.count < threshold && (t.fired <==> count == threshold - 1)
  {
    if count + 1 >= threshold then Tick(0, true) else Tick(count + 1, false)
  }

  /** The procedural knob counters: incremented, and fire (then reset) once they exceed radspeed.
      This is the object model's counter with threshold radspeed + 1. */
  function RateStep(count: int, radspeed: int): (t: Tick)
    ensures t == CountStep(count, radspeed + 1)
  {
    if count + 1 > radspeed then Tick(0, true) else Tick(count + 1, false)
  }

  /** The fixed-interval counters (== 3): fire only when the incremented counter equals n.
      In range this is the threshold counter; a counter already at or past n never fires again. */
  function FixedStep(count: int, n: int): (t: Tick)
    ensures 0 <= count < n ==> t == CountStep(count, n)
    ensures count >= n ==> !t.fired && t.count == count + 1
  {
    if count + 1 == n then Tick(0, true) else Tick(count + 1, false)
  }

  /** The counter and the number of firings after `calls` consecutive asserted calls. */
  function CountRun(count: int, threshold: int, calls: nat): (int, nat)
    decreases calls
  {
    if calls == 0 then (count, 0)
    else
      var t := CountStep(count, threshold);
      var (c, n) := CountRun(t.count, threshold, calls - 1);
      (c, n + (if t.fired then 1 else 0))
  }

  lemma AddThresholdDivMod(x: nat, th: nat)
    requires th >= 1
    ensures (x + th) % th == x % th && (x + th) / th == x / th + 1
  {
    var q, r := x / th, x % th;
    assert x + th == (q + 1) * th + r;
    Bytes.DivUnique(x + th, th, q + 1, r);
  }

  /** A counter that starts in range fires once every `threshold` asserted calls: after n calls
      it has fired (count + n) / threshold times and holds (count + n) % threshold. */
  lemma {:induction false} CountRunPeriodic(count: int, threshold: int, calls: nat)
    requires 1 <= threshold && 0 <= count < threshold
    ensures CountRun(count, threshold, calls) == ((count + calls) % threshold, (count + calls) / threshold)
    decreases calls
  {
    if calls > 0 {
      var t := CountStep(count, threshold);
      CountRunPeriodic(t.count, threshold, calls - 1);
      if t.fired {
        AddThresholdDivMod(calls - 1, threshold);
        assert count + calls == (calls - 1) + threshold;
      }
    }
  }

  /** With the strict `> radspeed` comparison, radspeed + 1 asserted calls from rest fire exactly
      once, on the last of them, and leave the counter at rest again. */
  lemma RateFiresOnLastOfRadspeedPlusOne(radspeed: nat, calls: nat)
    requires calls <= radspeed + 1
    ensures CountRun(0, radspeed + 1, calls) == (if calls == radspeed + 1 then (0, 1) else (calls, 0))
  {
    CountRunPeriodic(0, radspeed + 1, calls);
    if calls == radspeed + 1 {
      Bytes.DivUnique(calls, radspeed + 1, 1, 0);
    } else {
      Bytes.DivUnique(calls, radspeed + 1, 0, calls);
    }
  }

  /** The time-domain debounce of ACTIVE_STANDBY: the press goes through only when more than 5
      time units passed since the previous press, and that press time is recorded either way. */
  datatype Gate = Gate(lastPressed: int, fired: bool)

  function TimeStep(lastPressed: int, t: int): Gate
  {
    Gate(t, t - lastPressed > 5)
  }

  /** Which of successive presses at times ts go through. */
  function TimeRun(lastPressed: int, ts: seq<int>): (fired: seq<bool>)
    ensures |fired| == |ts|
    decreases |ts|
  {
    if ts == [] then []
    else
      var g := TimeStep(lastPressed, ts[0]);
      [g.fired] + TimeRun(g.lastPressed, ts[1..])
  }

  /** A press goes through exactly when it comes more than 5 units after the press before it,
      whether or not that earlier press went through. */
  lemma {:induction false} TimeRunAt(lastPressed: int, ts: seq<int>, j: nat)
    requires j < |ts|
    ensures TimeRun(lastPressed, ts)[j] <==> ts[j] - (if j == 0 then lastPressed else ts[j - 1]) > 5
    decreases j
  {
    if j > 0 {
      TimeRunAt(ts[0], ts[1..], j - 1);
    }
  }

  /** Over a stretch of presses whose times do not fall, a press that goes through comes more
      than 5 units after every earlier press of the stretch. */
  lemma {:induction false} SpacingWhileRising(lastPressed: int, ts: seq<int>, i: nat, j: nat)
    requires i < j < |ts|
    requires forall k :: i < k <= j ==> ts[k - 1] <= ts[k]
    requires TimeRun(lastPressed, ts)[j]
    ensures ts[j] - ts[i] > 5
    decreases j - i
  {
    TimeRunAt(lastPressed, ts, j);
    if i < j - 1 {
      SpacingWhileRising(lastPressed, ts, i + 1, j);
    }
  }

  // ---------------------------------------------------------------- the clock of the gate

  /** A gettimeofday result: seconds and microseconds. */
  datatype WallTime = WallTime(sec: int, usec: int)

  predicate ValidTime(w: WallTime)
  {
    0 <= w.usec < 1000000
  }

  /** The wall clock in microseconds. */
  function Micros(w: WallTime): int
  {
    w.sec * 1000000 + w.usec
  }

  /** Successive press times as a running wall clock delivers them: valid and never falling. */
  predicate Forward(ws: seq<WallTime>)
  {
    (forall k :: 0 <= k < |ws| ==> ValidTime(ws[k])) &&
    (forall k :: 0 < k < |ws| ==> Micros(ws[k - 1]) <= Micros(ws[k]))
  }

  const Int32Min := -0x8000_0000
  const Int32Max := 0x7fff_ffff

  /** Storing a wider integer into a 32-bit `int`: the value modulo 2^32 read in two's complement,
      as GCC converts. */
  function ToInt32(x: int): (r: int)
    ensures Int32Min <= r <= Int32Max && (x - r) % 0x1_0000_0000 == 0
    ensures Int32Min <= x <= Int32Max ==> r == x
  {
    (x - Int32Min) % 0x1_0000_0000 + Int32Min
  }

  /** The value ToInt32 gives is the only 32-bit one congruent to x. */
  lemma ToInt32Unique(x: int, y: int)
    requires Int32Min <= y <= Int32Max && (x - y) % 0x1_0000_0000 == 0
    ensures ToInt32(x) == y
  {
    var r := ToInt32(x);
    var q := (x - y) / 0x1_0000_0000;
    var p := (x - r) / 0x1_0000_0000;
    assert x - y == q * 0x1_0000_0000;
    assert x - r == p * 0x1_0000_0000;
    assert r - y == (q - p) * 0x1_0000_0000;
    if q - p >= 1 {
      Bytes.MulAtLeast(q - p, 0x1_0000_0000);
    } else if q - p <= -1 {
      Bytes.MulAtLeast(p - q, 0x1_0000_0000);
    }
  }

  /** The time handleRawButton records, as written: `int t = tv_sec * 10 + tv_usec / 10000`, tenths
      of a second plus hundredths of a second, narrowed to a 32-bit int. While the clock fits
      (tv_sec below 214748355) the stamp of a second lies in 10 * tv_sec .. 10 * tv_sec + 99. */
  function Stamp(w: WallTime): (t: int)
    requires ValidTime(w)
    ensures Int32Min <= t <= Int32Max
    ensures 0 <= w.sec * 10 && w.sec * 10 + 99 <= Int32Max ==> w.sec * 10 <= t <= w.sec * 10 + 99
  {
    ToInt32(w.sec * 10 + w.usec / 10000)
  }

  /** The stamps of a second do not wrap past the 32-bit limit: all but one second in 429496729. */
  predicate NoWrapIn(sec: int)
  {
    ToInt32(sec * 10) + 99 <= Int32Max
  }

  /** In a second whose stamps do not wrap, the stamp is the narrowed second plus the hundredths. */
  lemma StampInSecond(w: WallTime)
    requires ValidTime(w) && NoWrapIn(w.sec)
    ensures Stamp(w) == ToInt32(w.sec * 10) + w.usec / 10000
  {
    var b := ToInt32(w.sec * 10);
    var d := w.usec / 10000;
    assert (w.sec * 10 + d) - (b + d) == w.sec * 10 - b;
    ToInt32Unique(w.sec * 10 + d, b + d);
  }

  /** Within a second whose stamps do not wrap, the stamp does not fall. */
  lemma StampRises(a: WallTime, b: WallTime)
    requires ValidTime(a) && ValidTime(b) && a.sec == b.sec && NoWrapIn(a.sec)
    requires Micros(a) <= Micros(b)
    ensures Stamp(a) <= Stamp(b)
  {
    StampInSecond(a);
    StampInSecond(b);
  }

  /** With today's clock the stamp is negative: 1600000000 s stamps as -1179869184, and the first
      ACT/STBY press of a fresh handler, whose switchLastPressed is 0, is refused. */
  lemma StampRefusesFirstPress()
    ensures Stamp(WallTime(1600000000, 0)) == -1179869184
    ensures TimeRun(0, [Stamp(WallTime(1600000000, 0))]) == [false]
  {
    ToInt32Unique(16000000000, -1179869184);
  }

  function Stamps(ws: seq<WallTime>): (ts: seq<int>)
    requires forall k :: 0 <= k < |ws| ==> ValidTime(ws[k])
    ensures |ts| == |ws| && forall k :: 0 <= k < |ws| ==> ts[k] == Stamp(ws[k])
  {
    seq(|ws|, k requires 0 <= k < |ws| => Stamp(ws[k]))
  }

  /** The stamp falls at every second boundary: at 12.99 s it is 219, at 13.50 s it is 180, so a
      press 0.51 s after the one before is refused. */
  lemma StampRefusesLatePress()
    ensures var ws := [WallTime(12, 990000), WallTime(13, 500000)];
      Forward(ws) && Micros(ws[1]) - Micros(ws[0]) > 500000 &&
      Stamps(ws) == [219, 180] && TimeRun(219, Stamps(ws)) == [false, false]
  {
    var ws := [WallTime(12, 990000), WallTime(13, 500000)];
    assert Stamps(ws) == [219, 180];
  }

  lemma {:induction false} SecondsRise(ws: seq<WallTime>, a: nat, b: nat)
    requires Forward(ws) && a <= b < |ws|
    ensures ws[a].sec <= ws[b].sec
    decreases b - a
  {
    if a < b {
      SecondsRise(ws, a + 1, b);
      assert Micros(ws[a]) <= Micros(ws[a + 1]);
    }
  }

  /** With the stamp as written, the gate holds within one second of the wall clock: a press that
      goes through comes more than 5 stamp units, and so more than 0.05 s, after every earlier
      press in the same second. Across a second boundary the stamp may fall, and then a later
      press can be refused (StampRefusesLatePress). */
  lemma TimeRunSpacing(lastPressed: int, ws: seq<WallTime>, i: nat, j: nat)
    requires Forward(ws) && i < j < |ws| && ws[i].sec == ws[j].sec && NoWrapIn(ws[i].sec)
    requires TimeRun(lastPressed, Stamps(ws))[j]
    ensures Stamps(ws)[j] - Stamps(ws)[i] > 5
    ensures ws[j].usec - ws[i].usec > 50000
  {
    var ts := Stamps(ws);
    forall k | i < k <= j
      ensures ts[k - 1] <= ts[k]
    {
      SecondsRise(ws, i, k - 1);
      SecondsRise(ws, k, j);
      StampRises(ws[k - 1], ws[k]);
    }
    StampInSecond(ws[i]);
    StampInSecond(ws[j]);
    SpacingWhileRising(lastPressed, ts, i, j);
  }

  /** The evidently intended time: tv_usec / 100000, whole tenths of a second. */
  function Tenths(w: WallTime): (t: int)
    requires ValidTime(w)
    ensures w.sec * 10 <= t <= w.sec * 10 + 9
    ensures Micros(w) - 100000 < t * 100000 <= Micros(w)
  {
    w.sec * 10 + w.usec / 100000
  }

  function TenthsOf(ws: seq<WallTime>): (ts: seq<int>)
    requires forall k :: 0 <= k < |ws| ==> ValidTime(ws[k])
    ensures |ts| == |ws| && forall k :: 0 <= k < |ws| ==> ts[k] == Tenths(ws[k])
  {
    seq(|ws|, k requires 0 <= k < |ws| => Tenths(ws[k]))
  }

  /** Whole tenths never fall while the wall clock runs forward. */
  lemma TenthsRise(a: WallTime, b: WallTime)
    requires ValidTime(a) && ValidTime(b) && Micros(a) <= Micros(b)
    ensures Tenths(a) <= Tenths(b)
  {
  }

  /** With tenths of a second, the gate is what the source evidently means: a press that goes
      through comes more than half a second after every earlier press, across second boundaries
      too. */
  lemma TenthsSpacing(lastPressed: int, ws: seq<WallTime>, i: nat, j: nat)
    requires Forward(ws) && i < j < |ws|
    requires TimeRun(lastPressed, TenthsOf(ws))[j]
    ensures TenthsOf(ws)[j] - TenthsOf(ws)[i] > 5
    ensures Micros(ws[j]) - Micros(ws[i]) > 500000
  {
    var ts := TenthsOf(ws);
    forall k | i < k <= j
      ensures ts[k - 1] <= ts[k]
    {
      TenthsRise(ws[k - 1], ws[k]);
    }
    SpacingWhileRising(lastPressed, ts, i, j);
  }

  /** With whole tenths in an unbounded integer, a fresh handler takes its first press at any
      time after the first second of the clock. */
  lemma TenthsFirstPress(w: WallTime)
    requires ValidTime(w) && w.sec >= 1
    ensures TimeRun(0, [Tenths(w)]) == [true]
  {
    assert TimeRun(0, [Tenths(w)]) == [TimeStep(0, Tenths(w)).fired] + TimeRun(Tenths(w), []);
  }

  /** The same two presses as in StampRefusesLatePress go through with tenths. */
  lemma TenthsAcceptLatePress()
    ensures var ws := [WallTime(12, 990000), WallTime(13, 500000)];
      TenthsOf(ws) == [129, 135] && TimeRun(129, TenthsOf(ws)) == [false, true]
  {
    var ws := [WallTime(12, 990000), WallTime(13, 500000)];
    assert TenthsOf(ws) == [129, 135];
  }

  /** The RadioPanel swap lockout: switchDebounce and switchDebounceThisRun. */
  datatype Swap = Swap(switchDebounce: int, thisRun: int)

  /** One update cycle of a RadioPanel: an ACTIVE_STANDBY press that passed the time gate fires the
      flip only when switchDebounce is 0 and then marks this run; update() moves the mark into
      switchDebounce and clears it. */
  function SwapCycle(s: Swap, accepted: bool): (Swap, bool)
  {
    var fire := accepted && s.switchDebounce == 0;
    var run := if fire then 1 else s.thisRun;
    (Swap(run, 0), fire)
  }

  /** Which of successive cycles fire the flip. */
  function SwapRun(s: Swap, accepted: seq<bool>): (fired: seq<bool>)
    ensures |fired| == |accepted|
    decreases |accepted|
  {
    if accepted == [] then []
    else
      var (s', f) := SwapCycle(s, accepted[0]);
      [f] + SwapRun(s', accepted[1..])
  }

  /** The flip never fires in two consecutive update cycles. */
  lemma {:induction false} NoSwapInConsecutiveCycles(s: Swap, accepted: seq<bool>, i: nat)
    requires i + 1 < |accepted|
    ensures !(SwapRun(s, accepted)[i] && SwapRun(s, accepted)[i + 1])
    decreases i
  {
    var (s', f) := SwapCycle(s, accepted[0]);
    if i > 0 {
      NoSwapInConsecutiveCycles(s', accepted[1..], i - 1);
    } else {
      assert f ==> s'.switchDebounce == 1;
      assert SwapRun(s', accepted[1..])[0] == SwapCycle(s', accepted[1]).1;
    }
  }
}
