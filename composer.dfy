/** The display composer of the procedural model (process_radio_upper_display and its lower
    twin, the nav/com frequency helpers, the power blanking and the message builder), as pure
    functions on the values the handlers stored. Digits are C ints until the message builder
    narrows them to bytes. */
module Composer {
  import opened Bytes
  import opened Controls
  import Encoder

  /** The blank digit code. */
  const B := 15
  /** Added to a digit to light its decimal point. */
  const Flag := 208

  /** Five display digits, left to right. */
  type Digits5 = d: seq<int> | |d| == 5 witness [0, 0, 0, 0, 0]

  /** The ten digits of one half: its left (active) and right (standby) windows. */
  datatype Windows = Windows(a: Digits5, b: Digits5)

  /** Lights the decimal point of position i. */
  function Flagged(d: Digits5, i: nat): (r: Digits5)
    requires i < 5
    ensures r[i] == d[i] + Flag && forall j :: 0 <= j < 5 && j != i ==> r[j] == d[j]
  {
    d[i := d[i] + Flag]
  }

  /** The five-digit chain `v/10000, r1/1000, r2/100, r3/10, r3%10` in C arithmetic. */
  function Five(v: int): (d: Digits5)
    ensures 0 <= v < 100000 ==> forall i :: 0 <= i < 5 ==> 0 <= d[i] <= 9
    ensures d[0] * 10000 + d[1] * 1000 + d[2] * 100 + d[3] * 10 + d[4] == v
  {
    Encoder.FiveDigitsInRange(if 0 <= v < 100000 then v else 0);
    Encoder.WeightedFiveDigits(v);
    Encoder.FiveDigits(v)
  }

  /** Five is the chain the source writes out. */
  lemma FiveIsCChain(v: int)
    ensures
      var r1 := CMod(v, 10000);
      var r2 := CMod(r1, 1000);
      var r3 := CMod(r2, 100);
      Five(v) == [CDiv(v, 10000), CDiv(r1, 1000), CDiv(r2, 100), CDiv(r3, 10), CMod(r3, 10)]
  {
    Encoder.FiveDigitsIsCChain(v);
  }

  /** Three digits behind two blanks: `15, 15, v/100, r/10, r%10` with r = v%100. */
  function Three(v: int): (d: Digits5)
  {
    var r := CMod(v, 100);
    [B, B, CDiv(v, 100), CDiv(r, 10), CMod(r, 10)]
  }

  /** Four digits behind one blank: `15, v/1000, r/100, s/10, s%10` with r = v%1000, s = r%100. */
  function Four(v: int): (d: Digits5)
  {
    var r := CMod(v, 1000);
    var s := CMod(r, 100);
    [B, CDiv(v, 1000), CDiv(r, 100), CDiv(s, 10), CMod(s, 10)]
  }

  /** For 0 <= v < 1000, Three shows two blanks and the three decimal digits of v. */
  lemma ThreeDigits(v: int)
    requires 0 <= v < 1000
    ensures Three(v)[0] == B && Three(v)[1] == B
    ensures forall i :: 2 <= i < 5 ==> 0 <= Three(v)[i] <= 9
    ensures Three(v)[2] * 100 + Three(v)[3] * 10 + Three(v)[4] == v
  {
    var r := v % 100;
    assert v == (v / 100) * 100 + r;
    assert r == (r / 10) * 10 + r % 10;
  }

  /** For 0 <= v < 10000, Four shows a blank and the four decimal digits of v. */
  lemma FourDigits(v: int)
    requires 0 <= v < 10000
    ensures Four(v)[0] == B
    ensures forall i :: 1 <= i < 5 ==> 0 <= Four(v)[i] <= 9
    ensures Four(v)[1] * 1000 + Four(v)[2] * 100 + Four(v)[3] * 10 + Four(v)[4] == v
  {
    var r := v % 1000;
    var s := r % 100;
    assert v == (v / 1000) * 1000 + r;
    assert r == (r / 100) * 100 + s;
    assert s == (s / 10) * 10 + s % 10;
  }

  // ---------------------------------------------------------------- per-mode windows

  /** process_{upper,lower}_nav_com_freq: both frequencies in five digits, the point after the
      third digit (lit between MHz and kHz). */
  function ComNavWindows(act: int, stby: int): (w: Windows)
    ensures w.a[2] == Five(act)[2] + Flag && w.b[2] == Five(stby)[2] + Flag
    ensures forall i :: 0 <= i < 5 && i != 2 ==> w.a[i] == Five(act)[i] && w.b[i] == Five(stby)[i]
  {
    Windows(Flagged(Five(act), 2), Flagged(Five(stby), 2))
  }

  /** The ADF windows: both frequencies in three digits; the standby window lights the point under
      the selected digit (1 ones, 2 tens, 3 hundreds, none above 3). No window is written for a
      selector below 1. */
  function AdfWindows(act: int, stby: int, sel: int): (w: Option<Windows>)
    ensures w.None? <==> sel < 1
    ensures w.Some? ==> w.value.a == Three(act)
    ensures 1 <= sel <= 3 ==> w.Some? && w.value.b == Flagged(Three(stby), 5 - sel)
    ensures sel > 3 ==> w.Some? && w.value.b == Three(stby)
  {
    if sel == 1 then Some(Windows(Three(act), Flagged(Three(stby), 4)))
    else if sel == 2 then Some(Windows(Three(act), Flagged(Three(stby), 3)))
    else if sel == 3 then Some(Windows(Three(act), Flagged(Three(stby), 2)))
    else if sel > 3 then Some(Windows(Three(act), Three(stby)))
    else None
  }

  /** DME mode 0: speed in three digits, distance (tenths) in five with the point before the
      tenths digit. */
  function DmeDistWindows(speed: int, distTenths: int): (w: Windows)
    ensures w.a == Three(speed) && w.b == Flagged(Five(distTenths), 3)
  {
    Windows(Three(speed), Flagged(Five(distTenths), 3))
  }

  /** DME mode 1: the tuned frequency with the point after the hundreds, then the time. */
  function DmeFreqWindows(freq: int, time: int): (w: Windows)
    ensures w.a == Flagged(Five(freq), 2) && w.b == Three(time)
  {
    Windows(Flagged(Five(freq), 2), Three(time))
  }

  /** DME mode 2: a speed and the time, three digits each. */
  function DmeTimeWindows(speed: int, time: int): (w: Windows)
    ensures w.a == Three(speed) && w.b == Three(time)
  {
    Windows(Three(speed), Three(time))
  }

  /** The barometer window: four digits, the point after the second digit unless the pressure is
      metric. */
  function BaroWindow(baro: int, metric: int): (d: Digits5)
    ensures d == if metric == 0 then Flagged(Four(baro), 2) else Four(baro)
  {
    if metric == 0 then Flagged(Four(baro), 2) else Four(baro)
  }

  /** The transponder windows with the function button released: the code lights the point under
      the selected digit (1 ones … 4 thousands). No window is written for a selector outside 1..4. */
  function XpdrWindows(baro: int, code: int, sel: int, metric: int): (w: Option<Windows>)
    ensures w.Some? <==> 1 <= sel <= 4
    ensures w.Some? ==> w.value == Windows(BaroWindow(baro, metric), Flagged(Four(code), 5 - sel))
  {
    if 1 <= sel <= 4 then Some(Windows(BaroWindow(baro, metric), Flagged(Four(code), 5 - sel)))
    else None
  }

  /** The transponder windows with the function button held: the barometer window's blank gets a
      point (the barometer is being set) and the code is shown plain. */
  function XpdrFnWindows(baro: int, code: int, metric: int): (w: Windows)
    ensures w.a[0] == B + Flag && w.a[1..] == BaroWindow(baro, metric)[1..]
    ensures w.b == Four(code)
  {
    Windows(BaroWindow(baro, metric)[0 := B + Flag], Four(code))
  }

  /** When the quiet timer has run out, the code window shows the transponder mode with a point:
      OFF on the blank, STBY, ON, ALT on the thousands, hundreds and tens digits. */
  function ModeMark(b: Digits5, mode: int): (r: Digits5)
    ensures mode == 0 ==> r == b[0 := B + Flag]
    ensures 1 <= mode <= 3 ==> r == Flagged(b, mode)
    ensures mode < 0 || mode > 3 ==> r == b
  {
    if mode == 0 then b[0 := B + Flag]
    else if 1 <= mode <= 3 then Flagged(b, mode)
    else b
  }

  /** Every window blank (selector 10). */
  const Dark := Windows([B, B, B, B, B], [B, B, B, B, B])

  // ---------------------------------------------------------------- power blanking

  /** The power datarefs process_radio_blank_display reads. */
  datatype Power = Power(av: int, bat: int, com1: int, com2: int, nav1: int, nav2: int)

  /** The COM/NAV "seen" flags of one half (upcom1, upcom2, upnav1, upnav2). */
  datatype Seen = Seen(com1: int, com2: int, nav1: int, nav2: int)

  /** process_radio_blank_display: the display selectors after the power checks. Avionics or
      battery off blank both halves; a radio whose power is off blanks a half that has ever served
      it, as the flag tests say: the COM2 test on the upper half selects 8 instead of 10, and the
      COM2 and NAV tests compare against 2, 3 and 4. */
  function BlankSelectors(p: Power, up: int, lo: int, su: Seen, sl: Seen): (r: (int, int))
  {
    var (u0, l0) := if p.av == 0 then (10, 10) else (up, lo);
    var (u1, l1) := if p.bat == 0 then (10, 10) else (u0, l0);
    var (u2, l2) := if p.com1 == 0 then (if su.com1 == 1 then 10 else u1, if sl.com1 == 1 then 10 else l1) else (u1, l1);
    var (u3, l3) := if p.com2 == 0 then (if su.com2 == 2 then 8 else u2, if sl.com2 == 2 then 10 else l2) else (u2, l2);
    var (u4, l4) := if p.nav1 == 0 then (if su.nav1 == 3 then 10 else u3, if sl.nav1 == 3 then 10 else l3) else (u3, l3);
    if p.nav2 == 0 then (if su.nav2 == 4 then 10 else u4, if sl.nav2 == 4 then 10 else l4) else (u4, l4)
  }

  /** The handlers only ever store 0 or 1 in a seen flag. */
  predicate Flags01(s: Seen)
  {
    (s.com1 == 0 || s.com1 == 1) && (s.com2 == 0 || s.com2 == 1) &&
    (s.nav1 == 0 || s.nav1 == 1) && (s.nav2 == 0 || s.nav2 == 1)
  }

  /** With the flags the handlers can produce, the COM2, NAV1 and NAV2 power tests never change a
      selector: switching those radios off does not blank the display. */
  lemma DeadPowerBranches(p: Power, up: int, lo: int, su: Seen, sl: Seen)
    requires Flags01(su) && Flags01(sl)
    ensures BlankSelectors(p, up, lo, su, sl) == BlankSelectors(p.(com2 := 1, nav1 := 1, nav2 := 1), up, lo, su, sl)
  {
  }

  /** Avionics or battery power off blanks both halves, whatever else holds. */
  lemma PowerOffBlanksBoth(p: Power, up: int, lo: int, su: Seen, sl: Seen)
    requires p.av == 0 || p.bat == 0
    requires Flags01(su) && Flags01(sl)
    ensures BlankSelectors(p, up, lo, su, sl) == (10, 10)
  {
  }

  /** COM1 power off blanks exactly the halves that have served COM1, and leaves the others. */
  lemma Com1PowerOff(p: Power, up: int, lo: int, su: Seen, sl: Seen)
    requires p.av != 0 && p.bat != 0 && p.com1 == 0
    requires Flags01(su) && Flags01(sl)
    ensures BlankSelectors(p, up, lo, su, sl) ==
            (if su.com1 == 1 then 10 else up, if sl.com1 == 1 then 10 else lo)
  {
  }

  // ---------------------------------------------------------------- message

  /** process_radio_make_message: byte 0 is 0, then the twenty digits narrowed to bytes, then
      the two trailing bytes of the 23-byte buffer, which nothing writes. */
  function Message(up: Windows, lo: Windows, tail: seq<byte>): (m: seq<byte>)
    requires |tail| == 2
    ensures |m| == 23 && m[0] == 0 && m[21..] == tail
    ensures forall i :: 0 <= i < 5 ==>
      m[1 + i] == ToByte(up.a[i]) && m[6 + i] == ToByte(up.b[i]) &&
      m[11 + i] == ToByte(lo.a[i]) && m[16 + i] == ToByte(lo.b[i])
  {
    [0] + Narrow(up.a) + Narrow(up.b) + Narrow(lo.a) + Narrow(lo.b) + tail
  }

  function Narrow(d: Digits5): (r: seq<byte>)
    ensures |r| == 5 && forall i :: 0 <= i < 5 ==> r[i] == ToByte(d[i])
  {
    [ToByte(d[0]), ToByte(d[1]), ToByte(d[2]), ToByte(d[3]), ToByte(d[4])]
  }

  /** A flagged digit 0..9 and the blank stay within a byte, so the message carries them exactly. */
  lemma FlaggedDigitFitsByte(d: int)
    requires 0 <= d <= 9 || d == B
    ensures ToByte(d + Flag) as int == d + Flag && ToByte(d) as int == d
  {
  }
}
