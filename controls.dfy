/** The panel's controls, the input report's bit positions and the simulator commands. */
module Controls {
  import opened Bytes

  /** enum Buttons: the five per-half controls a handler reacts to. */
  datatype Button = CoarseUp | CoarseDown | FineUp | FineDown | ActiveStandby

  /** enum Mode: the radio a half-panel drives; Invalid stands for "no handler". */
  datatype Mode = Invalid | Com1 | Com2 | Nav1 | Nav2 | Adf | Dme | Xpdr

  datatype Option<T> = None | Some(value: T)

  /** The two stacked half-panels. */
  datatype Half = Upper | Lower

  /** The order in which Radio::update tests the mode-select buttons. */
  const Priority: seq<Mode> := [Com1, Com2, Nav1, Nav2, Adf, Dme, Xpdr]

  /** enum HIDButtons: bit positions in the input report. */
  const UpperFineUp := 23
  const UpperFineDn := 22
  const UpperCoarseUp := 21
  const UpperCoarseDn := 20
  const UpperCom1 := 7
  const UpperCom2 := 6
  const UpperNav1 := 5
  const UpperNav2 := 4
  const UpperAdf := 3
  const UpperDme := 2
  const UpperXpdr := 1
  const UpperActStby := 9
  const LowerFineUp := 19
  const LowerFineDn := 18
  const LowerCoarseUp := 17
  const LowerCoarseDn := 16
  const LowerCom1 := 0
  const LowerCom2 := 15
  const LowerNav1 := 14
  const LowerNav2 := 13
  const LowerAdf := 12
  const LowerDme := 11
  const LowerXpdr := 10
  const LowerActStby := 8

  /** Bit of the mode-select button for mode m on the given half. */
  function SelectorBit(half: Half, m: Mode): nat
    requires m != Invalid
  {
    match (half, m)
    case (Upper, Com1) => UpperCom1
    case (Upper, Com2) => UpperCom2
    case (Upper, Nav1) => UpperNav1
    case (Upper, Nav2) => UpperNav2
    case (Upper, Adf) => UpperAdf
    case (Upper, Dme) => UpperDme
    case (Upper, Xpdr) => UpperXpdr
    case (Lower, Com1) => LowerCom1
    case (Lower, Com2) => LowerCom2
    case (Lower, Nav1) => LowerNav1
    case (Lower, Nav2) => LowerNav2
    case (Lower, Adf) => LowerAdf
    case (Lower, Dme) => LowerDme
    case (Lower, Xpdr) => LowerXpdr
  }

  /** Bit of a knob direction or of the active/standby button on the given half. */
  function ControlBit(half: Half, b: Button): nat
  {
    match (half, b)
    case (Upper, CoarseUp) => UpperCoarseUp
    case (Upper, CoarseDown) => UpperCoarseDn
    case (Upper, FineUp) => UpperFineUp
    case (Upper, FineDown) => UpperFineDn
    case (Upper, ActiveStandby) => UpperActStby
    case (Lower, CoarseUp) => LowerCoarseUp
    case (Lower, CoarseDown) => LowerCoarseDn
    case (Lower, FineUp) => LowerFineUp
    case (Lower, FineDown) => LowerFineDn
    case (Lower, ActiveStandby) => LowerActStby
  }

  /** Every bit the panel reports lies in the first three bytes of the report. */
  lemma BitsInReport(half: Half, m: Mode, b: Button)
    requires m != Invalid
    ensures SelectorBit(half, m) < 24 && ControlBit(half, b) < 24
  {
  }

  /** Whether the report asserts the select button of mode m. */
  predicate Selected(buf: seq<byte>, half: Half, m: Mode)
    requires |buf| >= 3 && m != Invalid
  {
    TestBit(buf, SelectorBit(half, m))
  }

  /** Whether the report asserts the control b. */
  predicate Pressed(buf: seq<byte>, half: Half, b: Button)
    requires |buf| >= 3
  {
    TestBit(buf, ControlBit(half, b))
  }

  /** The knob directions and the active/standby button of one half, as read from a report. */
  datatype Knobs = Knobs(fineUp: bool, fineDn: bool, coarseUp: bool, coarseDn: bool, actStby: bool)
  {
    predicate AnyKnob() { fineUp || fineDn || coarseUp || coarseDn }
  }

  function KnobsOf(buf: seq<byte>, half: Half): (k: Knobs)
    requires |buf| >= 3
  {
    Knobs(Pressed(buf, half, FineUp), Pressed(buf, half, FineDown),
          Pressed(buf, half, CoarseUp), Pressed(buf, half, CoarseDown),
          Pressed(buf, half, ActiveStandby))
  }

  /** Simulator commands (XPLMCommandOnce). Digit places: 0 = ones, 1 = tens, 2 = hundreds, 3 = thousands. */
  datatype Command =
    | StbyStep(radio: Mode, knob: Button)   // sim/radios/stby_<radio>_{coarse,fine}_{up,down}
    | StandbyFlip(radio: Mode)              // sim/radios/<radio>_standy_flip
    | AdfStbyStep(adf: nat, place: nat, up: bool)
    | AdfFlip(adf: nat)
    | XpdrDigit(place: nat, up: bool)       // sim/transponder/transponder_<place>_{up,down}
    | BaroStep(up: bool)                    // sim/instruments/barometer_{up,down}
    | BaroStd
}
