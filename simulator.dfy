/** The flight simulator as the panel code sees it: a few writable datarefs, a log of the commands
    sent to it, and a snapshot of the read-only instrument values. */
module Simulator {
  import opened Controls

  /** The writable datarefs and the command log (XPLMCommandOnce / XPLMSetDatai). */
  class Sim {
    /** sim/cockpit/radios/transponder_mode */
    var xpdrMode: int
    /** sim/cockpit/radios/transponder_code */
    var xpdrCode: int
    /** sim/cockpit2/radios/actuators/DME_mode */
    var dmeMode: int
    /** sim/cockpit2/radios/actuators/DME_slave_source */
    var dmeSlave: int
    /** sim/cockpit2/radios/actuators/dme_frequency_hz */
    var dmeFreq: int
    /** sim/physics/metric_press */
    var metricPress: int
    /** Every command fired so far, oldest first. */
    var log: seq<Command>

    constructor(xpdrMode: int, xpdrCode: int, dmeMode: int, dmeSlave: int, dmeFreq: int)
      ensures this.xpdrMode == xpdrMode && this.xpdrCode == xpdrCode
      ensures this.dmeMode == dmeMode && this.dmeSlave == dmeSlave && this.dmeFreq == dmeFreq
      ensures metricPress == 0 && log == []
    {
      this.xpdrMode := xpdrMode;
      this.xpdrCode := xpdrCode;
      this.dmeMode := dmeMode;
      this.dmeSlave := dmeSlave;
      this.dmeFreq := dmeFreq;
      metricPress := 0;
      log := [];
    }

    /** XPLMCommandOnce. */
    method Fire(c: Command)
      modifies this`log
      ensures log == old(log) + [c]
    {
      log := log + [c];
    }
  }

  /** An active/standby frequency pair as the *_freq_hz and *_stdby_freq_hz datarefs report it. */
  datatype FreqPair = FreqPair(active: int, standby: int)

  /** One DME indicator block (sim/cockpit2/radios/indicators/<which>_dme_*), each float already
      scaled by 10 and truncated. DMEPanel::loadRefs stores the *_dme_time_min dataref under the
      name speedRef and *_dme_speed_kts under timeRef; the fields here are named after the
      dataref actually read. */
  datatype DmeIndicator = DmeIndicator(hasDme: int, distTenths: int, knotsTenths: int, minutesTenths: int)

  /** The read-only values of one cycle, already converted from floating point where the code
      truncates a float to int. */
  datatype Readings = Readings(
    com1: FreqPair, com2: FreqPair, nav1: FreqPair, nav2: FreqPair,
    adf1: FreqPair, adf2: FreqPair,
    /** XPDRPanel::update: barometer_setting * 100, truncated. */
    baroHundredths: int,
    /** DMEPanel's six indicator blocks: nav1, nav2, adf1, adf2, gps, dme. */
    dmeBlocks: seq<DmeIndicator>,
    /** The procedural model: (int) of the nav1/nav2 DME speed and (int) of ten times the distance. */
    nav1DmeSpeed: int, nav1DmeDistTenths: int,
    nav2DmeSpeed: int, nav2DmeDistTenths: int,
    /** The procedural model: (int) of the DME speed and of the DME time. */
    dmeSpeed: int, dmeTime: int,
    /** The procedural model: (int) of barometer_setting * 100.0, of barometer_setting * 33.8639,
        and of barometer_setting unscaled (the metric switch set to neither 0 nor 1). */
    baroInHgHundredths: int, baroHpa: int, baroRaw: int,
    /** Power datarefs: avionics, battery, and each radio. */
    avPower: int, batPower: int, com1Power: int, com2Power: int, nav1Power: int, nav2Power: int)
  {
    /** The frequency pair RadioPanel::update reads for a COM/NAV mode. */
    function RadioFreq(m: Mode): FreqPair
      requires m in {Com1, Com2, Nav1, Nav2}
    {
      match m
      case Com1 => com1
      case Com2 => com2
      case Nav1 => nav1
      case Nav2 => nav2
    }
  }
}
