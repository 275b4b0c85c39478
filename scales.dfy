/** The scale registry of the HY3131 measurement engine (Core/Src/dmm.c):
  * one row per measuring range with its mode, full-scale range, relay byte,
  * register image R20..R33 and raw-to-unit multiplier, and the pure queries
  * over it (index check, mode/range lookup, mode families, unit prefixes). */
module Scales {
  import opened Common

  /** The measurement modes, declared in the order of the mode enum. */
  datatype Mode = Resistance | Resistance4W | DCVoltage | ACVoltage | DCCurrent
                | ACCurrent | Capacitance | Frequency | Temperature | Continuity | Diode

  /** The mode enum value; `DmmIllegal` is -1. */
  function ModeCode(m: Mode): (c: int)
    ensures 0 <= c <= 10
  {
    match m
    case Resistance => 0
    case Resistance4W => 1
    case DCVoltage => 2
    case ACVoltage => 3
    case DCCurrent => 4
    case ACCurrent => 5
    case Capacitance => 6
    case Frequency => 7
    case Temperature => 8
    case Continuity => 9
    case Diode => 10
  }

  const MODE_ILLEGAL: int := -1

  /** The mode a mode-enum value names, if any. */
  function ModeOfCode(c: int): (m: Option<Mode>)
    ensures m.Some? <==> 0 <= c <= 10
    ensures m.Some? ==> ModeCode(m.value) == c
  {
    if c == 0 then Some(Resistance)
    else if c == 1 then Some(Resistance4W)
    else if c == 2 then Some(DCVoltage)
    else if c == 3 then Some(ACVoltage)
    else if c == 4 then Some(DCCurrent)
    else if c == 5 then Some(ACCurrent)
    else if c == 6 then Some(Capacitance)
    else if c == 7 then Some(Frequency)
    else if c == 8 then Some(Temperature)
    else if c == 9 then Some(Continuity)
    else if c == 10 then Some(Diode)
    else None
  }

  lemma ModeCodeRoundTrip(m: Mode)
    ensures ModeOfCode(ModeCode(m)) == Some(m)
  {
  }

  /** Scale enum values used by the firmware. */
  const SCALE_ILLEGAL: int := -1
  const SCALE_DC_50mV: int := 0
  const SCALE_DC_50V: int := 3
  const SCALE_DC_1kV: int := 5
  const SCALE_AC_500mV: int := 6
  const SCALE_AC_50V: int := 8
  const SCALE_AC_750V: int := 10
  const SCALE_DC_500uA: int := 11
  const SCALE_DC_50mA: int := 13
  const SCALE_DC_10A: int := 16
  const SCALE_AC_500uA: int := 17
  const SCALE_AC_50mA: int := 19
  const SCALE_AC_10A: int := 22
  const SCALE_50_Ohm: int := 23
  const SCALE_500_Ohm: int := 24
  const SCALE_50_MOhm: int := 29
  const SCALE_4W_500_Ohm: int := 30
  const SCALE_4W_50_kOhm: int := 32
  const SCALE_50_nF: int := 33
  const SCALE_5_uF: int := 35
  const SCALE_500_uF: int := 37
  const SCALE_5_mF: int := 38
  const SCALE_50_mF: int := 39
  const SCALE_FREQ: int := 40
  const SCALE_TEMP: int := 41
  const SCALE_CONT: int := 42
  const SCALE_DIODE: int := 43
  const DMM_CNTSCALES: int := 44
  const SCALE_AUTO: int := 45
  const SCALE_UP: int := 46
  const SCALE_DOWN: int := 47
  const SCALE_ALT: int := 48

  /* The scale registry `dmmcfg[]` of dmm.c, stored column by column: entry
     `i` of each column belongs to scale `i` of the scale enum. */

  /** The measurement mode of each scale. */
  const Modes: seq<Mode> :=
    [
      DCVoltage, DCVoltage, DCVoltage, DCVoltage, DCVoltage, DCVoltage,
      ACVoltage, ACVoltage, ACVoltage, ACVoltage, ACVoltage, DCCurrent,
      DCCurrent, DCCurrent, DCCurrent, DCCurrent, DCCurrent, ACCurrent,
      ACCurrent, ACCurrent, ACCurrent, ACCurrent, ACCurrent, Resistance,
      Resistance, Resistance, Resistance, Resistance, Resistance, Resistance,
      Resistance4W, Resistance4W, Resistance4W, Capacitance, Capacitance, Capacitance,
      Capacitance, Capacitance, Capacitance, Capacitance, Frequency, Temperature,
      Continuity, Diode
    ]

  /** The full-scale value of each scale. */
  const Ranges: seq<real> :=
    [
      0.05, 0.5, 5.0, 50.0, 500.0, 1000.0,
      0.5, 5.0, 50.0, 500.0, 1000.0, 0.0005,
      0.005, 0.05, 0.5, 5.0, 10.0, 0.0005,
      0.005, 0.05, 0.5, 5.0, 10.0, 50.0,
      500.0, 5000.0, 50000.0, 500000.0, 5000000.0, 50000000.0,
      500.0, 5000.0, 50000.0, 0.00000005, 0.0000005, 0.000005,
      0.00005, 0.0005, 0.005, 0.05, 1.0, 1.0,
      500.0, 3.0
    ]

  /** The front-end switch pattern of each scale. */
  const Switches: seq<Byte> :=
    [
      0x11, 0x11, 0x31, 0x31, 0x31, 0x31,
      0x11, 0x31, 0x31, 0x31, 0x31, 0x30,
      0x30, 0x32, 0x32, 0x39, 0x39, 0x30,
      0x30, 0x32, 0x32, 0x39, 0x39, 0x15,
      0x15, 0x15, 0x15, 0x15, 0x15, 0x15,
      0x15, 0x15, 0x15, 0x15, 0x15, 0x15,
      0x15, 0x15, 0x15, 0x15, 0x05, 0x11,
      0x15, 0x15
    ]

  /** The 20 configuration bytes written to registers 0x20..0x33 for each scale. */
  const Configs: seq<seq<Byte>> :=
    [
      [0xC2, 0x21, 0x14, 0x8B, 0x35, 0x11, 0x08, 0x15, 0x31, 0xF8, 0x00, 0x00, 0x00, 0x00, 0x08, 0x81, 0x80, 0xC7, 0x3C, 0xA8], // 0: 50 mV DC
      [0xC2, 0x21, 0x14, 0x8B, 0x85, 0x11, 0x08, 0x15, 0x31, 0xF8, 0x00, 0x00, 0x00, 0x00, 0x08, 0x81, 0x80, 0xC7, 0x33, 0xA8], // 1: 500 mV DC
      [0xC2, 0x21, 0x14, 0x8B, 0x01, 0x11, 0x08, 0x15, 0x31, 0xF8, 0x20, 0x00, 0x00, 0x90, 0x28, 0xA0, 0x80, 0xC7, 0x33, 0xA8], // 2: 5 V DC
      [0xC2, 0x21, 0x14, 0x8B, 0x01, 0x11, 0x08, 0x15, 0x31, 0xF8, 0x20, 0x00, 0x00, 0x09, 0x28, 0xA0, 0x80, 0xC7, 0x33, 0xA8], // 3: 50 V DC
      [0xC2, 0x21, 0x14, 0x8B, 0x01, 0x11, 0x08, 0x15, 0x31, 0xF8, 0x20, 0x00, 0x90, 0x00, 0x28, 0xA0, 0x80, 0xC7, 0x33, 0xA8], // 4: 500 V DC
      [0xC2, 0x21, 0x14, 0x8B, 0x09, 0x01, 0x08, 0x15, 0x31, 0xF8, 0x20, 0x00, 0x90, 0x00, 0x28, 0xA0, 0x80, 0xC7, 0x33, 0xA8], // 5: 1kV DC
      [0xC2, 0x21, 0x00, 0x00, 0x45, 0x00, 0x88, 0x15, 0x31, 0xF8, 0x00, 0x00, 0x00, 0x00, 0x08, 0x91, 0x80, 0xC7, 0x3C, 0xA0], // 6: 500 mV AC
      [0xC2, 0x21, 0x00, 0x00, 0x4D, 0x00, 0x88, 0x15, 0x31, 0xF8, 0x22, 0x00, 0x00, 0xD0, 0x88, 0xA0, 0xE9, 0xC7, 0x38, 0x20], // 7: 5 V AC
      [0xC2, 0x21, 0x00, 0x00, 0x4D, 0x00, 0x88, 0x15, 0x31, 0xF8, 0x22, 0x00, 0x00, 0x09, 0x28, 0xA0, 0xFF, 0xC7, 0x38, 0x20], // 8: 50 V AC
      [0xC2, 0x21, 0x00, 0x00, 0x4D, 0x00, 0x88, 0x15, 0x31, 0xF8, 0x22, 0x00, 0x90, 0x00, 0x28, 0xA0, 0x80, 0xC7, 0x38, 0x20], // 9: 500 V AC
      [0xC2, 0x21, 0x00, 0x00, 0x4D, 0x00, 0x88, 0x15, 0x31, 0xF8, 0x22, 0x00, 0x90, 0x00, 0x28, 0xA0, 0x80, 0xC7, 0x38, 0x20], // 10: 750 V AC
      [0xC2, 0x21, 0x14, 0x8B, 0x35, 0x11, 0x08, 0x15, 0x11, 0xF8, 0x00, 0x00, 0x00, 0x00, 0x00, 0xA0, 0x80, 0xC7, 0x3D, 0xAC], // 11: 500uA DC
      [0xC2, 0x21, 0x14, 0x8B, 0x95, 0x11, 0x08, 0x15, 0x11, 0xF8, 0x00, 0x00, 0x00, 0x00, 0x00, 0xA0, 0x80, 0xC7, 0x33, 0xAC], // 12: 5mA DC
      [0xC2, 0x21, 0x14, 0x8B, 0x35, 0x11, 0x08, 0x15, 0x11, 0xF8, 0x00, 0x00, 0x00, 0x00, 0x00, 0xA0, 0x80, 0xC7, 0x3D, 0xAC], // 13: 50mA DC
      [0xC2, 0x21, 0x14, 0x8B, 0x95, 0x11, 0x08, 0x15, 0x11, 0xF8, 0x00, 0x00, 0x00, 0x00, 0x00, 0xA0, 0x80, 0xC7, 0x33, 0xAC], // 14: 500mA DC
      [0xC2, 0x21, 0x14, 0x8B, 0x35, 0x11, 0x08, 0x15, 0x11, 0xF8, 0x00, 0x00, 0x00, 0x00, 0x00, 0xA0, 0x80, 0xC7, 0x3D, 0xAC], // 15: 5 A DC
      [0xC2, 0x21, 0x14, 0x8B, 0x35, 0x01, 0x08, 0x15, 0x11, 0xF8, 0x00, 0x00, 0x00, 0x00, 0x00, 0xA0, 0x80, 0xC7, 0x3D, 0xAC], // 16: 10 A DC
      [0xC2, 0x21, 0x12, 0x00, 0x45, 0x01, 0x88, 0x15, 0x31, 0xF8, 0x00, 0x00, 0x00, 0x00, 0x00, 0xA0, 0x80, 0xC7, 0x3D, 0x20], // 17: 500 uA AC
      [0xC2, 0x21, 0x12, 0x00, 0x45, 0x00, 0x88, 0x15, 0x31, 0xF8, 0x00, 0x00, 0x00, 0x00, 0x00, 0xA0, 0x80, 0xC7, 0x3D, 0xA0], // 18: 5 mA AC
      [0xC2, 0x21, 0x12, 0x00, 0x45, 0x01, 0x88, 0x15, 0x31, 0xF8, 0x00, 0x00, 0x00, 0x00, 0x00, 0xA0, 0x80, 0xC7, 0x3D, 0x20], // 19: 50 mA AC
      [0xC2, 0x21, 0x12, 0x00, 0x45, 0x00, 0x88, 0x15, 0x31, 0xF8, 0x00, 0x00, 0x00, 0x00, 0x00, 0xA0, 0x80, 0xC7, 0x3D, 0xA0], // 20: 500 mA AC
      [0xC2, 0x21, 0x12, 0x00, 0x45, 0x01, 0x88, 0x15, 0x31, 0xF8, 0x00, 0x00, 0x00, 0x00, 0x00, 0xA0, 0x80, 0xC7, 0x3D, 0x20], // 21: 5 A AC
      [0xC2, 0x21, 0x12, 0x00, 0x45, 0x00, 0x88, 0x15, 0x31, 0xF8, 0x00, 0x00, 0x00, 0x00, 0x00, 0xA0, 0x80, 0xC7, 0x3D, 0xA0], // 22: 10 A AC
      [0x76, 0x62, 0x13, 0x83, 0x85, 0x01, 0x08, 0x15, 0x00, 0xF8, 0x00, 0x40, 0x06, 0x00, 0x00, 0x94, 0x80, 0xD2, 0x3F, 0xAC], // 23: 50 Ohm
      [0xC2, 0x21, 0x14, 0x83, 0x85, 0x01, 0x08, 0x15, 0x00, 0xF8, 0x00, 0x00, 0x06, 0x00, 0x00, 0x94, 0x80, 0xD2, 0x3F, 0xAC], // 24: 500 Ohm
      [0xC2, 0x21, 0x14, 0x83, 0x85, 0x01, 0x08, 0x15, 0x00, 0xF8, 0x00, 0x00, 0x60, 0x00, 0x00, 0x94, 0x80, 0xD3, 0x3F, 0xAC], // 25: 5 kOhm
      [0xC2, 0x21, 0x14, 0x83, 0x85, 0x01, 0x08, 0x15, 0x00, 0xF8, 0x00, 0x00, 0x00, 0x06, 0x00, 0x94, 0x80, 0xD3, 0x3F, 0xAC], // 26: 50 kOhm
      [0xC2, 0x21, 0x14, 0x83, 0x85, 0x01, 0x08, 0x15, 0x00, 0xF8, 0x00, 0x00, 0x00, 0x60, 0x00, 0x94, 0x80, 0xD3, 0x3F, 0xAC], // 27: 500 kOhm
      [0xC2, 0x21, 0x14, 0x93, 0x85, 0x01, 0x08, 0x15, 0x55, 0xF8, 0x00, 0x00, 0x00, 0x80, 0x00, 0x86, 0x80, 0xD1, 0x3F, 0xAC], // 28: 5 MOhm
      [0xC2, 0x21, 0x14, 0x93, 0x85, 0x01, 0x08, 0x15, 0x55, 0xF8, 0x00, 0x08, 0x00, 0x00, 0x00, 0x86, 0x80, 0xD1, 0x3F, 0xAC], // 29: 50 MOhm
      [0xC2, 0x21, 0x14, 0x83, 0xA7, 0x01, 0x08, 0x15, 0x00, 0xF8, 0x00, 0x00, 0x06, 0x00, 0x00, 0x94, 0x80, 0xD2, 0x3F, 0xAC], // 30: 500 Ohm
      [0xC2, 0x21, 0x14, 0x83, 0xA7, 0x01, 0x08, 0x15, 0x00, 0xF8, 0x00, 0x00, 0x60, 0x00, 0x00, 0x94, 0x80, 0xD3, 0x3F, 0xAC], // 31: 5 kOhm
      [0xC2, 0x21, 0x14, 0x83, 0xA7, 0x01, 0x08, 0x15, 0x00, 0xF8, 0x00, 0x00, 0x00, 0x06, 0x00, 0x94, 0x80, 0xD3, 0x3F, 0xAC], // 32: 50 kOhm
      [0x72, 0x21, 0x14, 0x8B, 0x01, 0x11, 0x08, 0x15, 0x31, 0xF8, 0x00, 0x00, 0x00, 0x08, 0x00, 0x9A, 0x80, 0xD7, 0x33, 0xA8], // 33: 50nF (Read Mode I)
      [0x72, 0x21, 0x14, 0x8B, 0x01, 0x11, 0x08, 0x15, 0x31, 0xF8, 0x00, 0x00, 0x00, 0x08, 0x00, 0x9A, 0x80, 0xD7, 0x33, 0xA8], // 34: 500nF
      [0x72, 0x21, 0x14, 0x8B, 0x01, 0x11, 0x08, 0x15, 0x31, 0xF8, 0x00, 0x00, 0x00, 0x08, 0x00, 0x9A, 0x80, 0xD7, 0x33, 0xA8], // 35: 5uF
      [0x72, 0x21, 0x14, 0x8B, 0x01, 0x11, 0x08, 0x15, 0x31, 0xF8, 0x00, 0x00, 0x00, 0x08, 0x00, 0x9A, 0x80, 0xD7, 0x33, 0xA8], // 36: 50uF
      [0x72, 0x21, 0x14, 0x8B, 0x01, 0x11, 0x08, 0x15, 0x31, 0xF8, 0x00, 0x00, 0x00, 0x08, 0x00, 0x9A, 0x80, 0xD7, 0x33, 0xA8], // 37: 500uF
      [0xC0, 0x21, 0x07, 0x93, 0x85, 0x11, 0x08, 0x15, 0x55, 0xF8, 0x80, 0x00, 0x08, 0x00, 0x00, 0x86, 0x80, 0xD1, 0x33, 0xAC], // 38: 5mF (Read Mode II)
      [0x70, 0xDE, 0x07, 0x93, 0x85, 0x11, 0x08, 0x15, 0x55, 0xF8, 0x80, 0x00, 0x08, 0x00, 0x00, 0x8F, 0x80, 0xDA, 0x33, 0xAC], // 39: 50mF
      [0xC8, 0xDE, 0x07, 0x93, 0x85, 0x11, 0x08, 0x15, 0x55, 0xF8, 0x00, 0x00, 0x00, 0x00, 0x00, 0x80, 0x80, 0xD7, 0x33, 0xAC], // 40: Frequency
      [0xC2, 0xDE, 0x14, 0x8B, 0x85, 0x11, 0x08, 0x15, 0x31, 0xF8, 0x00, 0x00, 0x00, 0x00, 0x08, 0x81, 0x80, 0xC7, 0x33, 0xA8], // 41: Temperature
      [0x76, 0x62, 0x13, 0x83, 0x85, 0x01, 0x08, 0x15, 0x00, 0xF8, 0x00, 0x40, 0x06, 0x00, 0x00, 0x94, 0x80, 0xD2, 0x3F, 0xAC], // 42: Continuity
      [0x12, 0x62, 0x13, 0x8B, 0x8D, 0x11, 0x08, 0x15, 0x11, 0xF8, 0x00, 0x00, 0x08, 0x00, 0x00, 0x86, 0x80, 0xE2, 0x33, 0xAC] // 43: Diode
    ]

  /** The factor turning a raw reading of each scale into its unit. */
  const Muls: seq<real> :=
    [
      0.125 / 1.8 / 8388608.0, // 0: 50 mV DC
      1.25 / 1.8 / 8388608.0, // 1: 500 mV DC
      12.5 / 1.8 / 8388608.0, // 2: 5 V DC
      125.0 / 1.8 / 8388608.0, // 3: 50 V DC
      1250.0 / 1.8 / 8388608.0, // 4: 500 V DC
      1250.0 / 0.9 / 8388608.0, // 5: 1kV DC
      0.00001, // 6: 500 mV AC
      0.0001, // 7: 5 V AC
      0.001, // 8: 50 V AC
      0.01, // 9: 500 V AC
      0.1, // 10: 750 V AC
      0.00125 / 1.8 / 8388608.0, // 11: 500uA DC
      0.0125 / 1.8 / 8388608.0, // 12: 5mA DC
      0.125 / 1.8 / 8388608.0, // 13: 50mA DC
      1.25 / 1.8 / 8388608.0, // 14: 500mA DC
      12.5 / 1.8 / 8388608.0, // 15: 5 A DC
      12.5 / 0.9 / 8388608.0, // 16: 10 A DC
      0.00000001 / 1.08, // 17: 500 uA AC
      0.0000001 / 2.16, // 18: 5 mA AC
      0.000001 / 1.08, // 19: 50 mA AC
      0.00001 / 2.16, // 20: 500 mA AC
      0.0001 / 1.08, // 21: 5 A AC
      0.0001 / 2.16, // 22: 10 A AC
      1000.0 / 0.9 / 8388608.0, // 23: 50 Ohm
      1000.0 / 0.9 / 8388608.0, // 24: 500 Ohm
      10000.0 / 0.9 / 8388608.0, // 25: 5 kOhm
      100000.0 / 0.9 / 8388608.0, // 26: 50 kOhm
      600000.0 / 0.9 / 8388608.0, // 27: 500 kOhm
      6000000.0 / 0.9 / 8388608.0, // 28: 5 MOhm
      60000000.0 / 0.9 / 8388608.0, // 29: 50 MOhm
      1000.0 / 0.9 / 8388608.0, // 30: 500 Ohm
      10000.0 / 0.9 / 8388608.0, // 31: 5 kOhm
      100000.0 / 0.9 / 8388608.0, // 32: 50 kOhm
      0.00001, // 33: 50nF (Read Mode I)
      0.00001, // 34: 500nF
      0.00001, // 35: 5uF
      0.00001, // 36: 50uF
      0.00001, // 37: 500uF
      0.00001, // 38: 5mF (Read Mode II)
      0.00001, // 39: 50mF
      1.0, // 40: Frequency
      1.25 / 1.8 / 8388608.0, // 41: Temperature
      1000.0 / 0.9 / 8388608.0, // 42: Continuity
      0.000001 / 1.08 // 43: Diode
    ]

  /** The range labels, one per scale. */
  const Labels: seq<string> :=
    [ "DC 50mV", "DC 500mV", "DC 5V", "DC 50V", "DC 500V", "DC 1kV",
      "AC 500mV", "AC 5V", "AC 50V", "AC 500V", "AC 750V",
      "DC 500uA", "DC 5mA", "DC 50mA", "DC 500mA", "DC 5A", "DC 10A",
      "AC 500uA", "AC 5mA", "AC 50mA", "AC 500mA", "AC 5A", "AC 10A",
      "50 Ohm", "500 Ohm", "5 kOhm", "50 kOhm", "500 kOhm", "5 MOhm", "50 MOhm",
      "500 Ohm 4W", "5 kOhm 4W", "50 kOhm 4W",
      "50 nF", "500 nF", "5 uF", "50 uF", "500 uF",
      "5 mF", "50 mF",
      "FREQ",
      "TEMP",
      "Continuity",
      "Diode" ]

  predicate ValidIndex(idx: int) { 0 <= idx < DMM_CNTSCALES }

  /** `DMM_ERR_CheckIdxCalib`. */
  function CheckIdx(idx: int): (e: Err)
    ensures e == SUCCESS <==> 0 <= idx < |Modes|
    ensures e != SUCCESS ==> e == DMM_IDXCONFIG
  {
    if 0 <= idx < DMM_CNTSCALES then SUCCESS else DMM_IDXCONFIG
  }

  /** `DMM_GetMode`: the mode enum value of a scale, -1 for an invalid index. */
  function GetMode(idx: int): (m: int)
    ensures m == MODE_ILLEGAL <==> !ValidIndex(idx)
    ensures ValidIndex(idx) ==> ModeOfCode(m) == Some(Modes[idx])
  {
    if CheckIdx(idx) != SUCCESS then MODE_ILLEGAL else ModeCode(Modes[idx])
  }

  /** `DMM_GetRange`: the full-scale range, 0.0 for an invalid index. */
  function GetRange(idx: int): (r: real)
    ensures r > 0.0 <==> ValidIndex(idx)
    ensures !ValidIndex(idx) ==> r == 0.0
  {
    if CheckIdx(idx) != SUCCESS then 0.0 else Ranges[idx]
  }

  predicate HasMode(idx: int, m: Mode) { ValidIndex(idx) && Modes[idx] == m }

  /** `DMM_FACScale`. */
  predicate IsAC(idx: int)
    ensures IsAC(idx) ==> ValidIndex(idx)
  {
    CheckIdx(idx) == SUCCESS && (Modes[idx] == ACVoltage || Modes[idx] == ACCurrent)
  }

  /** `DMM_FDCScale`. */
  predicate IsDC(idx: int)
    ensures IsDC(idx) ==> ValidIndex(idx)
  {
    CheckIdx(idx) == SUCCESS && (Modes[idx] == DCVoltage || Modes[idx] == DCCurrent)
  }

  /** `DMM_FResistorScale`: two-wire, four-wire and continuity. */
  predicate IsResistor(idx: int)
    ensures IsResistor(idx) ==> ValidIndex(idx)
  {
    CheckIdx(idx) == SUCCESS
    && (Modes[idx] == Resistance || Modes[idx] == Resistance4W || Modes[idx] == Continuity)
  }

  /** `DMM_FCapacitanceScale`. */
  predicate IsCapacitance(idx: int)
    ensures IsCapacitance(idx) ==> ValidIndex(idx)
  {
    CheckIdx(idx) == SUCCESS && Modes[idx] == Capacitance
  }

  /** `DMM_FDiodeScale`. */
  predicate IsDiode(idx: int)
    ensures IsDiode(idx) ==> ValidIndex(idx)
  {
    CheckIdx(idx) == SUCCESS && Modes[idx] == Diode
  }

  /** `DMM_FContinuityScale`. */
  predicate IsContinuity(idx: int)
    ensures IsContinuity(idx) ==> ValidIndex(idx)
  {
    CheckIdx(idx) == SUCCESS && Modes[idx] == Continuity
  }

  /** The first and last scale of each mode, as the scale enum lists them. */
  function FirstScale(m: Mode): int
  {
    match m
    case DCVoltage => SCALE_DC_50mV
    case ACVoltage => SCALE_AC_500mV
    case DCCurrent => SCALE_DC_500uA
    case ACCurrent => SCALE_AC_500uA
    case Resistance => SCALE_50_Ohm
    case Resistance4W => SCALE_4W_500_Ohm
    case Capacitance => SCALE_50_nF
    case Frequency => SCALE_FREQ
    case Temperature => SCALE_TEMP
    case Continuity => SCALE_CONT
    case Diode => SCALE_DIODE
  }

  function LastScale(m: Mode): int
  {
    match m
    case DCVoltage => SCALE_DC_1kV
    case ACVoltage => SCALE_AC_750V
    case DCCurrent => SCALE_DC_10A
    case ACCurrent => SCALE_AC_10A
    case Resistance => SCALE_50_MOhm
    case Resistance4W => SCALE_4W_50_kOhm
    case Capacitance => SCALE_50_mF
    case Frequency => SCALE_FREQ
    case Temperature => SCALE_TEMP
    case Continuity => SCALE_CONT
    case Diode => SCALE_DIODE
  }

  /** Every column of the registry and the label list have one entry per
    * scale, and each configuration carries the twenty register bytes R20..R33. */
  lemma TableShape()
    ensures |Modes| == DMM_CNTSCALES && |Labels| == DMM_CNTSCALES
    ensures |Ranges| == DMM_CNTSCALES && |Switches| == DMM_CNTSCALES
    ensures |Configs| == DMM_CNTSCALES && |Muls| == DMM_CNTSCALES
    ensures forall i :: 0 <= i < |Configs| ==> |Configs[i]| == 20
  {
  }

  /** Rows are grouped by mode: scale `idx` has mode `m` exactly when it lies
    * between the first and last scale the scale enum lists for `m`. */
  lemma ModeBlocks(idx: int, m: Mode)
    requires ValidIndex(idx)
    ensures Modes[idx] == m <==> FirstScale(m) <= idx <= LastScale(m)
  {
    var own := Modes[idx];
    if idx < 22 {
      OwnBlockLow(idx);
    } else {
      OwnBlockHigh(idx);
    }
    if own != m {
      BlocksDisjoint(own, m);
    }
  }

  lemma OwnBlockLow(idx: int)
    requires 0 <= idx < 22
    ensures FirstScale(Modes[idx]) <= idx <= LastScale(Modes[idx])
  {
  }

  lemma OwnBlockHigh(idx: int)
    requires 22 <= idx < DMM_CNTSCALES
    ensures FirstScale(Modes[idx]) <= idx <= LastScale(Modes[idx])
  {
  }

  /** Within one mode the full-scale ranges strictly increase. */
  lemma RangesIncrease(i: int)
    requires 0 <= i && i + 1 < DMM_CNTSCALES
    requires Modes[i] == Modes[i + 1]
    ensures Ranges[i] < Ranges[i + 1]
  {
    var m := Modes[i];
    ModeBlocks(i, m);
    ModeBlocks(i + 1, m);
    if i < 22 {
      RangesStepLow(i);
    } else {
      RangesStepHigh(i);
    }
  }

  /** Across a whole mode block the ranges strictly increase, so no two
    * scales of one mode share a full-scale range. */
  lemma RangesIncreaseWithinMode(i: int, j: int)
    requires 0 <= i < j < DMM_CNTSCALES && Modes[i] == Modes[j]
    ensures Ranges[i] < Ranges[j]
  {
    var m := Modes[i];
    ModeBlocks(i, m);
    ModeBlocks(j, m);
    RangesIncreaseInBlock(m, i, j);
  }

  lemma {:induction false} RangesIncreaseInBlock(m: Mode, i: int, j: int)
    requires FirstScale(m) <= i < j <= LastScale(m)
    ensures Ranges[i] < Ranges[j]
    decreases j - i
  {
    StepInBlock(m, i);
    if i + 1 < j {
      RangesIncreaseInBlock(m, i + 1, j);
    }
  }

  /** Two neighbours inside one mode block. */
  lemma StepInBlock(m: Mode, i: int)
    requires FirstScale(m) <= i && i + 1 <= LastScale(m)
    ensures Ranges[i] < Ranges[i + 1]
  {
    if i < 22 {
      RangesStepLow(i);
    } else {
      RangesStepHigh(i);
    }
  }

  /** The step of `RangesIncrease` for scales below 22, where each mode
    * block ends at 5, 10 or 16. */
  lemma RangesStepLow(i: int)
    requires 0 <= i < 22 && i != 5 && i != 10 && i != 16
    ensures Ranges[i] < Ranges[i + 1]
  {
  }

  /** The same for scales 22 and above, whose blocks end at 22, 29, 32, 39,
    * 40, 41 and 42. */
  lemma RangesStepHigh(i: int)
    requires 22 <= i < 43 && i != 22 && i != 29 && i != 32 && i != 39 && i != 40 && i != 41 && i != 42
    ensures Ranges[i] < Ranges[i + 1]
  {
  }

  /** The mode blocks of the scale enum do not overlap. */
  lemma BlocksDisjoint(m1: Mode, m2: Mode)
    requires m1 != m2
    ensures LastScale(m1) < FirstScale(m2) || LastScale(m2) < FirstScale(m1)
  {
  }

  /** Which scales each mode predicate accepts, by scale enum name. */
  lemma Families(idx: int)
    ensures IsAC(idx) <==> SCALE_AC_500mV <= idx <= SCALE_AC_750V || SCALE_AC_500uA <= idx <= SCALE_AC_10A
    ensures IsDC(idx) <==> SCALE_DC_50mV <= idx <= SCALE_DC_1kV || SCALE_DC_500uA <= idx <= SCALE_DC_10A
    ensures IsResistor(idx) <==> SCALE_50_Ohm <= idx <= SCALE_4W_50_kOhm || idx == SCALE_CONT
    ensures IsCapacitance(idx) <==> SCALE_50_nF <= idx <= SCALE_50_mF
    ensures IsDiode(idx) <==> idx == SCALE_DIODE
    ensures IsContinuity(idx) <==> idx == SCALE_CONT
  {
    if ValidIndex(idx) {
      var own := Modes[idx];
      ModeBlocks(idx, own);
      assert FirstScale(own) <= idx <= LastScale(own);
      forall m: Mode | m != own ensures !(FirstScale(m) <= idx <= LastScale(m)) {
        ModeBlocks(idx, m);
      }
    }
  }

  /** The decimal prefix `DMM_GetScaleUnit` picks for a range, and the factor
    * that converts a value in the base unit into the prefixed unit. */
  function Prefix(range: real): (real, string)
  {
    if range < 0.000000001 then (1000000000000.0, "p")
    else if range < 0.000001 then (1000000000.0, "n")
    else if range < 0.001 then (1000000.0, "u")
    else if range < 1.0 then (1000.0, "m")
    else if range < 1000.0 then (1.0, "")
    else if range < 1000000.0 then (0.001, "k")
    else if range < 1000000000.0 then (0.000001, "M")
    else (0.000000001, "G")
  }

  /** The prefixed range always shows as 1 to 999.x units: the prefixes
    * are decade buckets that cover 1e-12 up to 1e12. */
  lemma PrefixDecade(range: real)
    requires 0.000000000001 <= range < 1000000000000.0
    ensures 1.0 <= Prefix(range).0 * range < 1000.0
  {
  }

  /** Every full-scale range lies between 50 nF and 50 MOhm. */
  lemma RangeBounds(idx: int)
    requires ValidIndex(idx)
    ensures 0.00000005 <= Ranges[idx] <= 50000000.0
  {
  }

  /** The unit name of each mode. */
  function UnitName(m: Mode): string
  {
    match m
    case DCVoltage => "V DC"
    case ACVoltage => "V AC"
    case Diode => "V"
    case DCCurrent => "A DC"
    case ACCurrent => "A AC"
    case Resistance => "Ohm"
    case Resistance4W => "Ohm"
    case Continuity => "Ohm"
    case Temperature => "C"
    case Capacitance => "F"
    case Frequency => "Hz"
  }

  datatype UnitInfo = UnitInfo(factor: real, prefix: string, unitName: string, rangeLabel: string)

  /** A range multiplied by a scale factor shows as 1 to 999.x units. */
  predicate InDecade(factor: real, range: real) { 1.0 <= factor * range < 1000.0 }

  /** `DMM_GetScaleUnit`: on an invalid index the error code and no output;
    * otherwise the scale factor brings the full-scale range into [1, 1000). */
  function GetScaleUnit(idx: int): (r: Result<UnitInfo>)
    ensures r.Failure? <==> !ValidIndex(idx)
    ensures r.Failure? ==> r.err == DMM_IDXCONFIG
    ensures r.Ok? ==> InDecade(r.value.factor, GetRange(idx))
    ensures r.Ok? ==> r.value.unitName == UnitName(Modes[idx]) && r.value.rangeLabel == Labels[idx]
  {
    if CheckIdx(idx) != SUCCESS then Failure(DMM_IDXCONFIG)
    else
      var range := GetRange(idx);
      var p := Prefix(range);
      ScaleFactorInDecade(idx, range, p.0);
      Ok(UnitInfo(p.0, p.1, UnitName(Modes[idx]), Labels[idx]))
  }

  lemma ScaleFactorInDecade(idx: int, range: real, factor: real)
    requires ValidIndex(idx) && range == GetRange(idx) && factor == Prefix(range).0
    ensures InDecade(factor, range)
  {
    RangeBounds(idx);
    PrefixDecade(range);
  }
}
