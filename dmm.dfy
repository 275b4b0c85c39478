/** The measurement engine of Core/Src/dmm.c: the HY3131 register image,
  * scale selection, the raw-result decoders, the retry loop and the
  * averaging. The chip is reached through a read oracle: `hw(t, reg)` is the
  * byte that register `reg` returns in the t-th read transaction. */
module Dmm {
  import opened Common
  import opened Scales

  /** HY3131 register addresses (Core/Inc/dmm.h REG_ADDR). */
  const REG_AD1: nat := 0x00
  const REG_RMS: nat := 0x09
  const REG_CTSTA: nat := 0x14
  const REG_CTC: nat := 0x15
  const REG_CTB: nat := 0x18
  const REG_CTA: nat := 0x1B
  const REG_INTF: nat := 0x1E
  const REG_R20: nat := 0x20

  /** `sizeof(DMMSTS)`: registers 0x00 to 0x36, at their own address. */
  const STS_SIZE: nat := 0x37

  /** `DMM_VALIDDATA_CNTTIMEOUT`. */
  const VALIDDATA_CNTTIMEOUT: nat := 0x100

  /** The counter time base, 4.9152 MHz, which is also the preset 0x4B0000. */
  const TIMEBASE: nat := 4915200

  /** One scale's calibration coefficients, `calib.Dmm[idx]`. */
  datatype Coeff = Coeff(mult: Val, add: Val)

  /** What the meter sees of the outside: the register read oracle and the C
    * library's square root. */
  datatype Bus = Bus(hw: (nat, int) -> Byte, sq: real -> real)

  // ---------------------------------------------------------------------
  // Byte assembly and the decoders

  /** The little-endian value of a byte string. */
  function LE(bs: seq<Byte>): nat
  {
    if |bs| == 0 then 0 else bs[0] + 256 * LE(bs[1..])
  }

  function Pow256(k: nat): (p: nat)
    ensures p >= 1
  {
    if k == 0 then 1 else 256 * Pow256(k - 1)
  }

  /** The `k` little-endian bytes of `v`. */
  function ToLE(v: nat, k: nat): (bs: seq<Byte>)
    ensures |bs| == k
  {
    if k == 0 then [] else [v % 256] + ToLE(v / 256, k - 1)
  }

  /** `k` bytes hold values below 256^k. */
  lemma {:induction false} LEBound(bs: seq<Byte>)
    ensures LE(bs) < Pow256(|bs|)
  {
    if |bs| > 0 {
      LEBound(bs[1..]);
    }
  }

  /** Assembling bytes inverts splitting a value into bytes, and back. */
  lemma {:induction false} LERoundTrip(v: nat, k: nat)
    requires v < Pow256(k)
    ensures LE(ToLE(v, k)) == v
  {
    if k > 0 {
      LERoundTrip(v / 256, k - 1);
    }
  }

  lemma {:induction false} ToLERoundTrip(bs: seq<Byte>)
    ensures ToLE(LE(bs), |bs|) == bs
  {
    if |bs| > 0 {
      ToLERoundTrip(bs[1..]);
      assert (bs[0] + 256 * LE(bs[1..])) / 256 == LE(bs[1..]);
    }
  }

  /** The assembly loops of `DMM_DGetStatus`: most significant byte first,
    * `v = (v << 8) | b[i]` for i from the top down to 0. */
  method Assemble(bs: seq<Byte>) returns (v: nat)
    ensures v == LE(bs)
  {
    v := 0;
    var i := |bs|;
    while i > 0
      invariant 0 <= i <= |bs|
      invariant v == LE(bs[i..])
    {
      i := i - 1;
      assert bs[i..][1..] == bs[i + 1..];
      v := v * 256 + bs[i];
    }
  }

  /** Two's complement reading of a 24-bit value. */
  function SignExtend24(u: nat): int
    requires u < 0x100_0000
  {
    if u < 0x80_0000 then u else u - 0x100_0000
  }

  /** A 32-bit pattern read as `int32_t`. */
  function Int32(w: nat): int
    requires w < 0x1_0000_0000
  {
    if w < 0x8000_0000 then w else w - 0x1_0000_0000
  }

  /** C's integer division, which truncates toward zero. */
  function CDiv(a: int, b: int): int
    requires b > 0
  {
    if a >= 0 then a / b else -((-a) / b)
  }

  /** How `DMM_DGetStatus` reads AD1: the three bytes left-justified into an
    * `int32_t` and divided by 256. */
  function Ad1Word(bs: seq<Byte>): int
    requires |bs| == 3
  {
    LEBound(bs);
    CDiv(Int32(LE(bs) * 256), 256)
  }

  /** That computation is the 24-bit two's complement value of the bytes, so
    * it lies in [-2^23, 2^23). */
  lemma Ad1WordSignExtends(bs: seq<Byte>)
    requires |bs| == 3
    ensures LE(bs) < 0x100_0000
    ensures Ad1Word(bs) == SignExtend24(LE(bs))
    ensures -0x80_0000 <= Ad1Word(bs) < 0x80_0000
  {
    LEBound(bs);
    assert Pow256(3) == 0x100_0000;
    var u: int := LE(bs);
    if u >= 0x80_0000 {
      var w: int := u * 256 - 0x1_0000_0000;
      assert Int32(u * 256) == w;
      assert -w == (0x100_0000 - u) * 256;
      assert (-w) / 256 == 0x100_0000 - u;
    }
  }

  /** Only the two largest codes saturate high and only the three smallest
    * saturate low. */
  lemma Ad1Saturation(bs: seq<Byte>)
    requires |bs| == 3
    ensures Ad1Word(bs) >= 0x7FFFFE <==> LE(bs) == 0x7FFFFE || LE(bs) == 0x7FFFFF
    ensures Ad1Word(bs) <= -0x7FFFFE <==> 0x80_0000 <= LE(bs) <= 0x80_0002
  {
    Ad1WordSignExtends(bs);
  }

  /** `v * Mult + Add`, or `v` itself when calibration is off. */
  function Calibrated(v: Val, useCalib: bool, co: Coeff): Val
  {
    if useCalib then Add(Mul(v, co.mult), co.add) else v
  }

  /** The AD1 result: the two codes at each end of the converter range read
    * as an infinity, anything else is `mul * vad1`, calibrated on request. */
  function Ad1Value(mul: real, vad1: int, useCalib: bool, co: Coeff): Val
  {
    if vad1 >= 0x7FFFFE then PosInf
    else if vad1 <= -0x7FFFFE then NegInf
    else Calibrated(Fin(mul * vad1 as real), useCalib, co)
  }

  predicate FinCoeff(co: Coeff) { co.mult.Fin? && co.add.Fin? }

  /** With finite coefficients the AD1 result is finite exactly inside the
    * converter range, and it is then the linear correction of mul * vad1. */
  lemma Ad1InRange(mul: real, vad1: int, useCalib: bool, co: Coeff)
    requires !useCalib || FinCoeff(co)
    ensures Ad1Value(mul, vad1, useCalib, co).Fin? <==> -0x7FFFFE < vad1 < 0x7FFFFE
    ensures -0x7FFFFE < vad1 < 0x7FFFFE ==>
      Ad1Value(mul, vad1, useCalib, co).r
        == if useCalib then mul * vad1 as real * co.mult.r + co.add.r else mul * vad1 as real
  {
  }

  /** The identity coefficients Mult = 1, Add = 0 leave a reading unchanged. */
  const IDENTITY: Coeff := Coeff(Fin(1.0), Fin(0.0))

  lemma Ad1IdentityNeutral(mul: real, vad1: int, co: Coeff)
    ensures Ad1Value(mul, vad1, true, IDENTITY) == Ad1Value(mul, vad1, false, co)
  {
  }

  /** The RMS result: `sqrt(|mul^2 * vrms - Add^2|) * Mult` calibrated,
    * `mul * sqrt(vrms)` raw. */
  function RmsValue(sq: real -> real, mul: real, vrms: real, useCalib: bool, co: Coeff): Val
  {
    if useCalib then RmsCalibrated(sq, mul * mul * vrms, co)
    else Fin(mul * sq(vrms))
  }

  /** `sqrt(|x - Add^2|) * Mult`, the calibrated RMS of the squared reading x. */
  function RmsCalibrated(sq: real -> real, x: real, co: Coeff): Val
  {
    Mul(Sqrt(sq, Fabs(Sub(Fin(x), Mul(co.add, co.add)))), co.mult)
  }

  /** The raw RMS reading squares to mul^2 * vrms. */
  lemma RmsSquares(sq: real -> real, mul: real, vrms: real, co: Coeff)
    requires IsSqrt(sq) && 0.0 <= mul && 0.0 <= vrms
    ensures RmsValue(sq, mul, vrms, false, co).Fin?
    ensures RmsValue(sq, mul, vrms, false, co).r >= 0.0
    ensures RmsValue(sq, mul, vrms, false, co).r * RmsValue(sq, mul, vrms, false, co).r == mul * mul * vrms
  {
    var s := sq(vrms);
    assert 0.0 <= s && s * s == vrms;
    assert (mul * s) * (mul * s) == mul * mul * (s * s);
  }

  /** The frequency in Hz from the gate counter CTA and the event counter CTB:
    * the gate lasts 0x4B0000 + CTA ticks of the 4.9152 MHz clock. */
  function FreqValue(cta: nat, ctb: nat): nat
  {
    ctb * TIMEBASE / (0x4B_0000 + cta)
  }

  /** The divisor never is 0 (so the source's guard against 0 is dead), no
    * intermediate leaves its C type, the result never exceeds CTB and equals
    * CTB for the preset gate CTA = 0. */
  lemma FreqBounds(cta: nat, ctb: nat)
    requires cta < 0x100_0000 && ctb < 0x100_0000
    ensures 0 < 0x4B_0000 + cta < 0x1_0000_0000
    ensures ctb * TIMEBASE < 0x1_0000_0000_0000_0000
    ensures FreqValue(cta, ctb) <= ctb
    ensures cta == 0 ==> FreqValue(cta, ctb) == ctb
  {
    var t := 0x4B_0000 + cta;
    var q := ctb * TIMEBASE / t;
    assert q * t <= ctb * TIMEBASE;
    assert ctb * TIMEBASE <= ctb * t by {
      MulLeft(ctb, TIMEBASE, t);
    }
    if q > ctb {
      MulLeft(t, ctb + 1, q);
      assert false;
    }
  }

  lemma MulLeft(x: nat, y: nat, z: nat)
    requires y <= z
    ensures x * y <= x * z
  {
  }

  // ---------------------------------------------------------------------
  // The abstract state of dmm.c and one status read

  /** `idxCurrentScale`, `fUseCalib`, the register image `curSts`,
    * `dMeasuredVal` and the number of read transactions so far. `curCfg` and
    * `curCal` are `dmmcfg[idx]` and `calib.Dmm[idx]` (NULL when idx is -1). */
  datatype Chip = Chip(idx: int, useCalib: bool, sts: seq<Byte>, measured: seq<Val>, tx: nat)

  predicate ChipOk(c: Chip)
  {
    |c.sts| == STS_SIZE && |c.measured| == 3 && (c.idx == -1 || ValidIndex(c.idx))
  }

  /** A value, the error it comes with, and the state after it. */
  datatype Step = Step(v: Val, err: Err, chip: Chip)

  /** The `n` bytes a read transaction `t` at `reg` delivers. */
  function Fetch(hw: (nat, int) -> Byte, t: nat, reg: int, n: nat): (bs: seq<Byte>)
    ensures |bs| == n
    ensures forall i :: 0 <= i < n ==> bs[i] == hw(t, reg + i)
  {
    seq(n, i => hw(t, reg + i))
  }

  /** `s` with `bs` written at `at`. */
  function Splice(s: seq<Byte>, at: nat, bs: seq<Byte>): (r: seq<Byte>)
    requires at + |bs| <= |s|
    ensures |r| == |s|
    ensures r[at..at + |bs|] == bs
    ensures forall i :: 0 <= i < |s| ==> r[i] == if at <= i < at + |bs| then bs[i - at] else s[i]
  {
    s[..at] + bs + s[at + |bs|..]
  }

  /** `DMM_GetCmdSPI(reg, n, &curSts + reg)`: one read transaction into the
    * image. */
  function Read(bus: Bus, c: Chip, reg: nat, n: nat): (c': Chip)
    requires ChipOk(c) && reg + n <= STS_SIZE
    ensures ChipOk(c') && c'.idx == c.idx && c'.useCalib == c.useCalib && c'.measured == c.measured
  {
    c.(sts := Splice(c.sts, reg, Fetch(bus.hw, c.tx, reg, n)), tx := c.tx + 1)
  }

  /** INTF read into a local: one transaction, nothing stored. */
  function Tick(c: Chip): Chip { c.(tx := c.tx + 1) }

  function Intf(bus: Bus, c: Chip): Byte { bus.hw(c.tx, REG_INTF) }

  /** The CTA preset `DMM_StartFreqMeasure` writes: a one-second gate. */
  const FREQ_GATE: seq<Byte> := [0x00, 0x00, 0xB5]

  /** The CTA preset of the capacitance Mode I reset. */
  const CAP_PRESET: seq<Byte> := [0x00, 0x00, 0xBF]

  /** Read AD1 and decode it. */
  function Ad1Path(bus: Bus, coeffs: seq<Coeff>, c: Chip): (r: Step)
    requires ChipOk(c) && ValidIndex(c.idx) && |coeffs| == DMM_CNTSCALES
  {
    var c1 := Read(bus, c, REG_AD1, 3);
    Step(Ad1Value(Muls[c.idx], Ad1Word(c1.sts[REG_AD1..REG_AD1 + 3]), c.useCalib, coeffs[c.idx]), SUCCESS, c1)
  }

  function AcPath(bus: Bus, coeffs: seq<Coeff>, c: Chip): (r: Step)
    requires ChipOk(c) && ValidIndex(c.idx) && |coeffs| == DMM_CNTSCALES
  {
    if !Bit(Intf(bus, c), 4) then Step(NaN, SUCCESS, Tick(c))
    else
      var c1 := Read(bus, Tick(c), REG_RMS, 5);
      Step(RmsValue(bus.sq, Muls[c.idx], LE(c1.sts[REG_RMS..REG_RMS + 5]) as real, c.useCalib, coeffs[c.idx]), SUCCESS, c1)
  }

  /** The Mode I capacitance: the count times the scale's multiplier,
    * calibrated on request. */
  function CountValue(mul: real, count: nat, useCalib: bool, co: Coeff): Val
  {
    Calibrated(Fin(mul * count as real), useCalib, co)
  }

  function CapModeIPath(bus: Bus, coeffs: seq<Coeff>, c: Chip): (r: Step)
    requires ChipOk(c) && ValidIndex(c.idx) && |coeffs| == DMM_CNTSCALES
  {
    if !Bit(Intf(bus, c), 0) then Step(NaN, SUCCESS, Tick(c))
    else CapCounters(Read(bus, Tick(c), REG_CTSTA, 10), Muls[c.idx], coeffs[c.idx])
  }

  /** The counters of a finished Mode I charge: the value from CTA, CTB and
    * CTC into `dMeasuredVal[1..2]`, and CTA preset again. */
  function CapCounters(c: Chip, mul: real, co: Coeff): (r: Step)
    requires ChipOk(c)
  {
    var cnt := LE(c.sts[REG_CTA..REG_CTA + 3]);
    var ctb := LE(c.sts[REG_CTB..REG_CTB + 3]);
    var ctc := LE(c.sts[REG_CTC..REG_CTC + 3]);
    Step(CountValue(mul, cnt, c.useCalib, co), SUCCESS,
         c.(sts := Splice(c.sts, REG_CTA, CAP_PRESET), measured := c.measured[1 := Fin(ctb as real)][2 := Fin(ctc as real)]))
  }

  function CapModeIIPath(bus: Bus, coeffs: seq<Coeff>, c: Chip): (r: Step)
    requires ChipOk(c) && ValidIndex(c.idx) && |coeffs| == DMM_CNTSCALES
  {
    var c1 := Read(bus, Read(bus, c, REG_R20, 1), REG_R20, 1);
    if !Bit(Intf(bus, c1), 2) then Step(NaN, SUCCESS, Tick(c1))
    else Ad1Path(bus, coeffs, Tick(c1))
  }

  /** The duty cycle `DMM_DGetStatus` stores for FREQ: CTC over the gate. */
  function DutyCycle(cta: nat, ctc: nat): real
  {
    ctc as real / (0x4B_0000 + cta) as real
  }

  function FreqPath(bus: Bus, coeffs: seq<Coeff>, c: Chip): (r: Step)
    requires ChipOk(c) && ValidIndex(c.idx) && |coeffs| == DMM_CNTSCALES
  {
    if !Bit(Intf(bus, c), 0) then Step(NaN, SUCCESS, Tick(c))
    else
      var c1 := Read(bus, Tick(c), REG_CTSTA, 10);
      if Bit(c1.sts[REG_CTSTA], 0) then Step(NaN, SUCCESS, c1)
      else FreqCounters(c1)
  }

  /** The counters of a finished gate: the frequency, the duty cycle into
    * `dMeasuredVal[1]`, and a new gate. */
  function FreqCounters(c: Chip): (r: Step)
    requires ChipOk(c)
  {
    var cta := LE(c.sts[REG_CTA..REG_CTA + 3]);
    var ctb := LE(c.sts[REG_CTB..REG_CTB + 3]);
    var ctc := LE(c.sts[REG_CTC..REG_CTC + 3]);
    Step(Fin(FreqValue(cta, ctb) as real), SUCCESS,
         c.(sts := Splice(c.sts, REG_CTA, FREQ_GATE), measured := c.measured[1 := Fin(DutyCycle(cta, ctc))]))
  }

  function DcPath(bus: Bus, coeffs: seq<Coeff>, c: Chip): (r: Step)
    requires ChipOk(c) && ValidIndex(c.idx) && |coeffs| == DMM_CNTSCALES
  {
    if !Bit(Intf(bus, c), 2) then Step(NaN, SUCCESS, Tick(c))
    else Ad1Path(bus, coeffs, Tick(c))
  }

  /** `DMM_DGetStatus`: one look at the converter of the current scale. */
  function Status(bus: Bus, coeffs: seq<Coeff>, c: Chip): (r: Step)
    requires ChipOk(c) && |coeffs| == DMM_CNTSCALES
    ensures ChipOk(r.chip) && r.chip.idx == c.idx && r.chip.useCalib == c.useCalib
    ensures r.err == SUCCESS || r.err == DMM_IDXCONFIG
  {
    if CheckIdx(c.idx) != SUCCESS then Step(NaN, DMM_IDXCONFIG, c)
    else if IsAC(c.idx) then AcPath(bus, coeffs, c)
    else if SCALE_50_nF <= c.idx <= SCALE_500_uF then CapModeIPath(bus, coeffs, c)
    else if SCALE_5_mF <= c.idx <= SCALE_50_mF then CapModeIIPath(bus, coeffs, c)
    else if c.idx == SCALE_FREQ then FreqPath(bus, coeffs, c)
    else DcPath(bus, coeffs, c)
  }

  /** A status read fails only for want of a scale, and then reads nothing;
    * with a scale it succeeds, and a failure always comes with NaN. */
  lemma StatusErrors(bus: Bus, coeffs: seq<Coeff>, c: Chip)
    requires ChipOk(c) && |coeffs| == DMM_CNTSCALES
    ensures var r := Status(bus, coeffs, c);
      (r.err == SUCCESS <==> ValidIndex(c.idx))
      && (r.err != SUCCESS ==> r.err == DMM_IDXCONFIG && r.v == NaN && r.chip == c)
  {
  }

  // ---------------------------------------------------------------------
  // The retry loop of DMM_DGetValue

  /** Where the retry loop stops: the last status read and the counter. */
  datatype Polled = Polled(v: Val, err: Err, chip: Chip, cnt: nat)

  /** `DMM_DGetStatus` as a function value, made total: a state outside the
    * model gives the index error. The retry loop is stated once for any
    * status read and then applied to this one. */
  function StatusOf(bus: Bus, coeffs: seq<Coeff>): Chip -> Step
  {
    c => if ChipOk(c) && |coeffs| == DMM_CNTSCALES then Status(bus, coeffs, c) else Step(NaN, DMM_IDXCONFIG, c)
  }

  /** What the retry loop relies on of a status read: it keeps the state well
    * formed, leaves scale and flag alone, and reports success or the index
    * error. */
  ghost predicate StatusLike(read: Chip -> Step)
  {
    forall c {:trigger read(c)} :: ChipOk(c) ==>
      ChipOk(read(c).chip) && read(c).chip.idx == c.idx && read(c).chip.useCalib == c.useCalib
      && (read(c).err == SUCCESS || read(c).err == DMM_IDXCONFIG)
  }

  lemma StatusOfIsStatusLike(bus: Bus, coeffs: seq<Coeff>)
    ensures StatusLike(StatusOf(bus, coeffs))
  {
  }

  /** `read` is the status read of `bus` and `coeffs`. The fact is only
    * unfolded where a call of `Status` is in sight, so proofs about the
    * loop need not look inside the status read. */
  ghost predicate ReadsStatus(read: Chip -> Step, bus: Bus, coeffs: seq<Coeff>)
  {
    forall c {:trigger Status(bus, coeffs, c)} :: ChipOk(c) && |coeffs| == DMM_CNTSCALES ==> read(c) == Status(bus, coeffs, c)
  }

  lemma StatusOfReadsStatus(bus: Bus, coeffs: seq<Coeff>)
    ensures ReadsStatus(StatusOf(bus, coeffs), bus, coeffs)
  {
  }

  /** The loop `while (isnan(v = DGetStatus(&err)) && cnt++ < TIMEOUT &&
    * err == SUCCESS);`, entered with the counter at `cnt`. The counter stays
    * within the bound; a non-NaN read stops the loop without counting; a
    * NaN read is counted and stops the loop only at the bound or with an
    * error. */
  function Poll(read: Chip -> Step, c: Chip, cnt: nat): (p: Polled)
    requires cnt <= VALIDDATA_CNTTIMEOUT
    ensures cnt <= p.cnt <= VALIDDATA_CNTTIMEOUT + 1
    ensures !IsNaN(p.v) ==> p.cnt <= VALIDDATA_CNTTIMEOUT
    ensures IsNaN(p.v) ==> p.cnt > cnt
    ensures IsNaN(p.v) && p.err == SUCCESS ==> p.cnt == VALIDDATA_CNTTIMEOUT + 1
    decreases VALIDDATA_CNTTIMEOUT - cnt
  {
    var s := read(c);
    if !IsNaN(s.v) then Polled(s.v, s.err, s.chip, cnt)
    else if cnt < VALIDDATA_CNTTIMEOUT && s.err == SUCCESS then Poll(read, s.chip, cnt + 1)
    else Polled(s.v, s.err, s.chip, cnt + 1)
  }

  /** The loop keeps what each read keeps. */
  lemma {:induction false} PollKeeps(read: Chip -> Step, c: Chip, cnt: nat)
    requires StatusLike(read) && ChipOk(c) && cnt <= VALIDDATA_CNTTIMEOUT
    decreases VALIDDATA_CNTTIMEOUT - cnt
    ensures var p := Poll(read, c, cnt);
      ChipOk(p.chip) && p.chip.idx == c.idx && p.chip.useCalib == c.useCalib
      && (p.err == SUCCESS || p.err == DMM_IDXCONFIG)
  {
    var s := read(c);
    if IsNaN(s.v) && cnt < VALIDDATA_CNTTIMEOUT && s.err == SUCCESS {
      PollKeeps(read, s.chip, cnt + 1);
    }
  }

  /** The number of status reads the loop made, entered at counter 0: every
    * NaN read bumps the counter, the final valid read does not. */
  function Reads(p: Polled): nat
  {
    if IsNaN(p.v) then p.cnt else p.cnt + 1
  }

  /** `DMM_DGetValue`: the loop, then a timeout error whenever the counter
    * reached the bound without another error. */
  function GetValue(bus: Bus, coeffs: seq<Coeff>, c: Chip): (s: Step)
    requires ChipOk(c) && |coeffs| == DMM_CNTSCALES
    ensures ChipOk(s.chip) && s.chip.idx == c.idx && s.chip.useCalib == c.useCalib
  {
    StatusOfIsStatusLike(bus, coeffs);
    PollKeeps(StatusOf(bus, coeffs), c, 0);
    var p := Poll(StatusOf(bus, coeffs), c, 0);
    Step(p.v, if p.err == SUCCESS && p.cnt >= VALIDDATA_CNTTIMEOUT then DMM_VALIDDATATIMEOUT else p.err, p.chip)
  }

  /** The loop makes between 1 and 257 status reads. It reports a timeout
    * exactly when it used all 257 without an error, which includes the case
    * where the 257th read was valid. It never reports success with NaN. */
  lemma GetValueOutcome(bus: Bus, coeffs: seq<Coeff>, c: Chip)
    requires ChipOk(c) && |coeffs| == DMM_CNTSCALES
    ensures var p := Poll(StatusOf(bus, coeffs), c, 0); var s := GetValue(bus, coeffs, c);
      1 <= Reads(p) <= VALIDDATA_CNTTIMEOUT + 1
      && (s.err == DMM_VALIDDATATIMEOUT <==> p.err == SUCCESS && Reads(p) == VALIDDATA_CNTTIMEOUT + 1)
      && (s.err == SUCCESS ==> !IsNaN(s.v))
  {
    StatusOfIsStatusLike(bus, coeffs);
    PollKeeps(StatusOf(bus, coeffs), c, 0);
  }

  /** Without a scale the loop stops after one read with the index error. */
  lemma GetValueNoScale(bus: Bus, coeffs: seq<Coeff>, c: Chip)
    requires ChipOk(c) && |coeffs| == DMM_CNTSCALES && !ValidIndex(c.idx)
    ensures GetValue(bus, coeffs, c) == Step(NaN, DMM_IDXCONFIG, c)
    ensures Reads(Poll(StatusOf(bus, coeffs), c, 0)) == 1
  {
    StatusErrors(bus, coeffs, c);
  }

  // ---------------------------------------------------------------------
  // Averaging, DMM_DGetAvgValue

  /** A sample the averaging loop accepts: no error, and neither NaN nor an
    * infinity. */
  predicate Good(s: Step) { s.err == SUCCESS && s.v.Fin? }

  function Term(v: real, square: bool): real { if square then v * v else v }

  /** The loop's accumulator, whether every sample was good, the last error
    * and the state after it. */
  datatype Sweep = Sweep(acc: real, valid: bool, err: Err, chip: Chip)

  /** One call of `DMM_DGetValue`, made total: a state outside the model
    * gives the index error. */
  function SampleAt(bus: Bus, coeffs: seq<Coeff>, c: Chip): Step
  {
    if ChipOk(c) && |coeffs| == DMM_CNTSCALES then GetValue(bus, coeffs, c) else Step(NaN, DMM_IDXCONFIG, c)
  }

  /** `DMM_DGetValue` as a function value: the averaging is stated once for
    * any source of samples and then applied to this one. */
  function Sampler(bus: Bus, coeffs: seq<Coeff>): Chip -> Step
  {
    c => SampleAt(bus, coeffs, c)
  }

  /** Up to `k` samples from `next`, stopping after the first that is not
    * good. */
  function Accumulate(next: Chip -> Step, c: Chip, k: int, square: bool): (w: Sweep)
    ensures w.valid ==> w.err == SUCCESS
    decreases k
  {
    if k <= 0 then Sweep(0.0, true, SUCCESS, c)
    else
      var s := next(c);
      if !Good(s) then Sweep(0.0, false, s.err, s.chip)
      else
        var rest := Accumulate(next, s.chip, k - 1, square);
        rest.(acc := Term(s.v.r, square) + rest.acc)
  }

  /** A source of samples that keeps the state well formed and leaves scale
    * and flag alone. */
  ghost predicate KeepsChip(next: Chip -> Step)
  {
    forall c {:trigger next(c)} :: ChipOk(c) ==>
      ChipOk(next(c).chip) && next(c).chip.idx == c.idx && next(c).chip.useCalib == c.useCalib
  }

  /** `DMM_DGetValue` is such a source. */
  lemma SamplerKeepsChip(bus: Bus, coeffs: seq<Coeff>)
    requires |coeffs| == DMM_CNTSCALES
    ensures KeepsChip(Sampler(bus, coeffs))
  {
  }

  /** A sweep over such a source keeps the state as it keeps it. */
  lemma {:induction false} AccumulateKeepsChip(next: Chip -> Step, c: Chip, k: int, square: bool)
    requires KeepsChip(next) && ChipOk(c)
    decreases k
    ensures var w := Accumulate(next, c, k, square);
      ChipOk(w.chip) && w.chip.idx == c.idx && w.chip.useCalib == c.useCalib
  {
    if k > 0 {
      AccumulateKeepsChip(next, next(c).chip, k - 1, square);
    }
  }

  /** `next` draws its samples as `DMM_DGetValue` does. The fact is only
    * unfolded where a call of `SampleAt` is in sight, so proofs about the
    * sampling loop need not look inside the status read. */
  ghost predicate SamplesOf(next: Chip -> Step, bus: Bus, coeffs: seq<Coeff>)
  {
    forall c {:trigger SampleAt(bus, coeffs, c)} :: next(c) == SampleAt(bus, coeffs, c)
  }

  lemma SamplerSamples(bus: Bus, coeffs: seq<Coeff>)
    ensures SamplesOf(Sampler(bus, coeffs), bus, coeffs)
  {
  }

  lemma SamplerIsGetValue(bus: Bus, coeffs: seq<Coeff>, c: Chip)
    requires ChipOk(c) && |coeffs| == DMM_CNTSCALES
    ensures Sampler(bus, coeffs)(c) == GetValue(bus, coeffs, c)
  {
  }

  /** `w0` is the sweep `w` that follows the partial sum `acc`. */
  predicate Rest(w0: Sweep, acc: real, w: Sweep)
  {
    w0.acc == acc + w.acc && w0.valid == w.valid && w0.err == w.err && w0.chip == w.chip
  }

  /** One step of the sweep. */
  lemma AccumulateUnfold(next: Chip -> Step, c: Chip, k: int, square: bool)
    requires k > 0
    ensures var s := next(c); var w := Accumulate(next, c, k, square);
      (!Good(s) ==> w == Sweep(0.0, false, s.err, s.chip))
      && (Good(s) ==> var rest := Accumulate(next, s.chip, k - 1, square);
            w == rest.(acc := Term(s.v.r, square) + rest.acc))
  {
  }

  /** `DMM_DGetAvgValue`. */
  function AvgValue(bus: Bus, coeffs: seq<Coeff>, c: Chip, n: int): (s: Step)
    requires ChipOk(c) && |coeffs| == DMM_CNTSCALES
    ensures ChipOk(s.chip) && s.chip.idx == c.idx && s.chip.useCalib == c.useCalib
  {
    if CheckIdx(c.idx) != SUCCESS then Step(NaN, DMM_IDXCONFIG, c)
    else if IsAC(c.idx) then
      SamplerKeepsChip(bus, coeffs);
      AccumulateKeepsChip(Sampler(bus, coeffs), c, n, true);
      var w := Accumulate(Sampler(bus, coeffs), c, n, true);
      var a := if w.valid && n != 0 then Sqrt(bus.sq, Fin(w.acc / n as real)) else Fin(w.acc);
      Step(if w.err != SUCCESS then NaN else a, w.err, w.chip)
    else if IsCapacitance(c.idx) then
      var g := GetValue(bus, coeffs, c);
      Step(if g.err == SUCCESS then Fin(0.0) else NaN, g.err, g.chip)
    else
      SamplerKeepsChip(bus, coeffs);
      AccumulateKeepsChip(Sampler(bus, coeffs), c, n, false);
      var w := Accumulate(Sampler(bus, coeffs), c, n, false);
      var a := if w.valid && n != 0 then Fin(w.acc / n as real) else Fin(w.acc);
      Step(if w.err != SUCCESS then NaN else a, w.err, w.chip)
  }

  /** The samples `k` successive calls of `next` return. */
  function Samples(next: Chip -> Step, c: Chip, k: nat): (ss: seq<Step>)
    ensures |ss| == k
    decreases k
  {
    if k == 0 then [] else [next(c)] + Samples(next, next(c).chip, k - 1)
  }

  /** The index of the first sample that is not good, or the count. */
  function FirstBad(ss: seq<Step>): (j: nat)
    ensures j <= |ss|
    ensures forall i :: 0 <= i < j ==> Good(ss[i])
    ensures j < |ss| ==> !Good(ss[j])
  {
    if |ss| == 0 then 0 else if !Good(ss[0]) then 0 else 1 + FirstBad(ss[1..])
  }

  function SumTerms(ss: seq<Step>, square: bool): real
    requires forall i :: 0 <= i < |ss| ==> ss[i].v.Fin?
  {
    if |ss| == 0 then 0.0 else Term(ss[0].v.r, square) + SumTerms(ss[1..], square)
  }

  /** The accumulator is the sum over the samples before the first bad one;
    * the sweep is valid exactly when none is bad, and otherwise carries the
    * bad sample's error. */
  ghost predicate SweepOfSamples(next: Chip -> Step, c: Chip, k: nat, square: bool)
  {
    var w := Accumulate(next, c, k, square); var ss := Samples(next, c, k);
    var j := FirstBad(ss);
    w.acc == SumTerms(ss[..j], square)
    && (w.valid <==> j == k)
    && (!w.valid ==> w.err == ss[j].err)
  }

  lemma {:induction false} AccumulateSamples(next: Chip -> Step, c: Chip, k: nat, square: bool)
    decreases k
    ensures SweepOfSamples(next, c, k, square)
  {
    if k > 0 {
      var s := next(c);
      if Good(s) {
        AccumulateSamples(next, s.chip, k - 1, square);
        AccumulateGoodSample(next, c, k, square);
      } else {
        assert Samples(next, c, k)[0] == s;
      }
    }
  }

  /** A good first sample adds its term to the sweep of the rest. */
  lemma AccumulateGoodSample(next: Chip -> Step, c: Chip, k: nat, square: bool)
    requires k > 0 && Good(next(c)) && SweepOfSamples(next, next(c).chip, k - 1, square)
    ensures SweepOfSamples(next, c, k, square)
  {
    var s := next(c);
    var ss := Samples(next, c, k);
    assert ss[0] == s;
    var rest := Accumulate(next, s.chip, k - 1, square);
    assert Accumulate(next, c, k, square) == rest.(acc := Term(s.v.r, square) + rest.acc);
    var tail := Samples(next, s.chip, k - 1);
    assert ss[1..] == tail;
    var j := FirstBad(ss);
    var jt := FirstBad(tail);
    assert j == 1 + jt;
    assert ss[..j][1..] == tail[..jt];
    assert SumTerms(ss[..j], square) == Term(s.v.r, square) + SumTerms(tail[..jt], square);
  }

  /** A sample of `DMM_DGetValue` without error is never NaN. */
  lemma {:induction false} SampleNotNaN(bus: Bus, coeffs: seq<Coeff>, c: Chip, k: nat, j: nat)
    requires ChipOk(c) && |coeffs| == DMM_CNTSCALES && j < k
    decreases j
    ensures var ss := Samples(Sampler(bus, coeffs), c, k); ss[j].err == SUCCESS ==> !IsNaN(ss[j].v)
  {
    var next := Sampler(bus, coeffs);
    var s := next(c);
    assert s == GetValue(bus, coeffs, c);
    if j == 0 {
      GetValueOutcome(bus, coeffs, c);
    } else {
      SampleNotNaN(bus, coeffs, s.chip, k - 1, j - 1);
      assert Samples(next, c, k)[j] == Samples(next, s.chip, k - 1)[j - 1];
    }
  }

  /** What `DMM_DGetAvgValue` returns on a DC-style (non-AC, non-capacitance)
    * scale, in terms of the samples: the mean when all n are good, NaN after
    * an error, and the unnormalised partial sum when a sample is an infinity
    * without an error. */
  lemma AvgValueMeaning(bus: Bus, coeffs: seq<Coeff>, c: Chip, n: nat)
    requires ChipOk(c) && |coeffs| == DMM_CNTSCALES
    requires ValidIndex(c.idx) && !IsAC(c.idx) && !IsCapacitance(c.idx)
    ensures var ss := Samples(Sampler(bus, coeffs), c, n); var j := FirstBad(ss); var a := AvgValue(bus, coeffs, c, n);
      (j == n && n > 0 ==> a.v == Fin(SumTerms(ss, false) / n as real) && a.err == SUCCESS)
      && (j < n && ss[j].err != SUCCESS ==> a.v == NaN && a.err == ss[j].err)
      && (j < n && ss[j].err == SUCCESS ==> IsInf(ss[j].v) && a.v == Fin(SumTerms(ss[..j], false)))
  {
    AccumulateSamples(Sampler(bus, coeffs), c, n, false);
    var ss := Samples(Sampler(bus, coeffs), c, n);
    assert ss[..n] == ss;
    var j := FirstBad(ss);
    if j < n && ss[j].err == SUCCESS {
      SampleNotNaN(bus, coeffs, c, n, j);
    }
  }

  /** The same for an AC scale, with the quadratic mean. */
  lemma AvgValueMeaningAC(bus: Bus, coeffs: seq<Coeff>, c: Chip, n: nat)
    requires ChipOk(c) && |coeffs| == DMM_CNTSCALES && IsAC(c.idx)
    ensures var ss := Samples(Sampler(bus, coeffs), c, n); var j := FirstBad(ss); var a := AvgValue(bus, coeffs, c, n);
      (j == n && n > 0 ==> a.v == Sqrt(bus.sq, Fin(SumTerms(ss, true) / n as real)) && a.err == SUCCESS)
      && (j < n && ss[j].err != SUCCESS ==> a.v == NaN && a.err == ss[j].err)
      && (j < n && ss[j].err == SUCCESS ==> IsInf(ss[j].v) && a.v == Fin(SumTerms(ss[..j], true)))
  {
    AccumulateSamples(Sampler(bus, coeffs), c, n, true);
    var ss := Samples(Sampler(bus, coeffs), c, n);
    assert ss[..n] == ss;
    var j := FirstBad(ss);
    if j < n && ss[j].err == SUCCESS {
      SampleNotNaN(bus, coeffs, c, n, j);
    }
  }

  /** On a capacitance scale the average is 0.0 after one good reading and
    * NaN otherwise. */
  lemma AvgCapacitance(bus: Bus, coeffs: seq<Coeff>, c: Chip, n: int)
    requires ChipOk(c) && |coeffs| == DMM_CNTSCALES && IsCapacitance(c.idx)
    ensures var a := AvgValue(bus, coeffs, c, n); var g := GetValue(bus, coeffs, c);
      a.err == g.err && (a.err == SUCCESS ==> a.v == Fin(0.0)) && (a.err != SUCCESS ==> a.v == NaN)
  {
    Families(c.idx);
  }

  /** `DMM_Measure`: the value (raw if asked) goes to `dMeasuredVal[0]` and
    * the use-calibration flag is what it was before. */
  function MeasureOutcome(bus: Bus, coeffs: seq<Coeff>, c: Chip, raw: bool, avg: Byte): (s: Step)
    requires ChipOk(c) && |coeffs| == DMM_CNTSCALES
  {
    var c1 := if raw then c.(useCalib := false) else c;
    var s := if avg > 1 then AvgValue(bus, coeffs, c1, avg) else GetValue(bus, coeffs, c1);
    Step(s.v, s.err, s.chip.(useCalib := c.useCalib, measured := s.chip.measured[0 := s.v]))
  }

  lemma MeasureRestoresFlag(bus: Bus, coeffs: seq<Coeff>, c: Chip, raw: bool, avg: Byte)
    requires ChipOk(c) && |coeffs| == DMM_CNTSCALES
    ensures var s := MeasureOutcome(bus, coeffs, c, raw, avg);
      s.chip.useCalib == c.useCalib && s.chip.measured[0] == s.v
  {
  }

  // ---------------------------------------------------------------------
  // Scale selection

  /** The register image `DMM_SetScale` leaves for a valid scale: all zero
    * but CTSTA = 40h, the top CTA byte, and R20..R33 from the table. */
  function ScaleImage(idx: int): (img: seq<Byte>)
    requires ValidIndex(idx)
  {
    TableShape();
    Zeros(20) + [0x40] + Zeros(8) + [if idx == SCALE_FREQ then 0xB5 else 0xBF] + Zeros(2) + Configs[idx] + Zeros(3)
  }

  function Zeros(n: nat): (z: seq<Byte>)
    ensures |z| == n && forall i :: 0 <= i < n ==> z[i] == 0
  {
    seq(n, _ => 0)
  }

  /** The image holds exactly the scale's 20 configuration bytes at R20..R33
    * and the counter preset; every other register reads 0. */
  lemma ScaleImageLayout(idx: int)
    requires ValidIndex(idx)
    ensures |ScaleImage(idx)| == STS_SIZE
    ensures ScaleImage(idx)[REG_R20..REG_R20 + 20] == Configs[idx]
    ensures ScaleImage(idx)[REG_CTSTA] == 0x40
    ensures ScaleImage(idx)[REG_CTA + 2] == if Modes[idx] == Frequency then 0xB5 else 0xBF
    ensures forall i :: 0 <= i < STS_SIZE && i != REG_CTSTA && i != REG_CTA + 2 && !(REG_R20 <= i < REG_R20 + 20) ==> ScaleImage(idx)[i] == 0
  {
    TableShape();
    Families(idx);
    ModeBlocks(idx, Frequency);
    var img := ScaleImage(idx);
    assert img[REG_R20..REG_R20 + 20] == Configs[idx];
  }

  /** The image after the copy of the configuration and the two counter
    * bytes, before the frequency scale's gate preset. */
  function LoadedImage(idx: int): (img: seq<Byte>)
    requires ValidIndex(idx)
    ensures |img| == STS_SIZE
  {
    TableShape();
    Splice(Zeros(STS_SIZE), REG_R20, Configs[idx])[REG_CTSTA := 0x40]
      [REG_CTA + 2 := if GetMode(idx) == ModeCode(Frequency) then 0xF0 else 0xBF]
  }

  /** On every scale but FREQ the loaded image is final; on FREQ the gate
    * preset completes it. */
  lemma LoadedImageIsScaleImage(idx: int)
    requires ValidIndex(idx)
    ensures idx != SCALE_FREQ ==> LoadedImage(idx) == ScaleImage(idx)
    ensures idx == SCALE_FREQ ==> Splice(LoadedImage(idx), REG_CTA, FREQ_GATE) == ScaleImage(idx)
  {
    TableShape();
    ModeBlocks(idx, Frequency);
    var img, fin := LoadedImage(idx), ScaleImage(idx);
    if idx != SCALE_FREQ {
      assert forall j :: 0 <= j < STS_SIZE ==> img[j] == fin[j];
    } else {
      var g := Splice(img, REG_CTA, FREQ_GATE);
      assert forall j :: 0 <= j < STS_SIZE ==> g[j] == fin[j];
    }
  }

  /** As written, `DMM_SetScale` stores the R37 byte at `curSts.r[0x17]`,
    * but `r` has 23 elements (R20..R36): the slot lies outside the image. */
  function FieldSlot(base: nat, count: nat, i: nat): Option<nat>
  {
    if i < count then Some(base + i) else None
  }

  const R_COUNT: nat := 23

  lemma R37SlotOutsideImage()
    ensures FieldSlot(REG_R20, R_COUNT, 0x17) == None
    ensures REG_R20 + R_COUNT == STS_SIZE
    ensures forall i :: 0 <= i < R_COUNT ==> FieldSlot(REG_R20, R_COUNT, i) == Some(REG_R20 + i)
  {
  }

  // ---------------------------------------------------------------------
  // The globals of dmm.c

  class Meter {
    var idx: int
    var useCalib: bool
    var tx: nat
    /** The byte written to R37 when a scale is set; held apart from the
      * 55-byte image, which ends at R36. */
    var r37: Byte
    const sts: array<Byte>
    const measured: array<Val>
    const cal: array<Coeff>
    const bus: Bus

    ghost predicate Valid()
      reads this
    {
      sts.Length == STS_SIZE && measured.Length == 3 && cal.Length == DMM_CNTSCALES
      && (idx == -1 || ValidIndex(idx))
    }

    function State(): Chip
      reads this, sts, measured
    {
      Chip(idx, useCalib, sts[..], measured[..], tx)
    }

    /** The start-up state: no scale, calibration on, everything zero. */
    constructor (bus: Bus, cal: array<Coeff>)
      requires cal.Length == DMM_CNTSCALES
      ensures Valid() && fresh(sts) && fresh(measured) && this.cal == cal && this.bus == bus
      ensures idx == -1 && useCalib && tx == 0
      ensures sts[..] == Zeros(STS_SIZE) && measured[..] == [Fin(0.0), Fin(0.0), Fin(0.0)]
    {
      idx := -1;
      useCalib := true;
      tx := 0;
      r37 := 0;
      sts := new Byte[STS_SIZE](_ => 0);
      measured := new Val[3](_ => Fin(0.0));
      this.cal := cal;
      this.bus := bus;
    }

    /** `DMM_GetCurrentScale`. */
    function CurrentScale(): (s: int)
      reads this
      ensures Valid() ==> (s == -1 || ValidIndex(s))
    {
      idx
    }

    /** `DMM_GetCurrentMode`. */
    function CurrentMode(): (m: int)
      reads this
      ensures m == MODE_ILLEGAL <==> !ValidIndex(idx)
      ensures ValidIndex(idx) ==> ModeOfCode(m) == Some(Modes[idx])
    {
      GetMode(idx)
    }

    /** `DMM_GetCurrentRange`. */
    function CurrentRange(): (r: real)
      reads this
      ensures r > 0.0 <==> ValidIndex(idx)
    {
      GetRange(idx)
    }

    /** `DMM_SetUseCalib`. */
    method SetUseCalib(f: bool)
      modifies this`useCalib
      ensures useCalib == f
    {
      useCalib := f;
    }

    /** `DMM_GetCmdSPI` of one register into a local. */
    method ReadByte(reg: int) returns (b: Byte)
      requires Valid()
      modifies this`tx
      ensures Valid() && b == bus.hw(old(tx), reg) && tx == old(tx) + 1
    {
      b := bus.hw(tx, reg);
      tx := tx + 1;
    }

    /** `DMM_GetCmdSPI` of `n` registers into the image at their address. */
    method ReadRegs(reg: nat, n: nat)
      requires Valid() && reg + n <= STS_SIZE
      modifies this`tx, sts
      ensures Valid() && State() == Read(bus, old(State()), reg, n)
    {
      ghost var s0 := sts[..];
      var k := 0;
      while k < n
        invariant 0 <= k <= n
        invariant forall i :: 0 <= i < STS_SIZE ==> sts[i] == if reg <= i < reg + k then bus.hw(tx, i) else s0[i]
        modifies sts
      {
        sts[reg + k] := bus.hw(tx, reg + k);
        k := k + 1;
      }
      assert sts[..] == Splice(s0, reg, Fetch(bus.hw, tx, reg, n));
      tx := tx + 1;
    }

    /** Store three bytes into the image. */
    method Store3(at: nat, bs: seq<Byte>)
      requires Valid() && |bs| == 3 && at + 3 <= STS_SIZE
      modifies sts
      ensures Valid() && sts[..] == Splice(old(sts[..]), at, bs)
    {
      sts[at] := bs[0];
      sts[at + 1] := bs[1];
      sts[at + 2] := bs[2];
    }

    /** `DMM_StartFreqMeasure`: preset CTA to the one-second gate. */
    method StartFreqMeasure()
      requires Valid()
      modifies sts
      ensures Valid() && sts[..] == Splice(old(sts[..]), REG_CTA, FREQ_GATE)
    {
      Store3(REG_CTA, FREQ_GATE);
    }

    /** `DMM_SetScale`: clear the image and the selection; for a valid index
      * select it, load its registers and start the counter on FREQ. */
    method SetScale(i: int) returns (err: Err)
      requires Valid()
      modifies this`idx, this`tx, this`r37, sts
      ensures Valid()
      ensures err == CheckIdx(i)
      ensures ValidIndex(i) ==> idx == i && sts[..] == ScaleImage(i) && r37 == 0x60 && tx == old(tx) + 1
      ensures !ValidIndex(i) ==> idx == -1 && sts[..] == Zeros(STS_SIZE) && tx == old(tx) && r37 == old(r37)
    {
      Clear();
      idx := -1;
      err := CheckIdx(i);
      if err != SUCCESS {
        return;
      }
      r37 := 0x60;
      ReadRegs(REG_R20, 1);
      sts[REG_R20] := 0x48;
      idx := i;
      TableShape();
      LoadConfig(Configs[i]);
      sts[REG_CTSTA] := 0x40;
      sts[REG_CTA + 2] := if GetMode(i) == ModeCode(Frequency) then 0xF0 else 0xBF;
      assert sts[..] == LoadedImage(i);
      if i == SCALE_FREQ {
        StartFreqMeasure();
      }
      LoadedImageIsScaleImage(i);
    }

    /** The `memset` of the image. */
    method Clear()
      requires Valid()
      modifies sts
      ensures Valid() && sts[..] == Zeros(STS_SIZE)
    {
      var k := 0;
      while k < STS_SIZE
        invariant 0 <= k <= STS_SIZE
        invariant forall j :: 0 <= j < k ==> sts[j] == 0
        modifies sts
      {
        sts[k] := 0;
        k := k + 1;
      }
    }

    /** Copy a scale's 20 configuration bytes to R20..R33. */
    method LoadConfig(cfg: seq<Byte>)
      requires Valid() && |cfg| == 20
      modifies sts
      ensures Valid() && sts[..] == Splice(old(sts[..]), REG_R20, cfg)
    {
      ghost var s0 := sts[..];
      var k := 0;
      while k < 20
        invariant 0 <= k <= 20
        invariant forall j :: 0 <= j < STS_SIZE ==> sts[j] == if REG_R20 <= j < REG_R20 + k then cfg[j - REG_R20] else s0[j]
        modifies sts
      {
        sts[REG_R20 + k] := cfg[k];
        k := k + 1;
      }
    }

    method DecodeAd1()
      returns (v: Val, err: Err)
      requires Valid() && ValidIndex(idx)
      modifies this`tx, sts
      ensures Valid() && Step(v, err, State()) == Ad1Path(bus, cal[..], old(State()))
    {
      ReadRegs(REG_AD1, 3);
      var u := Assemble(sts[REG_AD1..REG_AD1 + 3]);
      LEBound(sts[REG_AD1..REG_AD1 + 3]);
      var vad1 := CDiv(Int32(u * 256), 256);
      v, err := Ad1Value(Muls[idx], vad1, useCalib, cal[idx]), SUCCESS;
    }

    method StatusAC() returns (v: Val, err: Err)
      requires Valid() && ValidIndex(idx)
      modifies this`tx, sts
      ensures Valid() && Step(v, err, State()) == AcPath(bus, cal[..], old(State()))
    {
      var intf := ReadByte(REG_INTF);
      if !Bit(intf, 4) {
        return NaN, SUCCESS;
      }
      ReadRegs(REG_RMS, 5);
      var vrms := Assemble(sts[REG_RMS..REG_RMS + 5]);
      v, err := RmsValue(bus.sq, Muls[idx], vrms as real, useCalib, cal[idx]), SUCCESS;
    }

    method StatusCapModeI() returns (v: Val, err: Err)
      requires Valid() && ValidIndex(idx)
      modifies this`tx, sts, measured
      ensures Valid() && Step(v, err, State()) == CapModeIPath(bus, cal[..], old(State()))
    {
      ghost var c0 := State();
      var intf := ReadByte(REG_INTF);
      assert intf == Intf(bus, c0) && State() == Tick(c0);
      if !Bit(intf, 0) {
        return NaN, SUCCESS;
      }
      ReadRegs(REG_CTSTA, 10);
      v, err := ReadCapCounters(Muls[idx], cal[idx]);
    }

    method ReadCapCounters(mul: real, co: Coeff) returns (v: Val, err: Err)
      requires Valid()
      modifies sts, measured
      ensures Valid() && Step(v, err, State()) == CapCounters(old(State()), mul, co)
    {
      ghost var c1 := State();
      var cnt := Assemble(sts[REG_CTA..REG_CTA + 3]);
      var ctb := Assemble(sts[REG_CTB..REG_CTB + 3]);
      var ctc := Assemble(sts[REG_CTC..REG_CTC + 3]);
      assert cnt == LE(c1.sts[REG_CTA..REG_CTA + 3]);
      assert ctb == LE(c1.sts[REG_CTB..REG_CTB + 3]);
      assert ctc == LE(c1.sts[REG_CTC..REG_CTC + 3]);
      v := CountValue(mul, cnt, useCalib, co);
      Store3(REG_CTA, CAP_PRESET);
      measured[1] := Fin(ctb as real);
      measured[2] := Fin(ctc as real);
      err := SUCCESS;
      assert State() == c1.(sts := Splice(c1.sts, REG_CTA, CAP_PRESET),
                            measured := c1.measured[1 := Fin(ctb as real)][2 := Fin(ctc as real)]);
    }

    method StatusCapModeII() returns (v: Val, err: Err)
      requires Valid() && ValidIndex(idx)
      modifies this`tx, sts
      ensures Valid() && Step(v, err, State()) == CapModeIIPath(bus, cal[..], old(State()))
    {
      ReadRegs(REG_R20, 1);
      ReadRegs(REG_R20, 1);
      var intf := ReadByte(REG_INTF);
      if !Bit(intf, 2) {
        return NaN, SUCCESS;
      }
      v, err := DecodeAd1();
    }

    method StatusFreq() returns (v: Val, err: Err)
      requires Valid() && ValidIndex(idx)
      modifies this`tx, sts, measured
      ensures Valid() && Step(v, err, State()) == FreqPath(bus, cal[..], old(State()))
    {
      var intf := ReadByte(REG_INTF);
      if !Bit(intf, 0) {
        return NaN, SUCCESS;
      }
      ReadRegs(REG_CTSTA, 10);
      if Bit(sts[REG_CTSTA], 0) {
        return NaN, SUCCESS;
      }
      v, err := ReadFreqCounters();
    }

    method ReadFreqCounters() returns (v: Val, err: Err)
      requires Valid()
      modifies sts, measured
      ensures Valid() && Step(v, err, State()) == FreqCounters(old(State()))
    {
      ghost var c1 := State();
      var cta := Assemble(sts[REG_CTA..REG_CTA + 3]);
      var ctb := Assemble(sts[REG_CTB..REG_CTB + 3]);
      var ctc := Assemble(sts[REG_CTC..REG_CTC + 3]);
      assert cta == LE(c1.sts[REG_CTA..REG_CTA + 3]);
      assert ctb == LE(c1.sts[REG_CTB..REG_CTB + 3]);
      assert ctc == LE(c1.sts[REG_CTC..REG_CTC + 3]);
      v := Fin(FreqValue(cta, ctb) as real);
      measured[1] := Fin(DutyCycle(cta, ctc));
      StartFreqMeasure();
      err := SUCCESS;
      assert State() == c1.(sts := Splice(c1.sts, REG_CTA, FREQ_GATE), measured := c1.measured[1 := Fin(DutyCycle(cta, ctc))]);
    }

    method StatusDC() returns (v: Val, err: Err)
      requires Valid() && ValidIndex(idx)
      modifies this`tx, sts
      ensures Valid() && Step(v, err, State()) == DcPath(bus, cal[..], old(State()))
    {
      var intf := ReadByte(REG_INTF);
      if !Bit(intf, 2) {
        return NaN, SUCCESS;
      }
      v, err := DecodeAd1();
    }

    /** `DMM_DGetStatus`. */
    method DGetStatus() returns (v: Val, err: Err)
      requires Valid()
      modifies this`tx, sts, measured
      ensures Valid() && Step(v, err, State()) == Status(bus, cal[..], old(State()))
    {
      if CheckIdx(idx) != SUCCESS {
        return NaN, DMM_IDXCONFIG;
      }
      if IsAC(idx) {
        v, err := StatusAC();
      } else if SCALE_50_nF <= idx <= SCALE_500_uF {
        v, err := StatusCapModeI();
      } else if SCALE_5_mF <= idx <= SCALE_50_mF {
        v, err := StatusCapModeII();
      } else if idx == SCALE_FREQ {
        v, err := StatusFreq();
      } else {
        v, err := StatusDC();
      }
    }

    /** `DMM_DGetValue`: retry until a value, an error or the bound. */
    method DGetValue() returns (v: Val, err: Err)
      requires Valid()
      modifies this`tx, sts, measured
      ensures Valid() && Step(v, err, State()) == GetValue(bus, cal[..], old(State()))
    {
      StatusOfReadsStatus(bus, cal[..]);
      var cnt;
      v, err, cnt := PollStatus(StatusOf(bus, cal[..]));
      if err == SUCCESS && cnt >= VALIDDATA_CNTTIMEOUT {
        err := DMM_VALIDDATATIMEOUT;
      }
    }

    /** The retry loop of `DMM_DGetValue`. */
    method PollStatus(ghost read: Chip -> Step) returns (v: Val, err: Err, cnt: nat)
      requires Valid() && ReadsStatus(read, bus, cal[..])
      modifies this`tx, sts, measured
      ensures Valid() && Polled(v, err, State(), cnt) == Poll(read, old(State()), 0)
    {
      ghost var c0 := State();
      cnt := 0;
      while true
        invariant Valid() && cnt <= VALIDDATA_CNTTIMEOUT
        invariant Poll(read, State(), cnt) == Poll(read, c0, 0)
        decreases VALIDDATA_CNTTIMEOUT - cnt
      {
        v, err := DGetStatus();
        if !IsNaN(v) {
          break;
        }
        var below := cnt < VALIDDATA_CNTTIMEOUT;
        cnt := cnt + 1;
        if !below || err != SUCCESS {
          break;
        }
      }
    }

    /** The sampling loop of `DMM_DGetAvgValue`: add each good sample (or its
      * square) until `n` are taken or one is not good. */
    method SumSamples(ghost next: Chip -> Step, n: int, square: bool) returns (acc: real, valid: bool, err: Err)
      requires Valid() && SamplesOf(next, bus, cal[..])
      modifies this`tx, sts, measured
      ensures Valid() && Sweep(acc, valid, err, State()) == Accumulate(next, old(State()), n, square)
    {
      ghost var w0 := Accumulate(next, State(), n, square);
      acc, valid, err := 0.0, true, SUCCESS;
      var i := 0;
      ghost var k := n;
      while i < n && valid
        invariant Valid() && (i <= n || i == 0) && k == n - i
        invariant valid ==> err == SUCCESS
        invariant valid ==> Rest(w0, acc, Accumulate(next, State(), k, square))
        invariant !valid ==> w0 == Sweep(acc, false, err, State())
        decreases n - i
      {
        ghost var prev := State();
        acc, valid, err := AddSample(next, acc, square);
        AccumulateUnfold(next, prev, k, square);
        i, k := i + 1, k - 1;
      }
    }

    /** One pass of the sampling loop: take a sample and add it when good. */
    method AddSample(ghost next: Chip -> Step, acc: real, square: bool) returns (acc': real, valid: bool, err: Err)
      requires Valid() && SamplesOf(next, bus, cal[..])
      modifies this`tx, sts, measured
      ensures Valid()
      ensures var s := next(old(State()));
        State() == s.chip && err == s.err && valid == Good(s)
        && acc' == if valid then acc + Term(s.v.r, square) else acc
    {
      ghost var prev := State();
      var x;
      x, err := DGetValue();
      assert SampleAt(bus, cal[..], prev) == GetValue(bus, cal[..], prev);
      valid := err == SUCCESS && x.Fin?;
      acc' := if valid then acc + Term(x.r, square) else acc;
    }

    /** `DMM_DGetAvgValue`. */
    method DGetAvgValue(n: int) returns (v: Val, err: Err)
      requires Valid()
      modifies this`tx, sts, measured
      ensures Valid() && Step(v, err, State()) == AvgValue(bus, cal[..], old(State()), n)
    {
      err := CheckIdx(idx);
      v := Fin(0.0);
      if err == SUCCESS {
        if IsAC(idx) {
          var acc, valid;
          SamplerSamples(bus, cal[..]);
          acc, valid, err := SumSamples(Sampler(bus, cal[..]), n, true);
          v := if valid && n != 0 then Sqrt(bus.sq, Fin(acc / n as real)) else Fin(acc);
        } else if IsCapacitance(idx) {
          var x;
          x, err := DGetValue();
          if err == SUCCESS {
            return Fin(0.0), err;
          }
        } else {
          var acc, valid;
          SamplerSamples(bus, cal[..]);
          acc, valid, err := SumSamples(Sampler(bus, cal[..]), n, false);
          v := if valid && n != 0 then Fin(acc / n as real) else Fin(acc);
        }
      }
      if err != SUCCESS {
        v := NaN;
      }
    }

    /** `DMM_Measure`. */
    method Measure(raw: bool, avg: Byte) returns (err: Err)
      requires Valid()
      modifies this`tx, this`useCalib, sts, measured
      ensures Valid() && err == MeasureOutcome(bus, cal[..], old(State()), raw, avg).err
      ensures State() == MeasureOutcome(bus, cal[..], old(State()), raw, avg).chip
    {
      var saved := useCalib;
      if raw {
        useCalib := false;
      }
      var v;
      if avg > 1 {
        v, err := DGetAvgValue(avg);
      } else {
        v, err := DGetValue();
      }
      measured[0] := v;
      useCalib := saved;
    }
  }
}
