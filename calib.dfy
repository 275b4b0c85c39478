/** The user calibration of calib.c: the partial data collected for each scale
  * (measured zero, positive and negative points and their references), the
  * coefficients computed from it once it is complete, and the procedures that
  * drive the meter of dmm.c to take the measurements. */
module Calib {
  import opened Common
  import opened Scales
  import opened Dmm

  /** The number of readings averaged for one calibration point. */
  const MEASURE_CNT_AVG: int := 20

  /** The reference of the zero point on resistance scales: 50 mOhm of leads. */
  const CALIB_RES_ZERO_REFVAL: real := 0.05

  /** The partial calibration data of one scale: the measured zero, negative
    * and positive points, the negative and positive references (NaN while
    * absent) and whether the coefficients still have to be saved. */
  datatype Part = Part(msZero: Val, msN: Val, refN: Val, msP: Val, refP: Val, dirty: bool)

  /** The data of a scale nobody has calibrated since start-up. */
  const ABSENT: Part := Part(NaN, NaN, NaN, NaN, NaN, false)

  /** The three calibration points. */
  datatype Point = Zero | Positive | Negative

  function Measured(p: Part, pt: Point): Val
  {
    match pt
    case Zero => p.msZero
    case Positive => p.msP
    case Negative => p.msN
  }

  function WithMeasured(p: Part, pt: Point, v: Val): (q: Part)
    ensures Measured(q, pt) == v
    ensures forall other: Point :: other != pt ==> Measured(q, other) == Measured(p, other)
    ensures q.refP == p.refP && q.refN == p.refN && q.dirty == p.dirty
  {
    match pt
    case Zero => p.(msZero := v)
    case Positive => p.(msP := v)
    case Negative => p.(msN := v)
  }

  /** The reference of the positive or negative point. */
  function Reference(p: Part, pt: Point): Val
    requires pt != Zero
  {
    if pt == Positive then p.refP else p.refN
  }

  function WithReference(p: Part, pt: Point, v: Val): (q: Part)
    requires pt != Zero
    ensures Reference(q, pt) == v
    ensures forall other: Point :: Measured(q, other) == Measured(p, other)
    ensures q.dirty == p.dirty
    ensures pt == Positive ==> q.refN == p.refN
    ensures pt == Negative ==> q.refP == p.refP
  {
    if pt == Positive then p.(refP := v) else p.(refN := v)
  }

  /** `CALIB_ERR_CheckDoubleVal`: only NaN is refused, infinities pass. */
  function CheckDoubleVal(v: Val): (e: Err)
    ensures e == SUCCESS <==> !IsNaN(v)
    ensures e != SUCCESS ==> e == CALIB_NANDOUBLE
  {
    if !IsNaN(v) then SUCCESS else CALIB_NANDOUBLE
  }

  /** A calibration value counts as present when it is not NaN. */
  predicate Present(v: Val) { !IsNaN(v) }

  /** The completeness rule of `CALIB_CheckCompleteCalib`: a DC scale needs
    * all three points, an AC, resistance or diode scale the zero and the
    * positive point. */
  predicate Complete(idx: int, p: Part)
  {
    var z := Present(p.msZero);
    var pos := Present(p.msP) && Present(p.refP);
    var neg := Present(p.msN) && Present(p.refN);
    (IsDC(idx) && z && pos && neg) || ((IsAC(idx) || IsResistor(idx) || IsDiode(idx)) && z && pos)
  }

  /** Only the four calibrated families can complete, each exactly when its
    * points are there; capacitance, frequency and temperature never do. */
  lemma CompleteMeaning(idx: int, p: Part)
    ensures Complete(idx, p) ==> ValidIndex(idx) && Present(p.msZero) && Present(p.msP) && Present(p.refP)
    ensures Complete(idx, p) && IsDC(idx) ==> Present(p.msN) && Present(p.refN)
    ensures IsCapacitance(idx) || idx == SCALE_FREQ || idx == SCALE_TEMP ==> !Complete(idx, p)
    ensures (IsAC(idx) || IsResistor(idx) || IsDiode(idx)) && Present(p.msZero) && Present(p.msP) && Present(p.refP)
      ==> Complete(idx, p)
  {
  }

  /** How a scale is calibrated: by the AC formula, the DC formula, or the
    * two-point formula of resistance, continuity and diode scales with its
    * zero reference; the other scales are not calibrated. */
  datatype Family = ACFamily | DCFamily | TwoPoint(zeroRef: real) | Uncalibrated

  /** The family of a scale, from the mode tests `DMM_FACScale`,
    * `DMM_FDCScale`, `DMM_FResistorScale`, `DMM_FDiodeScale` and
    * `DMM_FContinuityScale`. The zero reference is 50 mOhm of leads on
    * resistance and continuity scales and 0 on the diode scale. */
  function FamilyOf(idx: int): (f: Family)
    ensures f == ACFamily <==> IsAC(idx)
    ensures f == DCFamily <==> IsDC(idx)
    ensures f.TwoPoint? <==> IsResistor(idx) || IsDiode(idx)
    ensures IsResistor(idx) ==> f == TwoPoint(CALIB_RES_ZERO_REFVAL)
    ensures IsDiode(idx) ==> f == TwoPoint(0.0)
    ensures f == Uncalibrated <==> !(IsAC(idx) || IsDC(idx) || IsResistor(idx) || IsDiode(idx))
  {
    if IsResistor(idx) || IsDiode(idx) || IsContinuity(idx) then
      TwoPoint(if IsResistor(idx) || IsContinuity(idx) then CALIB_RES_ZERO_REFVAL else 0.0)
    else if IsAC(idx) then ACFamily
    else if IsDC(idx) then DCFamily
    else Uncalibrated
  }

  /** NaN replaced by 0, as both coefficient computations end. */
  function OrZero(v: Val): (r: Val)
    ensures !IsNaN(r)
    ensures IsNaN(v) ==> r == Fin(0.0)
    ensures !IsNaN(v) ==> r == v
  {
    if IsNaN(v) then Fin(0.0) else v
  }

  /** The gain formula of each family: `refP / sqrt(msP^2 - msZero^2)` on AC,
    * `(refP - refN) / (msP - msN)` on DC and
    * `(zeroRef - refP) / (msZero - msP)` for two points. */
  function Gain(sq: real -> real, f: Family, p: Part): Val
  {
    match f
    case ACFamily => Div(p.refP, Sqrt(sq, Sub(Mul(p.msP, p.msP), Mul(p.msZero, p.msZero))))
    case DCFamily => Div(Sub(p.refP, p.refN), Sub(p.msP, p.msN))
    case TwoPoint(z) => Div(Sub(Fin(z), p.refP), Sub(p.msZero, p.msP))
    case Uncalibrated => Fin(0.0)
  }

  /** The offset of each family for the gain `m`, chosen so that the zero
    * point reads its reference: `zeroRef - msZero * m` under `v * m + Add`,
    * and `msZero` on AC, where it is taken off in quadrature. */
  function Offset(f: Family, p: Part, m: Val): Val
  {
    match f
    case ACFamily => p.msZero
    case DCFamily => Sub(Fin(0.0), Mul(p.msZero, m))
    case TwoPoint(z) => Sub(Fin(z), Mul(p.msZero, m))
    case Uncalibrated => Fin(0.0)
  }

  /** The offset formula as calib.c writes it: `-msZero * (1 + m)` on DC and
    * `(zeroRef - msZero) * (1 + m)` for two points. */
  function OffsetAsWritten(f: Family, p: Part, m: Val): Val
  {
    match f
    case ACFamily => p.msZero
    case DCFamily => Mul(Sub(Fin(0.0), p.msZero), Add(Fin(1.0), m))
    case TwoPoint(z) => Mul(Sub(Fin(z), p.msZero), Add(Fin(1.0), m))
    case Uncalibrated => Fin(0.0)
  }

  /** `CALIB_ComputeMult`. */
  function ComputeMult(sq: real -> real, idx: int, p: Part): (m: Val)
    ensures !IsNaN(m)
    ensures !(IsAC(idx) || IsDC(idx) || IsResistor(idx) || IsDiode(idx)) ==> m == Fin(0.0)
  {
    OrZero(Gain(sq, FamilyOf(idx), p))
  }

  /** `CALIB_ComputeAdd` as written. */
  function ComputeAddAsWritten(sq: real -> real, idx: int, p: Part): (a: Val)
    ensures !IsNaN(a)
    ensures !(IsAC(idx) || IsDC(idx) || IsResistor(idx) || IsDiode(idx)) ==> a == Fin(0.0)
  {
    OrZero(OffsetAsWritten(FamilyOf(idx), p, ComputeMult(sq, idx, p)))
  }

  /** `CALIB_ComputeAdd` with the offset that makes the zero point read its
    * reference. */
  function ComputeAdd(sq: real -> real, idx: int, p: Part): (a: Val)
    ensures !IsNaN(a)
    ensures !(IsAC(idx) || IsDC(idx) || IsResistor(idx) || IsDiode(idx)) ==> a == Fin(0.0)
  {
    OrZero(Offset(FamilyOf(idx), p, ComputeMult(sq, idx, p)))
  }

  /** The coefficients of a family. */
  function FamilyCoefficients(sq: real -> real, f: Family, p: Part): Coeff
  {
    var m := OrZero(Gain(sq, f, p));
    Coeff(m, OrZero(Offset(f, p, m)))
  }

  /** The coefficients a complete calibration of scale `idx` yields. */
  function Coefficients(sq: real -> real, idx: int, p: Part): (co: Coeff)
    ensures co == FamilyCoefficients(sq, FamilyOf(idx), p)
  {
    Coeff(ComputeMult(sq, idx, p), ComputeAdd(sq, idx, p))
  }

  /** The coefficients of a family with the offset as written. */
  function FamilyCoefficientsAsWritten(sq: real -> real, f: Family, p: Part): Coeff
  {
    var m := OrZero(Gain(sq, f, p));
    Coeff(m, OrZero(OffsetAsWritten(f, p, m)))
  }

  /** The coefficients a complete calibration of scale `idx` yields as
    * written. */
  function CoefficientsAsWritten(sq: real -> real, idx: int, p: Part): (co: Coeff)
    ensures co == FamilyCoefficientsAsWritten(sq, FamilyOf(idx), p)
  {
    Coeff(ComputeMult(sq, idx, p), ComputeAddAsWritten(sq, idx, p))
  }

  // Arithmetic facts the calibration lemmas rest on.

  lemma ProductNonZero(g: real, d: real)
    requires g != 0.0 && d != 0.0
    ensures g * d != 0.0
  {
    if g > 0.0 && d > 0.0 { assert g * d > 0.0; }
    else if g > 0.0 { assert g * d < 0.0; }
    else if d > 0.0 { assert g * d < 0.0; }
    else { assert g * d > 0.0; }
  }

  /** A gain computed as `d / (g * d)` undoes the gain `g`. */
  lemma GainCancels(g: real, d: real)
    requires g != 0.0 && d != 0.0
    ensures g * (d / (g * d)) == 1.0
  {
    ProductNonZero(g, d);
    var e := g * d;
    var m := d / e;
    assert m * e == d;
    assert m * e == (m * g) * d;
    assert (m * g - 1.0) * d == 0.0;
  }

  lemma Unscale(g: real, m: real, x: real, y: real)
    requires g * m == 1.0
    ensures (g * x + y) * m - y * m == x
  {
    var t := (g * x + y) * m;
    assert t == x * (g * m) + y * m;
  }

  /** Two non-negative numbers with the same square are equal. */
  lemma SquareUnique(s: real, a: real)
    requires s * s == a * a && 0.0 <= a && 0.0 <= s
    ensures s == a
  {
    var k := s + a;
    if k != 0.0 {
      var d := s - a;
      assert d * k == s * s - a * a;
      assert d * k == 0.0;
      assert d == (d * k) / k;
    }
  }

  /** The non-negative square root of a square is the number squared. */
  lemma SqrtOfSquare(sq: real -> real, a: real)
    requires IsSqrt(sq) && 0.0 <= a
    ensures sq(a * a) == a
  {
    var s := sq(a * a);
    assert 0.0 <= s && s * s == a * a;
    SquareUnique(s, a);
  }

  /** A DC channel that reads `g * x + o` for the input `x`, calibrated on the
    * points 0, refP and refN: afterwards every input reads as itself. */
  lemma DCCalibrationExact(sq: real -> real, p: Part, g: real, o: real, x: real)
    requires g != 0.0
    requires p.refP.Fin? && p.refN.Fin? && p.refP.r != p.refN.r
    requires p.msZero == Fin(o) && p.msP == Fin(g * p.refP.r + o) && p.msN == Fin(g * p.refN.r + o)
    ensures Calibrated(Fin(g * x + o), true, FamilyCoefficients(sq, DCFamily, p)) == Fin(x)
  {
    var d := p.refP.r - p.refN.r;
    assert p.msP.r - p.msN.r == g * d;
    var m := d / (g * d);
    GainCancels(g, d);
    assert Gain(sq, DCFamily, p) == Fin(m);
    assert Offset(DCFamily, p, Fin(m)) == Fin(0.0 - o * m);
    Unscale(g, m, x, o);
  }

  /** A resistance or diode channel that reads `g * x + o`, calibrated on the
    * zero reference `z` and refP: afterwards every input reads as itself. */
  lemma TwoPointCalibrationExact(sq: real -> real, z: real, p: Part, g: real, o: real, x: real)
    requires g != 0.0
    requires p.refP.Fin? && p.refP.r != z
    requires p.msZero == Fin(g * z + o) && p.msP == Fin(g * p.refP.r + o)
    ensures Calibrated(Fin(g * x + o), true, FamilyCoefficients(sq, TwoPoint(z), p)) == Fin(x)
  {
    var d := z - p.refP.r;
    assert p.msZero.r - p.msP.r == g * d;
    var m := d / (g * d);
    GainCancels(g, d);
    assert Gain(sq, TwoPoint(z), p) == Fin(m);
    var a := z - (g * z + o) * m;
    assert Offset(TwoPoint(z), p, Fin(m)) == Fin(a);
    assert a == 0.0 - o * m by {
      Unscale(g, m, z, o);
    }
    Unscale(g, m, x, o);
  }

  /** An AC channel whose RMS reading squared is `(g * x)^2 + o^2` for the
    * input `x` (an offset `o` that adds in quadrature), calibrated on 0 and
    * refP: afterwards every input reads as itself. */
  lemma ACCalibrationExact(sq: real -> real, p: Part, g: real, o: real, x: real)
    requires IsSqrt(sq) && g > 0.0 && 0.0 <= o && 0.0 <= x
    requires p.refP.Fin? && p.refP.r > 0.0
    requires p.msZero == Fin(o) && p.msP == Fin(sq(g * g * p.refP.r * p.refP.r + o * o))
    ensures RmsCalibrated(sq, g * g * x * x + o * o, FamilyCoefficients(sq, ACFamily, p)) == Fin(x)
  {
    var m := p.refP.r / (g * p.refP.r);
    ACGainUndoes(sq, p, g, o);
    assert FamilyCoefficients(sq, ACFamily, p) == Coeff(Fin(m), Fin(o));
    var gx := g * x;
    assert g * g * x * x == gx * gx;
    assert Sub(Fin(g * g * x * x + o * o), Mul(Fin(o), Fin(o))) == Fin(gx * gx);
    SqrtOfSquare(sq, gx);
    assert gx * m == x by {
      Unscale(g, m, x, 0.0);
    }
  }

  /** The AC gain computed from such a channel is the inverse of `g`. */
  lemma ACGainUndoes(sq: real -> real, p: Part, g: real, o: real)
    requires IsSqrt(sq) && g > 0.0 && 0.0 <= o
    requires p.refP.Fin? && p.refP.r > 0.0
    requires p.msZero == Fin(o) && p.msP == Fin(sq(g * g * p.refP.r * p.refP.r + o * o))
    ensures Gain(sq, ACFamily, p) == Fin(p.refP.r / (g * p.refP.r))
    ensures g * (p.refP.r / (g * p.refP.r)) == 1.0
  {
    var rp := p.refP.r;
    var gr := g * rp;
    assert p.msP.r * p.msP.r == g * g * rp * rp + o * o;
    assert g * g * rp * rp == gr * gr;
    SqrtOfSquare(sq, gr);
    GainCancels(g, rp);
    assert Sub(Mul(p.msP, p.msP), Mul(p.msZero, p.msZero)) == Fin(gr * gr);
  }

  /** As written, the DC offset makes the zero point itself read `-msZero`
    * after calibration, where its reference is 0. */
  lemma AsWrittenDCZeroReadsNegated(sq: real -> real, idx: int, p: Part)
    requires IsDC(idx)
    requires p.msZero.Fin? && p.msP.Fin? && p.msN.Fin? && p.refP.Fin? && p.refN.Fin? && p.msP.r != p.msN.r
    ensures Calibrated(p.msZero, true, Coeff(ComputeMult(sq, idx, p), ComputeAddAsWritten(sq, idx, p)))
      == Fin(-p.msZero.r)
  {
    var m := (p.refP.r - p.refN.r) / (p.msP.r - p.msN.r);
    assert ComputeMult(sq, idx, p) == Fin(m);
    assert OffsetAsWritten(DCFamily, p, Fin(m)) == Fin((0.0 - p.msZero.r) * (1.0 + m));
  }

  /** With the corrected offset the DC zero point reads 0. */
  lemma DCZeroReadsZero(sq: real -> real, idx: int, p: Part)
    requires IsDC(idx)
    requires p.msZero.Fin? && p.msP.Fin? && p.msN.Fin? && p.refP.Fin? && p.refN.Fin? && p.msP.r != p.msN.r
    ensures Calibrated(p.msZero, true, Coefficients(sq, idx, p)) == Fin(0.0)
  {
    var m := (p.refP.r - p.refN.r) / (p.msP.r - p.msN.r);
    assert ComputeMult(sq, idx, p) == Fin(m);
    assert Offset(DCFamily, p, Fin(m)) == Fin(0.0 - p.msZero.r * m);
  }

  /** A DC channel with unit gain and a 1 mV offset, calibrated on 0, +1 V and
    * -1 V: the as-written coefficients read the zero point as -1 mV, the
    * corrected ones as 0. */
  lemma AsWrittenDCOffsetExample(sq: real -> real)
    ensures var p := Part(Fin(0.001), Fin(-0.999), Fin(-1.0), Fin(1.001), Fin(1.0), false);
      Calibrated(p.msZero, true, Coeff(ComputeMult(sq, SCALE_DC_50mV, p), ComputeAddAsWritten(sq, SCALE_DC_50mV, p)))
        == Fin(-0.001)
      && Calibrated(p.msZero, true, Coefficients(sq, SCALE_DC_50mV, p)) == Fin(0.0)
  {
    var p := Part(Fin(0.001), Fin(-0.999), Fin(-1.0), Fin(1.001), Fin(1.0), false);
    assert IsDC(SCALE_DC_50mV);
    AsWrittenDCZeroReadsNegated(sq, SCALE_DC_50mV, p);
    DCZeroReadsZero(sq, SCALE_DC_50mV, p);
  }

  /** As written, the two-point offset `(zeroRef - msZero) * (1 + m)` makes
    * the zero point read `zeroRef * (1 + m) - msZero` after calibration,
    * where its reference is `zeroRef`. */
  lemma AsWrittenTwoPointZeroReading(sq: real -> real, z: real, p: Part)
    requires p.msZero.Fin? && p.msP.Fin? && p.refP.Fin? && p.msZero.r != p.msP.r
    ensures var m := (z - p.refP.r) / (p.msZero.r - p.msP.r);
      Calibrated(p.msZero, true, FamilyCoefficientsAsWritten(sq, TwoPoint(z), p)) == Fin(z + z * m - p.msZero.r)
  {
    var m := (z - p.refP.r) / (p.msZero.r - p.msP.r);
    assert Gain(sq, TwoPoint(z), p) == Fin(m);
    assert OffsetAsWritten(TwoPoint(z), p, Fin(m)) == Fin((z - p.msZero.r) * (1.0 + m));
  }

  /** As written, a linear resistance or diode channel that reads `g * x + o`
    * reads every input `x` shifted by `zeroRef / g - msZero` after the
    * two-point calibration: off by the raw zero reading on the diode scale
    * and by more than the lead resistance on resistance scales. */
  lemma AsWrittenTwoPointShifted(sq: real -> real, z: real, p: Part, g: real, o: real, x: real)
    requires g != 0.0
    requires p.refP.Fin? && p.refP.r != z
    requires p.msZero == Fin(g * z + o) && p.msP == Fin(g * p.refP.r + o)
    ensures Calibrated(Fin(g * x + o), true, FamilyCoefficientsAsWritten(sq, TwoPoint(z), p))
      == Fin(x + z / g - p.msZero.r)
  {
    var d := z - p.refP.r;
    assert p.msZero.r - p.msP.r == g * d;
    var m := d / (g * d);
    GainCancels(g, d);
    assert Gain(sq, TwoPoint(z), p) == Fin(m);
    var a := (z - (g * z + o)) * (1.0 + m);
    assert OffsetAsWritten(TwoPoint(z), p, Fin(m)) == Fin(a);
    ShiftedReading(g, m, x, z, o);
  }

  /** The arithmetic of `AsWrittenTwoPointShifted`: with `g * m == 1`,
    * `(g x + o) m + (z - (g z + o)) (1 + m) == x + z / g - (g z + o)`. */
  lemma ShiftedReading(g: real, m: real, x: real, z: real, o: real)
    requires g * m == 1.0
    ensures (g * x + o) * m + (z - (g * z + o)) * (1.0 + m) == x + z / g - (g * z + o)
  {
    assert (g * x) * m == x * (g * m);
    assert (g * z) * m == z * (g * m);
    assert g != 0.0;
    assert z / g == z * m by {
      assert (z * m) * g == z * (g * m);
    }
    assert (g * x + o) * m == x + o * m;
    assert (z - (g * z + o)) * (1.0 + m) == z - g * z - o + z * m - z - o * m;
  }

  /** With the corrected offset the two-point zero point reads its
    * reference. */
  lemma TwoPointZeroReadsReference(sq: real -> real, z: real, p: Part)
    requires p.msZero.Fin? && p.msP.Fin? && p.refP.Fin? && p.msZero.r != p.msP.r
    ensures Calibrated(p.msZero, true, FamilyCoefficients(sq, TwoPoint(z), p)) == Fin(z)
  {
    var m := (z - p.refP.r) / (p.msZero.r - p.msP.r);
    assert Gain(sq, TwoPoint(z), p) == Fin(m);
    assert Offset(TwoPoint(z), p, Fin(m)) == Fin(z - p.msZero.r * m);
  }

  /** The 500 Ohm scale with unit gain and leads reading 10 mOhm low,
    * calibrated on the 50 mOhm zero reference and on 100 Ohm: the
    * as-written coefficients read the zero point as 60 mOhm, the corrected
    * ones as 50 mOhm. */
  lemma AsWrittenTwoPointOffsetExample(sq: real -> real)
    ensures var p := Part(Fin(0.04), NaN, NaN, Fin(99.99), Fin(100.0), false);
      Calibrated(p.msZero, true, CoefficientsAsWritten(sq, SCALE_500_Ohm, p)) == Fin(0.06)
      && Calibrated(p.msZero, true, Coefficients(sq, SCALE_500_Ohm, p)) == Fin(0.05)
  {
    var p := Part(Fin(0.04), NaN, NaN, Fin(99.99), Fin(100.0), false);
    var z := CALIB_RES_ZERO_REFVAL;
    assert FamilyOf(SCALE_500_Ohm) == TwoPoint(z);
    var m := (z - 100.0) / (0.04 - 99.99);
    assert m == 1.0;
    AsWrittenTwoPointZeroReading(sq, z, p);
    assert Calibrated(p.msZero, true, FamilyCoefficientsAsWritten(sq, TwoPoint(z), p)) == Fin(z + z * m - 0.04);
    TwoPointZeroReadsReference(sq, z, p);
  }

  /** `CALIB_ReplaceCalibNullValues` on one scale: a zero or NaN gain becomes
    * 1, a zero or NaN offset becomes 0. */
  function Normalised(co: Coeff): Coeff
  {
    Coeff(if co.mult == Fin(0.0) || IsNaN(co.mult) then Fin(1.0) else co.mult,
          if co.add == Fin(0.0) || IsNaN(co.add) then Fin(0.0) else co.add)
  }

  /** After normalising, the gain is neither 0 nor NaN and the offset is not
    * NaN; usable coefficients are kept, and normalising twice changes
    * nothing. The all-zero image of an empty memory becomes the identity. */
  lemma NormalisedMeaning(co: Coeff)
    ensures var n := Normalised(co);
      n.mult != Fin(0.0) && !IsNaN(n.mult) && !IsNaN(n.add) && Normalised(n) == n
    ensures co.mult != Fin(0.0) && !IsNaN(co.mult) && !IsNaN(co.add) ==> Normalised(co) == co
    ensures Normalised(Coeff(Fin(0.0), Fin(0.0))) == IDENTITY
  {
  }

  /** The data and coefficients `CALIB_CheckCompleteCalib` leaves: for a
    * selected scale whose data is complete, the coefficients computed from it
    * and the dirty mark; otherwise both unchanged. */
  function Finalise(sq: real -> real, idx: int, parts: seq<Part>, coeffs: seq<Coeff>): (seq<Part>, seq<Coeff>)
    requires |parts| == |coeffs| == DMM_CNTSCALES
  {
    if ValidIndex(idx) && Complete(idx, parts[idx]) then
      (parts[idx := parts[idx].(dirty := true)], coeffs[idx := Coefficients(sq, idx, parts[idx])])
    else (parts, coeffs)
  }

  /** Finalising touches only the selected scale, and only its dirty mark
    * among the partial data; once finalised, finalising again gives the same
    * coefficients. */
  lemma FinaliseMeaning(sq: real -> real, idx: int, parts: seq<Part>, coeffs: seq<Coeff>)
    requires |parts| == |coeffs| == DMM_CNTSCALES
    ensures var (ps, cs) := Finalise(sq, idx, parts, coeffs);
      |ps| == |cs| == DMM_CNTSCALES
      && (forall j :: 0 <= j < DMM_CNTSCALES && j != idx ==> ps[j] == parts[j] && cs[j] == coeffs[j])
      && (forall j :: 0 <= j < DMM_CNTSCALES ==> ps[j].(dirty := parts[j].dirty) == parts[j])
      && Finalise(sq, idx, ps, cs) == (ps, cs)
  {
    var (ps, cs) := Finalise(sq, idx, parts, coeffs);
    if ValidIndex(idx) && Complete(idx, parts[idx]) {
      assert ps[idx].(dirty := parts[idx].dirty) == parts[idx];
      assert Complete(idx, ps[idx]);
      assert Coefficients(sq, idx, ps[idx]) == Coefficients(sq, idx, parts[idx]);
      assert ps[idx := ps[idx].(dirty := true)] == ps;
      assert cs[idx := Coefficients(sq, idx, ps[idx])] == cs;
    }
  }

  /** The element of the partial data the early-measurement branch of
    * `CALIB_CalibOnPositive` and `CALIB_CalibOnNegative` reads as written:
    * the selected scale's, whether or not the index check passed. */
  function EarlyReadAsWritten(idx: int, early: bool): (r: Option<int>)
    ensures r.Some? <==> early
  {
    if early then Some(idx) else None
  }

  /** With no scale selected (the state after start-up or a refused
    * `DMM_SetScale`) the index check fails, yet the early branch reads
    * element -1 of the 44-element array. */
  lemma EarlyReadUnchecked()
    ensures CheckIdx(SCALE_ILLEGAL) == DMM_IDXCONFIG
    ensures var r := EarlyReadAsWritten(SCALE_ILLEGAL, true); r.Some? && !ValidIndex(r.value)
  {
  }

  /** The calibration measurement: `DMM_DGetAvgValue` over
    * `MEASURE_CNT_AVG` readings with the calibration switched off. */
  function RawAverage(bus: Bus, coeffs: seq<Coeff>, c: Chip): (s: Step)
    requires ChipOk(c) && |coeffs| == DMM_CNTSCALES
    ensures ChipOk(s.chip) && s.chip.idx == c.idx && !s.chip.useCalib
  {
    AvgValue(bus, coeffs, c.(useCalib := false), MEASURE_CNT_AVG)
  }

  /** The calibration module: the partial data of every scale, and the meter
    * whose coefficient table it fills. */
  class Calibrator {
    const dmm: Meter
    const part: array<Part>

    ghost predicate Valid()
      reads this, dmm
    {
      part.Length == DMM_CNTSCALES && dmm.Valid()
    }

    /** The partial data as static storage holds it before `CALIB_Init`. */
    constructor (dmm: Meter)
      requires dmm.Valid()
      ensures Valid() && this.dmm == dmm && fresh(part)
    {
      this.dmm := dmm;
      part := new Part[DMM_CNTSCALES](_ => Part(Fin(0.0), Fin(0.0), Fin(0.0), Fin(0.0), Fin(0.0), false));
    }

    /** `CALIB_Init`: no partial data and identity coefficients everywhere. */
    method Init() returns (err: Err)
      requires Valid()
      modifies part, dmm.cal
      ensures Valid() && err == SUCCESS
      ensures forall i :: 0 <= i < part.Length ==> part[i] == ABSENT
      ensures forall i :: 0 <= i < dmm.cal.Length ==> dmm.cal[i] == IDENTITY
    {
      InitPartCalibData();
      err := ReadAllCalibsFromEPROM();
    }

    /** `CALIB_InitPartCalibData`. */
    method InitPartCalibData()
      requires Valid()
      modifies part
      ensures forall i :: 0 <= i < part.Length ==> part[i] == ABSENT
    {
      for i := 0 to part.Length
        invariant forall j :: 0 <= j < i ==> part[j] == ABSENT
      {
        part[i] := ABSENT;
      }
    }

    /** `CALIB_ReadAllCalibsFromEPROM`: the memory is not read yet, so the
      * coefficients are cleared and then normalised. */
    method ReadAllCalibsFromEPROM() returns (err: Err)
      requires Valid()
      modifies dmm.cal
      ensures err == SUCCESS
      ensures forall i :: 0 <= i < dmm.cal.Length ==> dmm.cal[i] == IDENTITY
    {
      err := SUCCESS;
      forall i | 0 <= i < dmm.cal.Length {
        dmm.cal[i] := Coeff(Fin(0.0), Fin(0.0));
      }
      ReplaceCalibNullValues();
    }

    /** `CALIB_ReplaceCalibNullValues`. */
    method ReplaceCalibNullValues()
      requires Valid()
      modifies dmm.cal
      ensures forall i :: 0 <= i < dmm.cal.Length ==> dmm.cal[i] == Normalised(old(dmm.cal[i]))
    {
      for i := 0 to DMM_CNTSCALES
        invariant forall j :: 0 <= j < i ==> dmm.cal[j] == Normalised(old(dmm.cal[j]))
        invariant forall j :: i <= j < DMM_CNTSCALES ==> dmm.cal[j] == old(dmm.cal[j])
      {
        var co := dmm.cal[i];
        if co.mult == Fin(0.0) || IsNaN(co.mult) {
          co := co.(mult := Fin(1.0));
        }
        if co.add == Fin(0.0) || IsNaN(co.add) {
          co := co.(add := Fin(0.0));
        }
        dmm.cal[i] := co;
      }
    }

    /** `CALIB_CheckCompleteCalib` for the selected scale. */
    method CheckCompleteCalib() returns (done: bool)
      requires Valid()
      modifies part, dmm.cal
      ensures Valid()
      ensures done <==> ValidIndex(dmm.idx) && Complete(dmm.idx, old(part[dmm.idx]))
      ensures (part[..], dmm.cal[..]) == Finalise(dmm.bus.sq, dmm.idx, old(part[..]), old(dmm.cal[..]))
    {
      var idx := dmm.CurrentScale();
      done := false;
      if 0 <= idx < DMM_CNTSCALES {
        done := Complete(idx, part[idx]);
        if done {
          dmm.cal[idx] := Coefficients(dmm.bus.sq, idx, part[idx]);
          part[idx] := part[idx].(dirty := true);
        }
      }
    }

    /** `CALIB_MeasureForCalibZeroVal`, `CALIB_MeasureForCalibPositiveVal` and
      * `CALIB_MeasureForCalibNegativeVal`: measure the point uncalibrated and
      * store it; the result is NaN on error. */
    method MeasureForCalib(pt: Point) returns (err: Err, v: Val)
      requires Valid()
      modifies part, dmm`tx, dmm`useCalib, dmm.sts, dmm.measured
      ensures Valid()
      ensures !ValidIndex(old(dmm.idx)) ==>
        err == DMM_IDXCONFIG && v == NaN && part[..] == old(part[..]) && dmm.State() == old(dmm.State())
      ensures ValidIndex(old(dmm.idx)) ==>
        var s := RawAverage(dmm.bus, dmm.cal[..], old(dmm.State()));
        err == s.err && dmm.State() == s.chip.(useCalib := true)
        && (err == SUCCESS ==> v == s.v && part[..] == old(part[..])[dmm.idx := WithMeasured(old(part[dmm.idx]), pt, v)])
        && (err != SUCCESS ==> v == NaN && part[..] == old(part[..]))
    {
      v := NaN;
      var idx := dmm.CurrentScale();
      err := CheckIdx(idx);
      if err == SUCCESS {
        dmm.SetUseCalib(false);
        v, err := dmm.DGetAvgValue(MEASURE_CNT_AVG);
        dmm.SetUseCalib(true);
        if err == SUCCESS {
          part[idx] := WithMeasured(part[idx], pt, v);
        }
      }
      if err != SUCCESS {
        v := NaN;
      }
    }

    /** `CALIB_CalibOnZero`: measure the zero point and finalise the scale if
      * its data is then complete. The measured value is not written when no
      * scale is selected. */
    method CalibOnZero() returns (err: Err, v: Option<Val>)
      requires Valid()
      modifies part, dmm`tx, dmm`useCalib, dmm.sts, dmm.measured, dmm.cal
      ensures Valid()
      ensures !ValidIndex(old(dmm.idx)) ==>
        err == DMM_IDXCONFIG && v == None && part[..] == old(part[..]) && dmm.cal[..] == old(dmm.cal[..])
        && dmm.State() == old(dmm.State())
      ensures ValidIndex(old(dmm.idx)) ==>
        var s := RawAverage(dmm.bus, old(dmm.cal[..]), old(dmm.State()));
        err == s.err && v.Some? && dmm.State() == s.chip.(useCalib := true)
        && (err == SUCCESS ==>
              v.value == s.v
              && (part[..], dmm.cal[..]) == Finalise(dmm.bus.sq, dmm.idx,
                   old(part[..])[dmm.idx := old(part[dmm.idx]).(msZero := s.v)], old(dmm.cal[..])))
        && (err != SUCCESS ==> v.value == NaN && part[..] == old(part[..]) && dmm.cal[..] == old(dmm.cal[..]))
    {
      var idx := dmm.CurrentScale();
      err := CheckIdx(idx);
      v := None;
      if err == SUCCESS {
        var x;
        err, x := MeasureForCalib(Zero);
        v := Some(x);
        if err == SUCCESS {
          var _ := CheckCompleteCalib();
        }
      }
    }

    /** `CALIB_CalibOnPositive` and `CALIB_CalibOnNegative`, with the early
      * branch reading the stored measurement only for a valid scale. Without
      * `early` the point is measured now; with it the stored measurement is
      * reported and must be there. The reference is then checked and stored,
      * NaN is stored instead if it is NaN, and the scale finalised if its
      * data is complete. */
    method CalibOnReference(pt: Point, ref: Val, early: bool) returns (err: Err, v: Option<Val>)
      requires Valid() && pt != Zero
      modifies part, dmm`tx, dmm`useCalib, dmm.sts, dmm.measured, dmm.cal
      ensures Valid()
      ensures !ValidIndex(old(dmm.idx)) ==>
        err == DMM_IDXCONFIG && part[..] == old(part[..]) && dmm.cal[..] == old(dmm.cal[..])
        && dmm.State() == old(dmm.State()) && (early <==> v == None) && (!early ==> v == Some(NaN))
      ensures ValidIndex(old(dmm.idx)) && early ==>
        var ms := Measured(old(part[dmm.idx]), pt);
        v == Some(ms) && dmm.State() == old(dmm.State())
        && (IsNaN(ms) ==> err == CALIB_MISSINGMEASUREMENT && part[..] == old(part[..]) && dmm.cal[..] == old(dmm.cal[..]))
        && (!IsNaN(ms) ==> err == CheckDoubleVal(ref) && ReferenceStored(old(part[..]), old(dmm.cal[..]), pt, ref))
      ensures ValidIndex(old(dmm.idx)) && !early ==>
        var s := RawAverage(dmm.bus, old(dmm.cal[..]), old(dmm.State()));
        v.Some? && dmm.State() == s.chip.(useCalib := true)
        && (s.err != SUCCESS ==> err == s.err && v.value == NaN && part[..] == old(part[..]) && dmm.cal[..] == old(dmm.cal[..]))
        && (s.err == SUCCESS ==>
              v.value == s.v && err == CheckDoubleVal(ref)
              && ReferenceStored(old(part[..])[dmm.idx := WithMeasured(old(part[dmm.idx]), pt, s.v)], old(dmm.cal[..]), pt, ref))
    {
      var idx := dmm.CurrentScale();
      err := CheckIdx(idx);
      v := None;
      if !early {
        var x;
        err, x := MeasureForCalib(pt);
        v := Some(x);
      } else if err == SUCCESS {
        var ms := Measured(part[idx], pt);
        v := Some(ms);
        if IsNaN(ms) {
          err := CALIB_MISSINGMEASUREMENT;
        }
      }
      if err == SUCCESS {
        err := CheckDoubleVal(ref);
        if err == SUCCESS {
          part[idx] := WithReference(part[idx], pt, ref);
          var _ := CheckCompleteCalib();
        } else {
          part[idx] := WithReference(part[idx], pt, NaN);
        }
      }
    }

    /** The state after storing the reference `ref` of point `pt` on the
      * selected scale into `parts`: finalised with `ref` stored, or `ref`
      * replaced by NaN when it is NaN itself (the same thing then). */
    ghost predicate ReferenceStored(parts: seq<Part>, coeffs: seq<Coeff>, pt: Point, ref: Val)
      requires pt != Zero && |parts| == |coeffs| == DMM_CNTSCALES && ValidIndex(dmm.idx)
      reads this, dmm, part, dmm.cal
    {
      var parts' := parts[dmm.idx := WithReference(parts[dmm.idx], pt, ref)];
      if IsNaN(ref) then part[..] == parts' && dmm.cal[..] == coeffs
      else (part[..], dmm.cal[..]) == Finalise(dmm.bus.sq, dmm.idx, parts', coeffs)
    }

    /** `CALIB_ImportCalibCoefficients`. */
    method ImportCalibCoefficients(idx: int, mult: Val, add: Val) returns (err: Err)
      requires Valid()
      modifies part, dmm.cal
      ensures Valid() && err == CheckIdx(idx)
      ensures err == SUCCESS ==>
        dmm.cal[..] == old(dmm.cal[..])[idx := Coeff(mult, add)]
        && part[..] == old(part[..])[idx := old(part[idx]).(dirty := true)]
      ensures err != SUCCESS ==> dmm.cal[..] == old(dmm.cal[..]) && part[..] == old(part[..])
    {
      err := CheckIdx(idx);
      if err == SUCCESS {
        dmm.cal[idx] := Coeff(mult, add);
        part[idx] := part[idx].(dirty := true);
      }
    }
  }
}
