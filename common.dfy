/** Shared vocabulary of the firmware model: bytes, the error codes of dmm.h,
  * and `Val`, the model of a C `double` that keeps the NaN and infinity cases
  * the firmware relies on but computes on exact reals. */
module Common {

  datatype Option<T> = None | Some(value: T)

  /** A value, or the error code the firmware returns instead of writing it. */
  datatype Result<T> = Ok(value: T) | Failure(err: Err)

  /** A C `uint8_t`. */
  type Byte = x: int | 0 <= x < 256

  /** Error codes (Core/Inc/dmm.h). */
  type Err = Byte
  const SUCCESS: Err := 0
  const DMM_IDXCONFIG: Err := 0xFC
  const CALIB_NANDOUBLE: Err := 0xFB
  const DMM_VALIDDATATIMEOUT: Err := 0xFA
  const CMD_WRONGPARAMS: Err := 0xF9
  const DMM_CFGVERIFY: Err := 0xF5
  const CALIB_MISSINGMEASUREMENT: Err := 0xF0

  /** Bit `k` of a non-negative integer. */
  predicate Bit(x: nat, k: nat) { (x / Pow2(k)) % 2 == 1 }

  function Pow2(k: nat): (p: nat)
    ensures p >= 1
  {
    if k == 0 then 1 else 2 * Pow2(k - 1)
  }

  /** A double: a finite value, one of the two infinities, or NaN. */
  datatype Val = Fin(r: real) | PosInf | NegInf | NaN

  predicate IsNaN(v: Val) { v.NaN? }
  predicate IsInf(v: Val) { v.PosInf? || v.NegInf? }

  /** -1, 0 or 1 for a value that is not NaN. */
  function Sign(v: Val): (s: int)
    requires !v.NaN?
    ensures -1 <= s <= 1
    ensures s == 0 <==> v == Fin(0.0)
  {
    match v
    case PosInf => 1
    case NegInf => -1
    case Fin(x) => if x > 0.0 then 1 else if x < 0.0 then -1 else 0
  }

  /** The infinity of sign `s`. */
  function Inf(s: int): (v: Val)
    requires s == 1 || s == -1
    ensures IsInf(v) && Sign(v) == s
  {
    if s == 1 then PosInf else NegInf
  }

  /** The sign of a product, from the signs of its factors. */
  function SignProduct(s: int, t: int): int
  {
    if s == 0 || t == 0 then 0 else if s == t then 1 else -1
  }

  function Neg(a: Val): (r: Val)
    ensures IsNaN(r) <==> IsNaN(a)
    ensures !IsNaN(a) ==> Sign(r) == -Sign(a)
  {
    match a
    case Fin(x) => Fin(-x)
    case PosInf => NegInf
    case NegInf => PosInf
    case NaN => NaN
  }

  /** IEEE addition without rounding: opposite infinities give NaN. */
  function Add(a: Val, b: Val): (r: Val)
    ensures IsNaN(r) <==> IsNaN(a) || IsNaN(b) || (IsInf(a) && IsInf(b) && a != b)
    ensures a.Fin? && b.Fin? ==> r == Fin(a.r + b.r)
  {
    match (a, b)
    case (NaN, _) => NaN
    case (_, NaN) => NaN
    case (Fin(x), Fin(y)) => Fin(x + y)
    case (Fin(_), _) => b
    case (_, Fin(_)) => a
    case (_, _) => if a == b then a else NaN
  }

  function Sub(a: Val, b: Val): (r: Val)
    ensures IsNaN(r) <==> IsNaN(a) || IsNaN(b) || (IsInf(a) && IsInf(b) && a == b)
    ensures a.Fin? && b.Fin? ==> r == Fin(a.r - b.r)
  {
    if a.Fin? && b.Fin? then Fin(a.r - b.r) else Add(a, Neg(b))
  }

  /** IEEE multiplication without rounding: infinity times zero gives NaN. */
  function Mul(a: Val, b: Val): (r: Val)
    ensures IsNaN(r) <==> IsNaN(a) || IsNaN(b) || (IsInf(a) && b == Fin(0.0)) || (a == Fin(0.0) && IsInf(b))
    ensures a.Fin? && b.Fin? ==> r == Fin(a.r * b.r)
    ensures !IsNaN(r) && (IsInf(a) || IsInf(b)) ==> IsInf(r) && Sign(r) == SignProduct(Sign(a), Sign(b))
  {
    if IsNaN(a) || IsNaN(b) then NaN
    else if a.Fin? && b.Fin? then Fin(a.r * b.r)
    else if SignProduct(Sign(a), Sign(b)) == 0 then NaN
    else Inf(SignProduct(Sign(a), Sign(b)))
  }

  /** IEEE division without rounding or signed zeros: a non-zero value over
    * zero is an infinity, 0/0 and infinity/infinity are NaN. */
  function Div(a: Val, b: Val): (r: Val)
    ensures IsNaN(r) <==> IsNaN(a) || IsNaN(b) || (a == Fin(0.0) && b == Fin(0.0)) || (IsInf(a) && IsInf(b))
    ensures a.Fin? && b.Fin? && b.r != 0.0 ==> r == Fin(a.r / b.r)
    ensures a.Fin? && IsInf(b) ==> r == Fin(0.0)
  {
    if IsNaN(a) || IsNaN(b) then NaN
    else if a.Fin? && b.Fin? then
      if b.r != 0.0 then Fin(a.r / b.r)
      else if a.r == 0.0 then NaN
      else Inf(Sign(a))
    else if a.Fin? then Fin(0.0)
    else if b.Fin? then (if b.r == 0.0 then a else Inf(SignProduct(Sign(a), Sign(b))))
    else NaN
  }

  /** `fabs`. */
  function Fabs(a: Val): (r: Val)
    ensures IsNaN(r) <==> IsNaN(a)
    ensures !IsNaN(a) ==> Sign(r) >= 0
  {
    match a
    case Fin(x) => if x < 0.0 then Fin(-x) else a
    case NegInf => PosInf
    case _ => a
  }

  /** `sqrt`, where `sq` is the C library's square root on non-negative
    * reals; negative arguments and -infinity give NaN. */
  function Sqrt(sq: real -> real, a: Val): (r: Val)
    ensures IsNaN(r) <==> IsNaN(a) || a == NegInf || (a.Fin? && a.r < 0.0)
    ensures a.Fin? && a.r >= 0.0 ==> r == Fin(sq(a.r))
  {
    match a
    case Fin(x) => if x < 0.0 then NaN else Fin(sq(x))
    case PosInf => PosInf
    case _ => NaN
  }

  /** What the model asks of the square root it is given. */
  ghost predicate IsSqrt(sq: real -> real)
  {
    forall x: real {:trigger sq(x)} :: 0.0 <= x ==> 0.0 <= sq(x) && sq(x) * sq(x) == x
  }
}
