/** The 256-bit word operations the interpreter applies to stack operands. They
    follow the EVM's arithmetic rules: results wrap modulo 2^256, division and
    modulo by zero give zero, signed operations read words as two's complement. */
module U256 {
  import opened Words

  function Pow2(k: nat): (r: nat)
    ensures r > 0
  {
    if k == 0 then 1 else 2 * Pow2(k - 1)
  }

  lemma DivNoLarger(a: nat, p: nat)
    requires p > 0
    ensures 0 <= a / p <= a
  {
    MulMonotone(1, p, a / p);
  }

  lemma ModNoLarger(a: nat, p: nat)
    requires p > 0
    ensures a % p <= a
  {
    MulMonotone(0, a / p, p);
  }

  function Bool(b: bool): Word
  {
    if b then 1 else 0
  }

  function ToSigned(a: Word): int
  {
    if a < TWO_255 then a else a - TWO_256
  }

  function FromSigned(x: int): Word
  {
    x % TWO_256
  }

  function Abs(x: int): nat
  {
    if x < 0 then -x else x
  }

  function Sign(x: int): int
  {
    if x < 0 then -1 else 1
  }

  function Add(a: Word, b: Word): Word { (a + b) % TWO_256 }
  function Mul(a: Word, b: Word): Word { (a * b) % TWO_256 }
  function Sub(a: Word, b: Word): Word { (a - b) % TWO_256 }
  function Div(a: Word, b: Word): Word { if b == 0 then 0 else a / b }
  function Mod(a: Word, b: Word): Word { if b == 0 then 0 else a % b }

  /** Signed division truncating toward zero. */
  function SDiv(a: Word, b: Word): Word
  {
    if b == 0 then 0
    else
      var x, y := ToSigned(a), ToSigned(b);
      FromSigned(Sign(x) * Sign(y) * (Abs(x) / Abs(y)))
  }

  /** Signed remainder taking the sign of the dividend. */
  function SMod(a: Word, b: Word): Word
  {
    if b == 0 then 0
    else
      var x, y := ToSigned(a), ToSigned(b);
      FromSigned(Sign(x) * (Abs(x) % Abs(y)))
  }

  function AddMod(a: Word, b: Word, n: Word): Word { if n == 0 then 0 else (a + b) % n }
  function MulMod(a: Word, b: Word, n: Word): Word { if n == 0 then 0 else (a * b) % n }

  function Exp(a: Word, e: nat): Word
  {
    if e == 0 then 1 else Mul(a, Exp(a, e - 1))
  }

  /** Sign-extends `x` from its byte `b` (counted from the least significant). */
  function SignExtend(b: Word, x: Word): Word
  {
    if b >= 31 then x
    else
      var bits := 8 * (b + 1);
      var p := Pow2(bits);
      ModNoLarger(x, p);
      var low := x % p;
      if low >= Pow2(bits - 1) then FromSigned(low - p) else low
  }

  function Lt(a: Word, b: Word): Word { Bool(a < b) }
  function Gt(a: Word, b: Word): Word { Bool(a > b) }
  function SLt(a: Word, b: Word): Word { Bool(ToSigned(a) < ToSigned(b)) }
  function SGt(a: Word, b: Word): Word { Bool(ToSigned(a) > ToSigned(b)) }
  function Eq(a: Word, b: Word): Word { Bool(a == b) }
  function IsZero(a: Word): Word { Bool(a == 0) }

  function And(a: Word, b: Word): Word { ((a as bv256) & (b as bv256)) as int }
  function Or(a: Word, b: Word): Word { ((a as bv256) | (b as bv256)) as int }
  function Xor(a: Word, b: Word): Word { ((a as bv256) ^ (b as bv256)) as int }
  function Not(a: Word): Word { TWO_256 - 1 - a }

  /** Byte `i` of `x`, counted from the most significant. */
  function ByteAt(i: Word, x: Word): Word
  {
    if i >= 32 then 0 else (x / Pow256(31 - i)) % 256
  }

  function Shl(shift: Word, x: Word): Word
  {
    if shift >= 256 then 0 else (x * Pow2(shift)) % TWO_256
  }

  function Shr(shift: Word, x: Word): Word
  {
    if shift >= 256 then 0
    else
      var p := Pow2(shift);
      DivNoLarger(x, p);
      x / p
  }

  /** Arithmetic shift right: the signed value divided by 2^shift, rounded down. */
  function Sar(shift: Word, x: Word): Word
  {
    if shift >= 256 then (if ToSigned(x) < 0 then TWO_256 - 1 else 0)
    else FromSigned(ToSigned(x) / Pow2(shift))
  }
}
