/** The scalar part of Unity's `Mathf`, over real numbers. */
module UnityMath {
  import opened Wrappers

  /** `Mathf.PI`: the single-precision number nearest to pi. */
  const PI: real := 3.1415927410125732

  /** `Mathf.Deg2Rad` and `Mathf.Rad2Deg`, exact inverses of each other over reals. */
  const Deg2Rad: real := 3.1415927410125732 / 180.0
  const Rad2Deg: real := 180.0 / 3.1415927410125732

  /** The transcendental functions the flight model calls. They are left
      uninterpreted: every property proved here holds for any such functions. */
  datatype MathLib = MathLib(
    sin: real -> real,
    cos: real -> real,
    acos: real -> real,
    exp: real -> real,
    sqrt: real -> real,
    atan2: (real, real) -> real)

  function Abs(x: real): (r: real)
    ensures r >= 0.0 && (r == x || r == -x)
  {
    if x < 0.0 then -x else x
  }

  /** `Mathf.Clamp(value, min, max)`: the lower bound is tested first. */
  function Clamp(value: real, min: real, max: real): (r: real)
    ensures min <= max ==> min <= r <= max
    ensures min <= value <= max ==> r == value
    ensures value < min ==> r == min
    ensures min <= max < value ==> r == max
  {
    if value < min then min else if value > max then max else value
  }

  /** `Mathf.Clamp01`. */
  function Clamp01(value: real): (r: real)
    ensures 0.0 <= r <= 1.0
    ensures 0.0 <= value <= 1.0 ==> r == value
    ensures value <= 0.0 ==> r == 0.0
    ensures value >= 1.0 ==> r == 1.0
  {
    if value < 0.0 then 0.0 else if value > 1.0 then 1.0 else value
  }

  /** `Mathf.Lerp(a, b, t)`, which clamps `t` to [0, 1]. */
  function Lerp(a: real, b: real, t: real): (r: real)
    ensures a <= b ==> a <= r <= b
    ensures b <= a ==> b <= r <= a
    ensures t <= 0.0 ==> r == a
    ensures t >= 1.0 ==> r == b
  {
    var u := Clamp01(t);
    var offset := (b - a) * u;
    LerpOffset(a, b, u, offset);
    a + offset
  }

  /** The offset `(b - a) * u` of an interpolation with a factor `u` in [0, 1]
      lands between the endpoints, on `a` for `u == 0` and on `b` for `u == 1`. */
  lemma LerpOffset(a: real, b: real, u: real, offset: real)
    requires 0.0 <= u <= 1.0
    requires offset == (b - a) * u
    ensures a <= b ==> a <= a + offset <= b
    ensures b <= a ==> b <= a + offset <= a
    ensures u == 0.0 ==> a + offset == a
    ensures u == 1.0 ==> a + offset == b
  {
    var rest := (b - a) * (1.0 - u);
    SplitProduct(b - a, u, offset, rest);
    if a <= b {
      ProductSign(b - a, u, offset);
      ProductSign(b - a, 1.0 - u, rest);
    } else {
      ProductSign(a - b, u, -offset);
      ProductSign(a - b, 1.0 - u, -rest);
    }
  }

  lemma SplitProduct(d: real, u: real, x: real, y: real)
    requires x == d * u && y == d * (1.0 - u)
    ensures x + y == d
  {
  }

  lemma ProductSign(p: real, q: real, m: real)
    requires p >= 0.0 && q >= 0.0 && m == p * q
    ensures m >= 0.0
  {
  }

  /** What `Mathf.Clamp01` returns for the single-precision quotient
      `num / den`. A zero denominator here is always a difference of two equal
      numbers, hence +0: a positive numerator gives +Infinity, which clamps to 1,
      a negative one -Infinity, which clamps to 0, and 0/0 gives NaN, which
      `Clamp01` passes through (`None`). */
  function Quotient01(num: real, den: real): (r: Option<real>)
    ensures r.None? <==> num == 0.0 && den == 0.0
    ensures r.Some? ==> 0.0 <= r.value <= 1.0
    ensures den != 0.0 ==> r == Some(Clamp01(num / den))
  {
    if den != 0.0 then Some(Clamp01(num / den))
    else if num > 0.0 then Some(1.0)
    else if num < 0.0 then Some(0.0)
    else None
  }
}
