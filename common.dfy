/** Small pieces shared by every module: an option type, the 32-bit
    `unsigned long` millisecond clock of the Arduino core, and C's integer
    division and remainder, which truncate toward zero. */
module Common {

  datatype Option<T> = None | Some(value: T)

  const TWO_32: int := 0x1_0000_0000

  /** An `unsigned long` on the ESP32: 32 bits. `millis()` returns one. */
  type u32 = x: int | 0 <= x < 0x1_0000_0000

  /** `now - last` computed on two `unsigned long` values: the difference
      wraps modulo 2^32, so a clock that rolled over still gives the time
      elapsed since `last`. */
  function ElapsedMs(now: u32, last: u32): (d: u32)
    ensures last <= now ==> d == now - last
    ensures now < last ==> d == TWO_32 - (last - now)
    ensures (last + d) % TWO_32 == now
  {
    (now - last) % TWO_32
  }

  function Abs(a: int): nat {
    if a >= 0 then a else -a
  }

  /** C's `/` on `int`: the quotient is truncated toward zero. */
  function CDiv(a: int, b: int): (q: int)
    requires b != 0
    ensures a >= 0 && b > 0 ==> q == a / b
    ensures a < 0 && b > 0 ==> q == -((-a) / b)
  {
    if (a >= 0) == (b > 0) then Abs(a) / Abs(b) else -(Abs(a) / Abs(b))
  }

  /** C's `%` on `int`: the remainder takes the sign of the dividend. */
  function CMod(a: int, b: int): (r: int)
    requires b != 0
    ensures a >= 0 ==> r == a % Abs(b)
    ensures a >= 0 ==> 0 <= r < Abs(b)
    ensures a < 0 ==> 0 >= r && r + Abs(b) > 0
  {
    if a >= 0 then a % Abs(b) else -((-a) % Abs(b))
  }

  /** The two agree as C requires: `(a / b) * b + a % b == a`. */
  lemma CDivModIdentity(a: int, b: int)
    requires b != 0
    ensures CDiv(a, b) * b + CMod(a, b) == a
  {
    var q, r := Abs(a) / Abs(b), Abs(a) % Abs(b);
    assert Abs(a) == q * Abs(b) + r;
    if b < 0 {
      assert q * Abs(b) == -(q * b);
    }
  }
}
