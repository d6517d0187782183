/** Configuration constants, C integer widths and the speed/period conversions
    of the STM32F stepper driver. */
module Units {

  /** Timer resolution: a motor stepping every `p` ticks runs at TIMFREQ / p steps/sec. */
  const TIMFREQ: int := 100000
  /** Slowest and fastest speed a request may ask for, in steps/sec. */
  const MIN_SPEED: int := 2
  const MAX_SPEED: int := 1000
  /** The CurDelay value meaning "motor off, no pulse scheduled". */
  const OFF_DELAY: int := 0xFFFF
  /** Speed change per ramp tick that SetRamp installs. */
  const RAMP_SLOP: int := 2
  /** Periods produced by MAX_SPEED and MIN_SPEED. */
  const MIN_PERIOD: int := 100
  const MAX_PERIOD: int := 50000

  type uint16 = x: int | 0 <= x < 0x1_0000
  type int16 = x: int | -0x8000 <= x < 0x8000
  type int32 = x: int | -0x8000_0000 <= x < 0x8000_0000

  /** Storing an integer into a uint16: reduction modulo 2^16. */
  function Wrap16(x: int): (r: uint16)
    ensures (r - x) % 0x1_0000 == 0
    ensures 0 <= x < 0x1_0000 ==> r == x
  {
    x % 0x1_0000
  }

  /** Two's-complement wrap-around of a 32-bit signed counter. */
  function Wrap32(x: int): (r: int32)
    ensures (r - x) % 0x1_0000_0000 == 0
    ensures -0x8000_0000 <= x < 0x8000_0000 ==> r == x
  {
    (x + 0x8000_0000) % 0x1_0000_0000 - 0x8000_0000
  }

  lemma Wrap32Add(a: int, b: int)
    ensures Wrap32(Wrap32(a) + b) == Wrap32(a + b)
  {
    var m := 0x1_0000_0000;
    var x := a + 0x8000_0000;
    assert Wrap32(a) + b + 0x8000_0000 == x % m + b;
    assert x % m + b == (x + b) - m * (x / m);
    ModShift(x + b, x / m, m);
  }

  lemma ModShift(x: int, k: int, m: int)
    requires m > 0
    ensures (x - m * k) % m == x % m
  {
    var y := x - m * k;
    assert y == m * (x / m - k) + x % m;
    DivUnique(y, m, x / m - k, x % m);
  }

  /** Quotient and remainder are unique. */
  lemma DivUnique(n: int, d: int, q: int, r: int)
    requires d > 0 && 0 <= r < d && n == d * q + r
    ensures n / d == q && n % d == r
  {
    var q', r' := n / d, n % d;
    assert d * (q - q') == r' - r;
    MulPastOne(q - q', d);
  }

  lemma MulPastOne(k: int, d: int)
    requires d > 0
    ensures k >= 1 ==> d * k >= d
    ensures k <= -1 ==> d * k <= -d
  {
    if k >= 1 {
      MulMono(1, k, d);
    }
    if k <= -1 {
      MulMono(k, -1, d);
    }
  }

  /** `n / d` is the only `q` with q*d <= n < (q+1)*d. */
  lemma FloorDivChar(n: int, d: int, q: int)
    requires d > 0 && q * d <= n < (q + 1) * d
    ensures n / d == q
  {
    DivUnique(n, d, q, n - d * q);
  }

  /** C's integer `/`: the quotient truncated toward zero. */
  function CDiv(a: int, b: int): int
    requires b != 0
  {
    var q := Abs(a) / Abs(b);
    if (a < 0) != (b < 0) then -q else q
  }

  function Abs(x: int): nat { if x < 0 then -x else x }
  function Min(a: int, b: int): int { if a <= b then a else b }
  function Max(a: int, b: int): int { if a >= b then a else b }

  lemma MulMono(a: int, b: int, c: int)
    requires 0 <= c && a <= b
    ensures a * c <= b * c
  {
  }

  lemma MulCancel(a: int, b: int, c: int)
    requires c > 0 && a * c < b * c
    ensures a < b
  {
  }

  /** The quotient of C's and Dafny's `/` for a positive divisor, characterised. */
  lemma DivBounds(n: int, d: int)
    requires n >= 0 && d > 0
    ensures 0 <= n / d
    ensures (n / d) * d <= n < (n / d + 1) * d
  {
    var q := n / d;
    assert n == d * q + n % d;
    assert (q + 1) * d == q * d + d;
  }

  /** `CurDelay` for a speed: the timer ticks between STEP toggles, rounded
      down as C's integer division does. */
  function Period(speed: int): (p: int)
    requires MIN_SPEED <= speed <= MAX_SPEED
    ensures MIN_PERIOD <= p <= MAX_PERIOD
    ensures p * speed <= TIMFREQ < (p + 1) * speed
  {
    var p := TIMFREQ / speed;
    DivBounds(TIMFREQ, speed);
    MulMono(speed, MAX_SPEED, p + 1);
    MulMono(MIN_SPEED, speed, p);
    p
  }

  /** A faster speed never gets a longer period. */
  lemma {:induction false} PeriodAntitone(s: int, t: int)
    requires MIN_SPEED <= s <= t <= MAX_SPEED
    ensures Period(t) <= Period(s)
  {
    var p, q := Period(t), Period(s);
    MulMono(s, t, p);
    MulCancel(p, q + 1, s);
  }

  /** The speed the driver reads back from a period when a new request
      arrives: TIMFREQ / delay plus one, stored as a uint16. */
  function Seed(delay: uint16): (s: uint16)
    requires delay != 0
    ensures delay >= 2 ==> (s - 1) * delay <= TIMFREQ < s * delay
    ensures delay == OFF_DELAY ==> s == MIN_SPEED
    ensures delay >= MIN_PERIOD ==> MIN_SPEED <= s <= MAX_SPEED + 1
  {
    SeedBounds(delay);
    Wrap16(TIMFREQ / delay + 1)
  }

  lemma SeedBounds(delay: int)
    requires 0 < delay <= OFF_DELAY
    ensures var q := TIMFREQ / delay;
      && q * delay <= TIMFREQ < (q + 1) * delay
      && (delay >= 2 ==> q + 1 < 0x1_0000)
      && (delay >= MIN_PERIOD ==> 1 <= q <= MAX_SPEED)
  {
    var q := TIMFREQ / delay;
    DivBounds(TIMFREQ, delay);
    if delay >= 2 {
      MulMono(2, delay, q);
    }
    if delay >= MIN_PERIOD {
      MulMono(MIN_PERIOD, delay, q);
      MulMono(delay, OFF_DELAY, q + 1);
    }
  }

  /** Reading a period back never loses the speed that produced it: the seed
      lies strictly above that speed, and one below the seed maps to the same
      period again. */
  lemma {:induction false} SeedAfterPeriod(s: int)
    requires MIN_SPEED <= s <= MAX_SPEED
    ensures s < Seed(Period(s)) <= MAX_SPEED + 1
    ensures Period(Seed(Period(s)) - 1) == Period(s)
  {
    var p := Period(s);
    var q := Seed(p) - 1;
    MulCancel(s, q + 1, p);
    MulMono(s, q, p + 1);
    FloorDivChar(TIMFREQ, q, p);
  }

  /** Ramp-tick period for an acceleration of `rampspeed` steps/sec/sec:
      (2 * TIMFREQ) / (rampspeed / RAMP_SLOP). A divisor that is not positive
      and a quotient beyond 16 bits both give the longest representable period
      0xFFFF instead of a division by zero or a truncated value. */
  function RampDelay(rampspeed: int16): (d: uint16)
    ensures CDiv(rampspeed, RAMP_SLOP) > 0 && 2 * TIMFREQ / CDiv(rampspeed, RAMP_SLOP) <= 0xFFFF ==>
              d * CDiv(rampspeed, RAMP_SLOP) <= 2 * TIMFREQ < (d + 1) * CDiv(rampspeed, RAMP_SLOP)
    ensures CDiv(rampspeed, RAMP_SLOP) <= 0 || 2 * TIMFREQ / CDiv(rampspeed, RAMP_SLOP) > 0xFFFF ==>
              d == 0xFFFF
  {
    var q := CDiv(rampspeed, RAMP_SLOP);
    if q <= 0 then 0xFFFF
    else
      DivBounds(2 * TIMFREQ, q);
      Min(2 * TIMFREQ / q, 0xFFFF)
  }

  /** Asking for a faster acceleration never yields a slower ramp. */
  lemma {:induction false} RampDelayMonotone(a: int16, b: int16)
    requires a <= b
    ensures RampDelay(b) <= RampDelay(a)
  {
    var qa, qb := CDiv(a, RAMP_SLOP), CDiv(b, RAMP_SLOP);
    if qa > 0 {
      assert qa == a / 2 && qb == b / 2;
      var n := 2 * TIMFREQ;
      var x, y := n / qa, n / qb;
      DivBounds(n, qa);
      DivBounds(n, qb);
      MulMono(qa, qb, y);
      MulCancel(y, x + 1, qa);
    }
  }
}
