// CPU limits: the way of a quota and period through two float64 operations.

module CpuQuota {
  /** 2^-53, the relative error of one float64 operation. */
  const UNIT: real := 1.0 / 9007199254740992.0
  const EXACT: int := 9007199254740992
  const PERIOD: int := 100000
  const LEAST: int := 1000

  function Abs(x: real): real { if x < 0.0 then -x else x }

  /** A rounding as good as float64's: relative error at most 2^-53 (no overflow, no subnormals). */
  ghost predicate Rounding(fl: real -> real) {
    forall x :: Abs(fl(x) - x) <= UNIT * Abs(x)
  }

  /** applySpec: quota and period of the spec become cores (period 0 means 100000). */
  function Cores(fl: real -> real, quota: int, period: int): real
    requires period >= 0
  {
    fl(quota as real / (if period == 0 then PERIOD else period) as real)
  }

  /** Create: cores become microseconds per 100 ms, truncated, at least 1000. */
  function Quota(fl: real -> real, cores: real): (quota: int)
    ensures quota >= LEAST
  {
    var q := Truncate(fl(cores * PERIOD as real));
    if q < LEAST then LEAST else q
  }

  function Truncate(x: real): int {
    if x < 0.0 then -((-x).Floor) else x.Floor
  }

  function Max(a: int, b: int): int { if a < b then b else a }

  /** The share of PERIOD the spec asks for, exactly. */
  function Asked(quota: int, period: int): real
    requires period >= 0
  {
    PERIOD as real * (quota as real / (if period == 0 then PERIOD else period) as real)
  }

  lemma ErrorOfTwo(x: real, r: real, s: real)
    requires 0.0 <= x
    requires Abs(r - x) <= UNIT * Abs(x)
    requires Abs(s - r * 100000.0) <= UNIT * Abs(r * 100000.0)
    ensures Abs(s - x * 100000.0) <= (x * 100000.0) * (2.0 * UNIT + UNIT * UNIT)
    ensures 0.0 <= r
  {
    assert UNIT * Abs(x) == UNIT * x;
    assert UNIT * x <= x by { assert x - UNIT * x == x * (1.0 - UNIT); }
    assert 0.0 <= r;
    var z := x * 100000.0;
    assert Abs(r * 100000.0 - z) <= UNIT * z by {
      assert r * 100000.0 - z == (r - x) * 100000.0;
      assert UNIT * z == (UNIT * x) * 100000.0;
    }
    assert r * 100000.0 <= z + UNIT * z;
    assert UNIT * (r * 100000.0) <= UNIT * (z + UNIT * z);
    assert UNIT * (z + UNIT * z) == UNIT * z + UNIT * UNIT * z;
  }

  /** A relative error that small stays below one, for values up to 2^51. */
  lemma ErrorBelowOne(z: real)
    requires 0.0 <= z < 2251799813685248.0
    ensures z * (2.0 * UNIT + UNIT * UNIT) < 1.0
  {
    var e := 2.0 * UNIT + UNIT * UNIT;
    assert z * e <= 2251799813685248.0 * e by { assert (2251799813685248.0 - z) * e >= 0.0; }
  }

  lemma FloorsWithinOne(y: real, z: real)
    requires 0.0 <= z && Abs(y - z) < 1.0
    ensures z.Floor - 1 <= Truncate(y) <= z.Floor + 1
  {
  }

  /** What truncation sees lies within 1 of what was asked for. */
  lemma BeforeTruncation(fl: real -> real, quota: int, period: int)
    requires Rounding(fl)
    requires 0 < quota && 0 <= period
    requires Asked(quota, period) < 2251799813685248.0
    ensures Abs(fl(Cores(fl, quota, period) * PERIOD as real) - Asked(quota, period)) < 1.0
    ensures 0.0 <= Asked(quota, period)
  {
    var p := if period == 0 then PERIOD else period;
    Positive(quota, p);
    TwoRoundings(fl, quota as real / p as real);
  }

  lemma Positive(quota: int, p: int)
    requires 0 < quota && 0 < p
    ensures 0.0 < quota as real / p as real
  {
    var x, d := quota as real / p as real, p as real;
    assert x * d == quota as real;
    assert x <= 0.0 ==> x * d <= 0.0;
  }

  lemma TwoRoundings(fl: real -> real, x: real)
    requires Rounding(fl)
    requires 0.0 < x && PERIOD as real * x < 2251799813685248.0
    ensures Abs(fl(fl(x) * PERIOD as real) - PERIOD as real * x) < 1.0
  {
    var r := fl(x);
    var s := fl(r * 100000.0);
    ErrorOfTwo(x, r, s);
    ErrorBelowOne(x * 100000.0);
  }

  /** Cores that the caller gives directly reach cpu.max within 1. */
  lemma {:induction false} OneRounding(fl: real -> real, cores: real)
    requires Rounding(fl) && 0.0 < cores && cores * 100000.0 < 2251799813685248.0
    ensures Max(1000, (cores * 100000.0).Floor) - 1 <= Quota(fl, cores) <= Max(1000, (cores * 100000.0).Floor) + 1
  {
    var z := cores * 100000.0;
    var y := fl(z);
    assert Abs(y - z) <= UNIT * Abs(z);
    assert UNIT * z < 1.0;
    FloorsWithinOne(y, z);
  }

  /**
   A spec quota and period reach cpu.max as a value within 1 of
   max(1000, floor(100000 * quota / period)), whatever the rounding.
   */
  lemma QuotaWithinOne(fl: real -> real, quota: int, period: int)
    requires Rounding(fl)
    requires 0 < quota < EXACT && 0 <= period < EXACT
    requires Asked(quota, period) < 2251799813685248.0
    ensures
      var want := Max(LEAST, Asked(quota, period).Floor);
      var written := Quota(fl, Cores(fl, quota, period));
      want - 1 <= written <= want + 1
  {
    BeforeTruncation(fl, quota, period);
    FloorsWithinOne(fl(Cores(fl, quota, period) * PERIOD as real), Asked(quota, period));
  }

  lemma AskedByDefault(quota: int)
    ensures Asked(quota, 0) == quota as real
  {
  }

  /** With the default period the container never gets more than it asked for, and at most 1 us less. */
  lemma DefaultPeriodNeverExceeds(fl: real -> real, quota: int)
    requires Rounding(fl)
    requires LEAST <= quota < 2251799813685248
    ensures quota - 1 <= Quota(fl, Cores(fl, quota, 0)) <= quota
  {
    AskedByDefault(quota);
    BeforeTruncation(fl, quota, 0);
    WholeWithinOne(fl(Cores(fl, quota, 0) * PERIOD as real), quota);
  }

  lemma WholeWithinOne(y: real, n: int)
    requires LEAST <= n && Abs(y - n as real) < 1.0
    ensures n - 1 <= (if Truncate(y) < LEAST then LEAST else Truncate(y)) <= n
  {
  }

  // ---- float64's own rounding

  /** To the nearest integer, ties to the even one. */
  function ToEven(x: real): int {
    var n := x.Floor;
    if x - n as real < 0.5 || (x - n as real == 0.5 && n % 2 == 0) then n else n + 1
  }

  const SIGNIFICAND: real := 4503599627370496.0

  /** Round to nearest, ties to even, with 53 bits of significand and any exponent. */
  function Nearest(x: real): real {
    if x < 0.0 then -NearestUp(-x) else NearestUp(x)
  }

  function NearestUp(x: real): real
    requires 0.0 <= x
    decreases if x < SIGNIFICAND && x != 0.0 then (SIGNIFICAND / x).Floor + 1 else 0, x.Floor
  {
    if x == 0.0 then 0.0
    else if x < SIGNIFICAND then Widen(x); NearestUp(2.0 * x) / 2.0
    else if x < 2.0 * SIGNIFICAND then ToEven(x) as real
    else 2.0 * NearestUp(x / 2.0)
  }

  lemma Widen(x: real)
    requires 0.0 < x < SIGNIFICAND
    ensures (SIGNIFICAND / (2.0 * x)).Floor < (SIGNIFICAND / x).Floor
  {
    var v := SIGNIFICAND / x;
    assert v > 1.0 by {
      assert v * x == SIGNIFICAND;
      assert v <= 1.0 ==> v * x <= x;
    }
    assert SIGNIFICAND / (2.0 * x) == v / 2.0;
  }

  lemma {:induction false} NearestUpError(x: real)
    requires 0.0 <= x
    ensures Abs(NearestUp(x) - x) <= UNIT * x
    decreases if x < SIGNIFICAND && x != 0.0 then (SIGNIFICAND / x).Floor + 1 else 0, x.Floor
  {
    if x == 0.0 {
    } else if x < SIGNIFICAND {
      Widen(x);
      NearestUpError(2.0 * x);
    } else if x < 2.0 * SIGNIFICAND {
    } else {
      NearestUpError(x / 2.0);
    }
  }

  /** It is one of the roundings that the bounds above are about. */
  lemma NearestIsRounding()
    ensures Rounding(Nearest)
  {
    forall x
      ensures Abs(Nearest(x) - x) <= UNIT * Abs(x)
    {
      NearestUpError(Abs(x));
    }
  }

  /** x * 2^e, by doubling. */
  function Up(x: real, e: nat): real
    decreases e
  {
    if e == 0 then x else Up(2.0 * x, e - 1)
  }

  /** x / 2^e, by halving. */
  function Down(x: real, e: nat): real
    decreases e
  {
    if e == 0 then x else Down(x, e - 1) / 2.0
  }

  lemma {:induction false} UpGrows(x: real, e: nat)
    requires 0.0 < x
    ensures x <= Up(x, e)
    decreases e
  {
    if e > 0 {
      UpGrows(2.0 * x, e - 1);
    }
  }

  /** A value of known exponent rounds as its scaled significand does. */
  lemma {:induction false} NearestAt(x: real, e: nat)
    requires 0.0 < x && SIGNIFICAND <= Up(x, e) < 2.0 * SIGNIFICAND
    ensures Nearest(x) == Down(ToEven(Up(x, e)) as real, e)
    decreases e
  {
    if e > 0 {
      UpGrows(2.0 * x, e - 1);
      NearestAt(2.0 * x, e - 1);
    }
  }

  lemma TenMore(x: real, e: nat)
    ensures Up(x, e + 10) == Up(1024.0 * x, e)
  {
    UpTwo(x, e + 8);
    UpTwo(4.0 * x, e + 6);
    UpTwo(16.0 * x, e + 4);
    UpTwo(64.0 * x, e + 2);
    UpTwo(256.0 * x, e);
  }

  lemma UpTwo(x: real, e: nat)
    ensures Up(x, e + 2) == Up(4.0 * x, e)
  {
    assert Up(x, e + 2) == Up(2.0 * x, e + 1);
  }

  lemma TenLess(x: real, e: nat)
    ensures Down(x, e + 10) == Down(x, e) / 1024.0
  {
    DownTwo(x, e + 8);
    DownTwo(x, e + 6);
    DownTwo(x, e + 4);
    DownTwo(x, e + 2);
    DownTwo(x, e);
  }

  lemma DownTwo(x: real, e: nat)
    ensures Down(x, e + 2) == Down(x, e) / 4.0
  {
    assert Down(x, e + 2) == Down(x, e + 1) / 2.0;
  }

  lemma By43(x: real)
    ensures Up(x, 43) == 8796093022208.0 * x && Down(x, 43) == x / 8796093022208.0
  {
    TenMore(x, 33);
    TenMore(1024.0 * x, 23);
    TenMore(1048576.0 * x, 13);
    TenMore(1073741824.0 * x, 3);
    UpTwo(1099511627776.0 * x, 1);
    TenLess(x, 33);
    TenLess(x, 23);
    TenLess(x, 13);
    TenLess(x, 3);
    DownTwo(x, 1);
  }

  lemma By59(x: real)
    ensures Up(x, 59) == 576460752303423488.0 * x && Down(x, 59) == x / 576460752303423488.0
  {
    TenMore(x, 49);
    UpTwo(1024.0 * x, 47);
    UpTwo(4096.0 * x, 45);
    UpTwo(16384.0 * x, 43);
    By43(65536.0 * x);
    TenLess(x, 49);
    DownTwo(x, 47);
    DownTwo(x, 45);
    DownTwo(x, 43);
    By43(x);
  }

  const CORES: real := 5776136738080303.0 / 576460752303423488.0

  lemma CoresOf1002()
    ensures Nearest(1002.0 / 100000.0) == CORES
  {
    hide Nearest, Up, Down;
    By59(1002.0 / 100000.0);
    By59(5776136738080303.0);
    NearestAt(1002.0 / 100000.0, 59);
  }

  lemma QuotaOfCores()
    ensures Nearest(CORES * 100000.0) == 8813685208252415.0 / 8796093022208.0
  {
    hide Nearest, Up, Down;
    By43(CORES * 100000.0);
    By43(8813685208252415.0);
    NearestAt(CORES * 100000.0, 43);
  }

  /** The one microsecond does get lost in float64: a quota of 1002 is written as 1001. */
  lemma OneLessHappens()
    ensures Quota(Nearest, Cores(Nearest, 1002, 0)) == 1001
  {
    hide Nearest;
    CoresOf1002();
    QuotaOfCores();
    assert Cores(Nearest, 1002, 0) == CORES;
    assert (8813685208252415.0 / 8796093022208.0).Floor == 1001;
  }
}
