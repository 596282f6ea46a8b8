/** GetRetryDelay (internal/task/task.go:144-153) in wrapping int64 nanoseconds. */
module Backoff {

  const TWO_63: int := 0x8000_0000_0000_0000
  const TWO_64: int := 0x1_0000_0000_0000_0000
  const SECOND: int := 1_000_000_000
  const MAX_DELAY: int := 300 * SECOND

  function Pow2(n: nat): nat {
    if n == 0 then 1 else 2 * Pow2(n - 1)
  }

  /** The int64 with the same low 64 bits as x. */
  function WrapInt64(x: int): int {
    (x + TWO_63) % TWO_64 - TWO_63
  }

  /** `1 << uint(n)` as an int64: a negative count becomes a huge unsigned one. */
  function ShiftedOne(retryCount: int): int {
    WrapInt64(Pow2(retryCount % TWO_64))
  }

  function RetryDelay(retryCount: int): int {
    var delay := WrapInt64(SECOND * ShiftedOne(retryCount));
    if delay > MAX_DELAY then MAX_DELAY else delay
  }

  /** The int64 product before the cap, with the shift taken exactly. */
  function WrappedProduct(n: nat): int {
    WrapInt64(SECOND * Pow2(n))
  }

  /** The documented formula, over unbounded integers. */
  function IdealDelay(retryCount: nat): nat {
    var delay := SECOND * Pow2(retryCount);
    if delay > MAX_DELAY then MAX_DELAY else delay
  }

  /** The retry counts at which the wrapped product still lands on the formula:
      all of 0..33, and past that only where the wrapped value is positive. */
  predicate DelayIsExact(n: nat) {
    n <= 33 || n in {37, 41, 42, 45, 47, 50, 51, 53}
  }

  lemma WrapOfShifted(x: int, k: int)
    ensures WrapInt64(x + k * TWO_64) == WrapInt64(x)
  {
    var y := x + TWO_63;
    var q, m := y / TWO_64, y % TWO_64;
    var q', m' := (y + k * TWO_64) / TWO_64, (y + k * TWO_64) % TWO_64;
    assert m - m' == (q' - q - k) * TWO_64;
    assert q' - q - k == 0;
  }

  /** Wrapping the shift first and the product second loses nothing. */
  lemma ShiftThenMultiply(n: nat)
    requires n < TWO_64
    ensures WrapInt64(SECOND * ShiftedOne(n)) == WrappedProduct(n)
  {
    var y := Pow2(n);
    var k := (y + TWO_63) / TWO_64;
    assert y == ShiftedOne(n) + k * TWO_64;
    assert SECOND * y == SECOND * ShiftedOne(n) + (SECOND * k) * TWO_64;
    WrapOfShifted(SECOND * ShiftedOne(n), SECOND * k);
  }

  lemma Doubling(n: nat)
    ensures var v := 2 * WrappedProduct(n);
      WrappedProduct(n + 1) == (if v >= TWO_63 then v - TWO_64 else if v < -TWO_63 then v + TWO_64 else v)
  {
    var x := SECOND * Pow2(n);
    var k := (x + TWO_63) / TWO_64;
    assert x == WrappedProduct(n) + k * TWO_64;
    assert SECOND * Pow2(n + 1) == 2 * WrappedProduct(n) + (2 * k) * TWO_64;
    WrapOfShifted(2 * WrappedProduct(n), 2 * k);
  }

  /** Up to 33 nothing wraps. */
  lemma {:induction false} NoWrap(n: nat)
    requires n <= 33
    ensures WrappedProduct(n) == SECOND * Pow2(n)
    ensures SECOND * Pow2(n) <= SECOND * Pow2(33) == 8_589_934_592 * SECOND
    decreases 33 - n
  {
    assert Pow2(9) == 512;
    assert Pow2(17) == 256 * Pow2(9);
    assert Pow2(25) == 256 * Pow2(17);
    assert Pow2(33) == 256 * Pow2(25);
    if n < 33 {
      NoWrap(n + 1);
    }
  }

  lemma Products34To44()
    requires WrappedProduct(33) == 8_589_934_592_000_000_000
    ensures WrappedProduct(34) == -1_266_874_889_709_551_616
    ensures WrappedProduct(35) == -2_533_749_779_419_103_232
    ensures WrappedProduct(36) == -5_067_499_558_838_206_464
    ensures WrappedProduct(37) == 8_311_744_956_033_138_688
    ensures WrappedProduct(38) == -1_823_254_161_643_274_240
    ensures WrappedProduct(39) == -3_646_508_323_286_548_480
    ensures WrappedProduct(40) == -7_293_016_646_573_096_960
    ensures WrappedProduct(41) == 3_860_710_780_563_357_696
    ensures WrappedProduct(42) == 7_721_421_561_126_715_392
    ensures WrappedProduct(43) == -3_003_900_951_456_120_832
    ensures WrappedProduct(44) == -6_007_801_902_912_241_664
  {
    Doubling(33);
    Doubling(34);
    Doubling(35);
    Doubling(36);
    Doubling(37);
    Doubling(38);
    Doubling(39);
    Doubling(40);
    Doubling(41);
    Doubling(42);
    Doubling(43);
  }

  lemma Products45To55()
    requires WrappedProduct(44) == -6_007_801_902_912_241_664
    ensures WrappedProduct(45) == 6_431_140_267_885_068_288
    ensures WrappedProduct(46) == -5_584_463_537_939_415_040
    ensures WrappedProduct(47) == 7_277_816_997_830_721_536
    ensures WrappedProduct(48) == -3_891_110_078_048_108_544
    ensures WrappedProduct(49) == -7_782_220_156_096_217_088
    ensures WrappedProduct(50) == 2_882_303_761_517_117_440
    ensures WrappedProduct(51) == 5_764_607_523_034_234_880
    ensures WrappedProduct(52) == -6_917_529_027_641_081_856
    ensures WrappedProduct(53) == 4_611_686_018_427_387_904
    ensures WrappedProduct(54) == -9_223_372_036_854_775_808
    ensures WrappedProduct(55) == 0
  {
    Doubling(44);
    Doubling(45);
    Doubling(46);
    Doubling(47);
    Doubling(48);
    Doubling(49);
    Doubling(50);
    Doubling(51);
    Doubling(52);
    Doubling(53);
    Doubling(54);
  }

  /** From 55 on the product is a multiple of 2^64. */
  lemma {:induction false} ProductVanishes(n: nat)
    requires n >= 55
    requires WrappedProduct(55) == 0
    ensures WrappedProduct(n) == 0
  {
    if n > 55 {
      ProductVanishes(n - 1);
      Doubling(n - 1);
    }
  }

  lemma {:induction false} IdealIsCapped(n: nat)
    requires n >= 9
    ensures IdealDelay(n) == MAX_DELAY
    ensures Pow2(n) >= 512
  {
    if n == 9 {
      assert Pow2(9) == 512;
    } else {
      IdealIsCapped(n - 1);
    }
  }

  lemma Capped34To44(n: nat)
    requires 33 < n <= 44
    ensures WrappedProduct(n) >= MAX_DELAY <==> DelayIsExact(n)
  {
    NoWrap(33);
    Products34To44();
  }

  lemma Product44()
    ensures WrappedProduct(44) == -6_007_801_902_912_241_664
  {
    NoWrap(33);
    Products34To44();
  }

  lemma Capped45To54(n: nat)
    requires 44 < n <= 54
    ensures WrappedProduct(n) >= MAX_DELAY <==> DelayIsExact(n)
  {
    Product44();
    Products45To55();
  }

  lemma VanishesFrom55(n: nat)
    requires n >= 55
    ensures WrappedProduct(n) == 0
  {
    Product44();
    Products45To55();
    ProductVanishes(n);
  }

  /** Past 33 the product is positive, and then above the cap, exactly at eight counts. */
  lemma CappedProducts(n: nat)
    requires n > 33
    ensures WrappedProduct(n) >= MAX_DELAY <==> DelayIsExact(n)
  {
    if n <= 44 {
      Capped34To44(n);
    } else if n <= 54 {
      Capped45To54(n);
    } else {
      VanishesFrom55(n);
    }
  }

  /** The code meets the documented formula exactly at these retry counts. */
  lemma {:induction false} RetryDelayMeetsFormula(n: nat)
    requires n < TWO_63
    ensures RetryDelay(n) == IdealDelay(n) <==> DelayIsExact(n)
  {
    ShiftThenMultiply(n);
    if n <= 33 {
      NoWrap(n);
    } else {
      IdealIsCapped(n);
      CappedProducts(n);
    }
  }

  /** Within 0..33 a later retry never waits less, and 33 is the last such count:
      the 34th delay is negative, so time.Sleep returns at once. */
  lemma DelayMonotoneUpTo33(a: nat, b: nat)
    requires a <= b <= 33
    ensures 0 < RetryDelay(a) <= RetryDelay(b) <= MAX_DELAY
    ensures RetryDelay(34) < 0
  {
    RetryDelayMeetsFormula(a);
    RetryDelayMeetsFormula(b);
    Pow2Monotone(a, b);
    NoWrap(33);
    Products34To44();
    ShiftThenMultiply(34);
  }

  lemma {:induction false} Pow2Monotone(a: nat, b: nat)
    requires a <= b
    ensures 1 <= Pow2(a) <= Pow2(b)
    decreases b
  {
    if a < b {
      Pow2Monotone(a, b - 1);
    } else if b > 0 {
      Pow2Monotone(a - 1, b - 1);
    }
  }

  /** A negative counter turns into a huge shift and a zero delay. */
  lemma NegativeCountDoesNotWait(n: int)
    requires -TWO_63 <= n < 0
    ensures RetryDelay(n) == 0
  {
    var shift: nat := n % TWO_64;
    assert shift == n + TWO_64;
    ShiftThenMultiply(shift);
    VanishesFrom55(shift);
  }

  /** What the worker has slept once the counter has moved from `from` to `upTo`:
      it asks for the delay after the increment (internal/worker/worker.go:208-237). */
  function SleepSum(from: int, upTo: int): int
    decreases upTo - from
  {
    if upTo <= from then 0 else SleepSum(from, upTo - 1) + RetryDelay(upTo)
  }

  /** The total wait before a task with m retries is dead-lettered, in closed form. */
  lemma {:induction false} TotalBackoff(m: nat)
    requires m <= 33
    ensures SleepSum(0, m) == SECOND * (if m <= 8 then Pow2(m + 1) - 2 else 510 + 300 * (m - 8))
  {
    if m > 0 {
      TotalBackoff(m - 1);
      RetryDelayMeetsFormula(m);
      assert Pow2(9) == 512;
      if m <= 8 {
        Pow2Monotone(m, 8);
      } else {
        IdealIsCapped(m);
      }
    }
  }
}
