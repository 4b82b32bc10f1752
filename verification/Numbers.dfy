/** What a stored number is worth, said without reading its bits: the rules a binary floating-point format
  * keeps, which leave exactly one value for each pattern, and the packings that the bit readers undo. */
module Numbers {
  import opened Formats
  import opened Quants
  import Plain

  // ---------------------------------------------------------------- floating-point patterns

  /** How far it is from pattern `n` to the next. */
  ghost function Gap(f: int -> real, n: int): real { f(n + 1) - f(n) }

  /** `f` reads the patterns of a format with `m` fractions to each power of two, in which `one` is the
    * pattern of 1 and `top` the first pattern that is no finite number. Between two powers of two patterns
    * count up in equal steps; from one power to the next the step doubles; and the patterns below the first
    * power count up from zero in the very steps that follow it. */
  ghost predicate Reads(f: int -> real, m: nat, one: nat, top: nat) {
    && 0 < m && 0 < one < top
    && f(0) == 0.0 && f(one) == 1.0
    && (forall n: nat :: n + 2 < top && (n + 1) % m != 0 ==> SameStep(f, n))
    && (forall n: nat :: n + m + 1 < top ==> NextPower(f, m, n))
  }

  ghost predicate SameStep(f: int -> real, n: nat) { Gap(f, n + 1) == Gap(f, n) }

  ghost predicate NextPower(f: int -> real, m: nat, n: nat) { Gap(f, n + m) == if n < m then Gap(f, n) else 2.0 * Gap(f, n) }

  /** Step `n`, and the first `n` steps together, in units of the smallest. */
  ghost function Units(m: nat, n: nat): (u: nat)
    requires 0 < m
    ensures u >= 1
  {
    if n == 0 then 1
    else if n % m != 0 then Units(m, n - 1)
    else if n - m < m then Units(m, n - m) else 2 * Units(m, n - m)
  }

  ghost function Climb(m: nat, n: nat): (u: nat)
    requires 0 < m
    ensures u >= n
  {
    if n == 0 then 0 else Climb(m, n - 1) + Units(m, n - 1)
  }

  ghost function Steps(u: nat, size: real): real { u as real * size }

  lemma MoreSteps(u: nat, v: nat, size: real)
    ensures Steps(u + v, size) == Steps(u, size) + Steps(v, size)
    ensures Steps(2 * u, size) == 2.0 * Steps(u, size) && Steps(1, size) == size && Steps(0, size) == 0.0
  {
  }

  lemma AtLeast(m: nat, n: nat)
    requires 0 < m && 0 < n && n % m == 0
    ensures m <= n
  {
  }

  lemma {:induction false} GapIs(f: int -> real, m: nat, one: nat, top: nat, n: nat)
    requires Reads(f, m, one, top) && n + 1 < top
    ensures Gap(f, n) == Steps(Units(m, n), Gap(f, 0))
  {
    hide Gap, Steps;
    MoreSteps(if 0 < n && n % m == 0 && m <= n then Units(m, n - m) else 1, 0, Gap(f, 0));
    if n > 0 {
      if n % m != 0 {
        GapIs(f, m, one, top, n - 1);
        assert SameStep(f, n - 1);
      } else {
        AtLeast(m, n);
        GapIs(f, m, one, top, n - m);
        assert NextPower(f, m, n - m);
      }
    }
  }

  lemma {:induction false} ValueIs(f: int -> real, m: nat, one: nat, top: nat, n: nat)
    requires Reads(f, m, one, top) && n < top
    ensures f(n) == Steps(Climb(m, n), Gap(f, 0))
  {
    hide Steps, Units, NextPower, SameStep;
    MoreSteps(if n > 0 then Climb(m, n - 1) else 0, if n > 0 then Units(m, n - 1) else 0, Gap(f, 0));
    if n > 0 {
      ValueIs(f, m, one, top, n - 1);
      GapIs(f, m, one, top, n - 1);
    }
  }

  /** The rules leave one value for each pattern. */
  lemma OneReading(f: int -> real, g: int -> real, m: nat, one: nat, top: nat, n: nat)
    requires Reads(f, m, one, top) && Reads(g, m, one, top) && n < top
    ensures f(n) == g(n)
  {
    hide Gap, Steps, Units, Climb, NextPower, SameStep;
    ValueIs(f, m, one, top, one);
    ValueIs(g, m, one, top, one);
    SameSize(Climb(m, one), Gap(f, 0), Gap(g, 0));
    ValueIs(f, m, one, top, n);
    ValueIs(g, m, one, top, n);
  }

  lemma SameSize(u: nat, x: real, y: real)
    requires Steps(u, x) == 1.0 && Steps(u, y) == 1.0
    ensures x == y
  {
    assert u as real * (x - y) == 0.0;
  }

  /** Larger patterns are larger numbers. */
  lemma {:induction false} Rises(f: int -> real, m: nat, one: nat, top: nat, a: nat, b: nat)
    requires Reads(f, m, one, top) && a < b < top
    ensures f(a) < f(b)
    decreases b
  {
    hide Steps, Units, Climb, NextPower, SameStep;
    ValueIs(f, m, one, top, one);
    GapIs(f, m, one, top, b - 1);
    Positive(Climb(m, one), Gap(f, 0), Units(m, b - 1));
    if a < b - 1 {
      Rises(f, m, one, top, a, b - 1);
    }
  }

  lemma Positive(k: nat, size: real, u: nat)
    requires Steps(k, size) == 1.0 && u >= 1
    ensures Steps(u, size) > 0.0
  {
    assert k as real * size == 1.0;
    assert size > 0.0;
  }

  // ---------------------------------------------------------------- the formula

  /** The value of pattern `n` by formula, the smallest step being two to the power `low`. */
  ghost function Ladder(m: nat, low: int, n: nat): real
    requires 0 < m
  {
    if n < m then Steps(n, Power2(low)) else Steps(m + n % m, Power2(low + n / m - 1))
  }

  lemma Doubles(k: int)
    ensures Power2(k + 1) == 2.0 * Power2(k)
  {
  }

  lemma {:induction false} Shifted(k: int, j: nat)
    ensures Power2(k + j) == Power2(j) * Power2(k)
  {
    if j > 0 {
      Shifted(k, j - 1);
      Doubles(k + (j - 1));
    }
  }

  lemma LadderGap(m: nat, low: int, n: nat)
    requires 0 < m
    ensures Ladder(m, low, n + 1) - Ladder(m, low, n) == Power2(if n < m then low else low + n / m - 1)
  {
    hide Steps, Power2;
    var e, r := n / m, n % m;
    if n + 1 < m {
      MoreSteps(n, 1, Power2(low));
    } else if n + 1 == m {
      assert (n + 1) % m == 0 && (n + 1) / m == 1;
      MoreSteps(n, 1, Power2(low));
    } else if r == m - 1 {
      NextRow(m, n);
      Doubles(low + e - 1);
      TwiceSteps(m, Power2(low + e - 1));
    } else {
      SameRow(m, n);
      MoreSteps(m + r, 1, Power2(low + e - 1));
    }
  }

  lemma TwiceSteps(m: nat, size: real)
    requires m > 0
    ensures Steps(m, 2.0 * size) == Steps(m + (m - 1), size) + size
  {
  }

  lemma NextRow(m: nat, n: nat)
    requires 0 < m && n % m == m - 1
    ensures (n + 1) % m == 0 && (n + 1) / m == n / m + 1
  {
    Plain.Position(m, n / m + 1, 0);
    assert n == n / m * m + (m - 1);
    assert (n / m + 1) * m == n / m * m + m;
  }

  lemma SameRow(m: nat, n: nat)
    requires 0 < m && n % m != m - 1
    ensures (n + 1) % m == n % m + 1 && (n + 1) / m == n / m
  {
    Plain.Position(m, n / m, n % m + 1);
    assert n == n / m * m + n % m;
  }

  lemma RowAbove(m: nat, n: nat)
    requires 0 < m
    ensures (n + m) / m == n / m + 1
  {
    Plain.Position(m, n / m + 1, n % m);
    assert n + m == (n / m + 1) * m + n % m;
  }

  lemma Bottom(m: nat, low: int)
    requires 0 < m
    ensures Ladder(m, low, 0) == 0.0
  {
  }

  lemma WithinRow(m: nat, n: nat)
    requires 0 < m && (n + 1) % m != 0
    ensures (n + 1) / m == n / m && (n < m <==> n + 1 < m)
  {
    if n % m == m - 1 {
      NextRow(m, n);
    } else {
      SameRow(m, n);
    }
  }

  /** The formula gives `f`'s values below `top`. */
  ghost predicate Follows(f: int -> real, m: nat, low: int, top: nat) {
    0 < m && forall n: nat :: n < top ==> f(n) == Ladder(m, low, n)
  }

  lemma FollowsGap(f: int -> real, m: nat, low: int, top: nat, n: nat)
    requires Follows(f, m, low, top) && n + 1 < top
    ensures Gap(f, n) == Power2(if n < m then low else low + n / m - 1)
  {
    hide Ladder, Power2;
    LadderGap(m, low, n);
  }

  lemma SameStepFollows(f: int -> real, m: nat, low: int, top: nat, n: nat)
    requires Follows(f, m, low, top) && n + 2 < top && (n + 1) % m != 0
    ensures SameStep(f, n)
  {
    assert m > 0;
    hide Follows, Gap, Power2;
    FollowsGap(f, m, low, top, n);
    FollowsGap(f, m, low, top, n + 1);
    WithinRow(m, n);
  }

  lemma NextPowerFollows(f: int -> real, m: nat, low: int, top: nat, n: nat)
    requires Follows(f, m, low, top) && n + m + 1 < top
    ensures NextPower(f, m, n)
  {
    assert m > 0;
    hide Follows, Gap, Power2;
    FollowsGap(f, m, low, top, n);
    FollowsGap(f, m, low, top, n + m);
    Above(m, low, n);
  }

  lemma Above(m: nat, low: int, n: nat)
    requires 0 < m
    ensures Power2(low + (n + m) / m - 1) == if n < m then Power2(low) else 2.0 * Power2(low + n / m - 1)
  {
    hide Power2;
    RowAbove(m, n);
    Doubles(low + n / m - 1);
    if n < m {
      assert n / m == 0;
    }
  }

  /** The formula keeps the rules. */
  lemma FormulaReads(f: int -> real, m: nat, low: int, one: nat, top: nat)
    requires Follows(f, m, low, top) && 0 < one < top && Ladder(m, low, one) == 1.0
    ensures Reads(f, m, one, top)
  {
    assert f(0) == 0.0 && f(one) == 1.0 by { Bottom(m, low); }
    assert m > 0;
    hide Follows, SameStep, NextPower, Ladder;
    forall n: nat | n + 2 < top && (n + 1) % m != 0 ensures SameStep(f, n) {
      SameStepFollows(f, m, low, top, n);
    }
    forall n: nat | n + m + 1 < top ensures NextPower(f, m, n) {
      NextPowerFollows(f, m, low, top, n);
    }
  }

  // ---------------------------------------------------------------- half and single precision

  lemma MiddleFive(b: B8)
    ensures ((b >> 2) & 0x1F) as int == b as int / 4 % 32
  {
    Quarter(b);
    LowFive(b >> 2);
  }

  lemma Quarter(b: B8)
    ensures (b >> 2) as int == b as int / 4
  {
  }

  lemma LowFive(b: B8)
    ensures (b & 0x1F) as int == b as int % 32
  {
  }

  lemma LowTwo(b: B8)
    ensures (b & 3) as int == b as int % 4
  {
  }

  lemma LowSeven(b: B8)
    ensures (b & 0x7F) as int == b as int % 128
  {
  }

  lemma TopBit(b: B8)
    ensures (b >> 7) as int == b as int / 128 && (b >> 7 == 1 <==> b as int >= 128)
  {
  }

  lemma Tens()
    ensures Power2(10) == 1024.0 && Power2(23) == 8388608.0
  {
    assert Power2(4) == 16.0 && Power2(8) == 256.0;
    assert Power2(12) == 4096.0 && Power2(16) == 65536.0 && Power2(20) == 1048576.0;
  }

  /** A fraction above a power of two, as steps. */
  lemma Normal(m: nat, digits: nat, r: nat, k: int)
    requires m > 0 && Power2(digits) == m as real
    ensures (1.0 + r as real / m as real) * Power2(k) == Steps(m + r, Power2(k - digits))
  {
    hide Power2;
    Shifted(k - digits, digits);
    Fraction(m as real, r as real, Power2(k - digits));
    Unit(m + r, Power2(k - digits));
  }

  lemma Fraction(m: real, r: real, size: real)
    requires m > 0.0
    ensures (1.0 + r / m) * (m * size) == (m + r) * size
  {
    assert (r / m) * m == r;
    assert (1.0 + r / m) * m == m + r;
  }

  /** A half-precision pattern, without its sign. */
  function HalfPattern(lo: B8, hi: B8): nat { Number(hi) % 128 * 256 + Number(lo) }

  function Number(b: B8): nat { b as int }

  lemma HalfFields(lo: B8, hi: B8)
    ensures
      var n, exp, mant := HalfPattern(lo, hi), ((hi >> 2) & 0x1F) as int, (hi & 3) as int * 256 + lo as int;
      exp == n / 1024 && mant == n % 1024
  {
    MiddleFive(hi);
    LowTwo(hi);
    HalfSplit(hi as int, lo as int, HalfPattern(lo, hi), ((hi >> 2) & 0x1F) as int, (hi & 3) as int);
  }

  lemma HalfSplit(hi: nat, lo: nat, n: nat, exp: nat, rest: nat)
    requires hi < 256 && lo < 256 && n == hi % 128 * 256 + lo && exp == hi / 4 % 32 && rest == hi % 4
    ensures exp == n / 1024 && rest * 256 + lo == n % 1024
  {
    assert hi % 128 == hi / 4 % 32 * 4 + hi % 4;
  }

  lemma HalfSizeIs(n: nat, m: nat, top: nat)
    requires m == 1024 && top == 0x7C00 && n < 0x8000
    ensures HalfSize(n / m, n % m) == if n >= top then 0.0 else Ladder(m, -24, n)
  {
    hide Power2, Steps;
    Tens();
    if n < m {
      Unit(n, Power2(-24));
    } else if n < top {
      Normal(m, 10, n % m, n / m - 15);
    }
  }

  lemma Unit(n: nat, size: real)
    ensures n as real * size == Steps(n, size)
  {
  }

  lemma HalfByFormula(lo: B8, hi: B8)
    ensures
      var n := HalfPattern(lo, hi);
      Half(lo, hi) == if n >= 0x7C00 then 0.0 else if hi as int < 128 then Ladder(1024, -24, n) else -Ladder(1024, -24, n)
  {
    hide Ladder, HalfSize, Half, HalfPattern;
    HalfSign(lo, hi);
    HalfSizeIs(HalfPattern(lo, hi), 1024, 0x7C00);
  }

  lemma HalfSign(lo: B8, hi: B8)
    ensures
      var n := HalfPattern(lo, hi);
      && n < 0x8000
      && Half(lo, hi) == var size := HalfSize(n / 1024, n % 1024); if hi as int < 128 then size else -size
  {
    hide HalfSize;
    HalfFields(lo, hi);
    TopBit(hi);
  }

  function ByteOf(n: nat): (b: B8)
    requires n < 256
    ensures Number(b) == n
  {
    if n == 0 then 0
    else
      NextByte(ByteOf(n - 1));
      ByteOf(n - 1) + 1
  }

  lemma NextByte(b: B8)
    requires b != 255
    ensures (b + 1) as int == b as int + 1
  {
  }

  ghost function HalfAt(n: int): real {
    if 0 <= n < 0x8000 then Half(ByteOf(n % 256), ByteOf(n / 256)) else 0.0
  }

  lemma HalfPatternFrom(n: nat, a: nat, b: nat, lo: B8, hi: B8)
    requires a < 128 && n == a * 256 + b && Number(hi) == a && Number(lo) == b
    ensures HalfPattern(lo, hi) == n
  {
    hide Number;
  }

  lemma HalfAtIs(n: nat)
    requires n < 0x7C00
    ensures HalfAt(n) == Ladder(1024, -24, n)
  {
    hide Ladder, Half, ByteOf, HalfPattern;
    var lo, hi := ByteOf(n % 256), ByteOf(n / 256);
    HalfPatternFrom(n, n / 256, n % 256, lo, hi);
    HalfByFormula(lo, hi);
  }

  lemma HalfOne(m: nat, one: nat)
    requires m == 1024 && one == 0x3C00
    ensures Ladder(m, -24, one) == 1.0
  {
    hide Power2;
    Tens();
    assert one / m == 15 && one % m == 0;
    Shifted(-10, 10);
    assert Power2(0) == 1.0 by { ZeroPower(); }
  }

  lemma ZeroPower()
    ensures Power2(0) == 1.0
  {
  }

  /** Half precision keeps the rules: 1024 fractions, one at 0x3C00, finite below 0x7C00. */
  lemma HalfReads(m: nat, one: nat, top: nat)
    requires m == 1024 && one == 0x3C00 && top == 0x7C00
    ensures Reads(HalfAt, m, one, top)
  {
    HalfOne(m, one);
    hide Ladder, HalfAt, Reads;
    forall n: nat | n < top ensures HalfAt(n) == Ladder(m, -24, n) {
      HalfAtIs(n);
    }
    FormulaReads(HalfAt, m, -24, one, top);
  }

  /** So there is no other reading of half precision: whatever keeps the rules gives `Half`, up to the sign in
    * the top bit. Patterns from 0x7C00 on, which are no finite numbers, give zero. */
  lemma HalfIs(f: int -> real, m: nat, one: nat, top: nat, lo: B8, hi: B8)
    requires m == 1024 && one == 0x3C00 && top == 0x7C00 && Reads(f, m, one, top)
    ensures
      var n := HalfPattern(lo, hi);
      Half(lo, hi) == if n >= top then 0.0 else if hi < 0x80 then f(n) else -f(n)
  {
    hide Reads, Half, Ladder, HalfAt;
    var n := HalfPattern(lo, hi);
    HalfByFormula(lo, hi);
    if n < top {
      HalfReads(m, one, top);
      OneReading(f, HalfAt, m, one, top, n);
      HalfAtIs(n);
    }
  }

  /** A single-precision pattern, without its sign. */
  function FloatPattern(b0: B8, b1: B8, b2: B8, b3: B8): nat {
    BigEndian(Number(b3) % 128, Number(b2), Number(b1), Number(b0))
  }

  function BigEndian(a: nat, b: nat, c: nat, d: nat): nat { a * 0x100_0000 + b * 0x1_0000 + c * 256 + d }

  lemma FloatFields(b0: B8, b1: B8, b2: B8, b3: B8)
    ensures
      var n, exp := FloatPattern(b0, b1, b2, b3), ((b3 & 0x7F) as int) * 2 + (b2 >> 7) as int;
      var mant := ((b2 & 0x7F) as int) * 65536 + b1 as int * 256 + b0 as int;
      exp == n / 0x80_0000 && mant == n % 0x80_0000
  {
    TopBit(b2);
    LowSeven(b2);
    LowSeven(b3);
    FieldsOf(b3 as int % 128, b2 as int, b1 as int, b0 as int, FloatPattern(b0, b1, b2, b3),
      (b3 & 0x7F) as int, (b2 >> 7) as int, (b2 & 0x7F) as int);
  }

  lemma FieldsOf(a: nat, b: nat, c: nat, d: nat, n: nat, high: nat, top: nat, rest: nat)
    requires b < 256 && c < 256 && d < 256 && n == BigEndian(a, b, c, d)
    requires high == a && top == b / 128 && rest == b % 128
    ensures high * 2 + top == n / 0x80_0000 && rest * 65536 + c * 256 + d == n % 0x80_0000
  {
    Rearrange(a, b, c, d);
  }

  lemma Rearrange(a: nat, b: nat, c: nat, d: nat)
    requires b < 256 && c < 256 && d < 256
    ensures
      var n := BigEndian(a, b, c, d);
      n / 0x80_0000 == a * 2 + b / 128 && n % 0x80_0000 == b % 128 * 65536 + c * 256 + d
  {
    assert b == b / 128 * 128 + b % 128;
  }

  lemma FloatSizeIs(n: nat, m: nat, top: nat)
    requires m == 0x80_0000 && top == 0x7F80_0000 && n < 0x8000_0000
    ensures Plain.FloatSize(n / m, n % m) == if n >= top then 0.0 else Ladder(m, -149, n)
  {
    hide Power2, Steps;
    Tens();
    if n < m {
      Unit(n, Power2(-149));
    } else if n < top {
      Normal(m, 23, n % m, n / m - 127);
    }
  }

  lemma FloatByFormula(b0: B8, b1: B8, b2: B8, b3: B8)
    ensures
      var n := FloatPattern(b0, b1, b2, b3);
      Plain.Float(b0, b1, b2, b3) ==
        if n >= 0x7F80_0000 then 0.0 else if b3 as int < 128 then Ladder(0x80_0000, -149, n) else -Ladder(0x80_0000, -149, n)
  {
    hide Ladder, Plain.FloatSize, Plain.Float, FloatPattern;
    SignAndSize(b0, b1, b2, b3);
    FloatSizeIs(FloatPattern(b0, b1, b2, b3), 0x80_0000, 0x7F80_0000);
  }

  lemma SignAndSize(b0: B8, b1: B8, b2: B8, b3: B8)
    ensures
      var n := FloatPattern(b0, b1, b2, b3);
      && n < 0x8000_0000
      && Plain.Float(b0, b1, b2, b3) ==
        var size := Plain.FloatSize(n / 0x80_0000, n % 0x80_0000); if b3 as int < 128 then size else -size
  {
    hide Plain.FloatSize;
    FloatFields(b0, b1, b2, b3);
    TopBit(b3);
  }

  ghost function FloatAt(n: int): real {
    if 0 <= n < 0x8000_0000 then
      Plain.Float(ByteOf(n % 256), ByteOf(n / 256 % 256), ByteOf(n / 0x1_0000 % 256), ByteOf(n / 0x100_0000))
    else 0.0
  }

  lemma FourBytes(n: nat)
    requires n < 0x8000_0000
    ensures n / 0x100_0000 < 128
    ensures n == BigEndian(n / 0x100_0000, n / 0x1_0000 % 256, n / 256 % 256, n % 256)
  {
    assert n / 0x1_0000 / 256 == n / 0x100_0000 && n / 256 / 256 == n / 0x1_0000;
  }

  lemma PatternFrom(n: nat, a: nat, b: nat, c: nat, d: nat, b0: B8, b1: B8, b2: B8, b3: B8)
    requires a < 128 && n == BigEndian(a, b, c, d)
    requires Number(b3) == a && Number(b2) == b && Number(b1) == c && Number(b0) == d
    ensures FloatPattern(b0, b1, b2, b3) == n
  {
    hide BigEndian, Number;
  }

  lemma FloatAtIs(n: nat)
    requires n < 0x7F80_0000
    ensures FloatAt(n) == Ladder(0x80_0000, -149, n)
  {
    hide Ladder, Plain.Float, ByteOf, FloatPattern;
    FourBytes(n);
    var b0, b1, b2, b3 := ByteOf(n % 256), ByteOf(n / 256 % 256), ByteOf(n / 0x1_0000 % 256), ByteOf(n / 0x100_0000);
    PatternFrom(n, n / 0x100_0000, n / 0x1_0000 % 256, n / 256 % 256, n % 256, b0, b1, b2, b3);
    FloatByFormula(b0, b1, b2, b3);
  }

  lemma FloatOne(m: nat, one: nat)
    requires m == 0x80_0000 && one == 0x3F80_0000
    ensures Ladder(m, -149, one) == 1.0
  {
    hide Power2;
    Tens();
    assert one / m == 127 && one % m == 0;
    Shifted(-23, 23);
    assert Power2(0) == 1.0 by { ZeroPower(); }
  }

  /** Single precision keeps them: 2^23 fractions, one at 0x3F80_0000, finite below 0x7F80_0000. */
  lemma FloatReads(m: nat, one: nat, top: nat)
    requires m == 0x80_0000 && one == 0x3F80_0000 && top == 0x7F80_0000
    ensures Reads(FloatAt, m, one, top)
  {
    FloatOne(m, one);
    hide Ladder, FloatAt, Reads;
    forall n: nat | n < top ensures FloatAt(n) == Ladder(m, -149, n) {
      FloatAtIs(n);
    }
    FormulaReads(FloatAt, m, -149, one, top);
  }

  /** And whatever keeps them gives `Float`, up to the sign. */
  lemma FloatIs(f: int -> real, m: nat, one: nat, top: nat, b0: B8, b1: B8, b2: B8, b3: B8)
    requires m == 0x80_0000 && one == 0x3F80_0000 && top == 0x7F80_0000 && Reads(f, m, one, top)
    ensures
      var n := FloatPattern(b0, b1, b2, b3);
      Plain.Float(b0, b1, b2, b3) == if n >= top then 0.0 else if b3 < 0x80 then f(n) else -f(n)
  {
    hide Reads, Plain.Float, Ladder, FloatAt;
    var n := FloatPattern(b0, b1, b2, b3);
    FloatByFormula(b0, b1, b2, b3);
    if n < top {
      FloatReads(m, one, top);
      OneReading(f, FloatAt, m, one, top, n);
      FloatAtIs(n);
    }
  }

  // ---------------------------------------------------------------- bit fields

  /** Two four-bit numbers in a byte. */
  function PackNibbles(low: B8, high: B8): B8 { (low & 0x0F) | (high << 4) }

  /** Four two-bit numbers in a byte, the first at the bottom. */
  function PackPairs(p: seq<B8>): B8
    requires |p| == 4
  {
    (p[0] & 3) | ((p[1] & 3) << 2) | ((p[2] & 3) << 4) | (p[3] << 6)
  }

  lemma NibblesRoundTrip(low: B8, high: B8)
    requires low < 16 && high < 16
    ensures Low(PackNibbles(low, high)) == low as int && High(PackNibbles(low, high)) == high as int
  {
  }

  lemma PairsRoundTrip(p: seq<B8>, i: nat)
    requires |p| == 4 && i < 4 && forall j :: 0 <= j < 4 ==> p[j] < 4
    ensures Two(PackPairs(p), 2 * i) == p[i] as int
    ensures (Down(PackPairs(p), i) & 3) as int == p[i] as int
  {
    FourPairs(p[0], p[1], p[2], p[3]);
  }

  lemma FourPairs(a: B8, b: B8, c: B8, d: B8)
    requires a < 4 && b < 4 && c < 4 && d < 4
    ensures
      var x := PackPairs([a, b, c, d]);
      && (x >> 0) & 3 == x & 3 == a && (x >> 2) & 3 == b && (x >> 4) & 3 == c && (x >> 6) & 3 == d
  {
  }

  /** A number from -32 to 31, raised by 32 and split into four bits and two. */
  lemma CentredRoundTrip(q: int, nibble: B8, pair: B8)
    requires -32 <= q < 32 && nibble as int == (q + 32) % 16 && (pair & 3) as int == (q + 32) / 16
    ensures Centred(nibble, pair) == q
  {
    SixBits(nibble, pair);
  }

  lemma SixBits(nibble: B8, pair: B8)
    requires nibble < 16
    ensures (nibble | ((pair & 3) << 4)) as int == nibble as int + 16 * (pair & 3) as int
  {
  }

  /** A scale times a small factor. */
  lemma TimesIs(d: real, x: B8)
    ensures Times(d, x) == d * Number(x) as real
  {
  }

  /** Two's complement. */
  lemma SignedRoundTrip(q: int, b: B8)
    requires -128 <= q < 128 && b as int == if q < 0 then q + 256 else q
    ensures Signed(b) == q
  {
  }
}
