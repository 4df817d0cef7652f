/**
 * Shared helpers of the game:
 *  - the integer helpers of src/main/kotlin/com/peinbol/Util.kt (truncating
 *    division, random ids, the timed oscillator);
 *  - the Kotlin standard-library operations the modelled code leans on: the
 *    float conversions and clamps behind the camera setters of
 *    src/main/kotlin/com/peinbol/client/Window.kt (CoerceIn, FMod360,
 *    PitchOf), and String.replace as the server's kill messages use it;
 *  - the random draws of src/main/kotlin/com/peinbol/server/Server.kt
 *    (Math.random(), list.random(), randBetween) as a stream
 *    (RandomSource).
 * The clock and the random generator are parameters: `now` is the value of
 * System.currentTimeMillis() read by the call, `draw` is the value returned by
 * the one Random().nextInt(bound) the call makes.
 */
module Util {

  function Abs(a: int): int
  {
    if a < 0 then -a else a
  }

  /**
   * Kotlin's Int/Long `/`: the quotient is truncated toward zero, so its size
   * is |a| / |b| and its sign is the product of the operands' signs.
   */
  function TruncDiv(a: int, b: int): (q: int)
    requires b != 0
    ensures b > 0 && a >= 0 ==> q == a / b
    ensures (a >= 0) == (b > 0) ==> q == Abs(a) / Abs(b)
    ensures (a >= 0) != (b > 0) ==> q == -(Abs(a) / Abs(b))
  {
    if a >= 0 then (if b > 0 then a / b else -(a / -b))
    else (if b > 0 then -(-a / b) else -a / -b)
  }

  /** Kotlin's Int/Long `%`: the remainder takes the sign of the dividend. */
  function TruncMod(a: int, b: int): (r: int)
    requires b != 0
    ensures a == TruncDiv(a, b) * b + r
    ensures b > 0 && a >= 0 ==> r == a % b
    ensures a >= 0 ==> 0 <= r < Abs(b)
    ensures a < 0 ==> -Abs(b) < r <= 0
  {
    TruncModBound(a, b);
    a - TruncDiv(a, b) * b
  }

  lemma TruncModBound(a: int, b: int)
    requires b != 0
    ensures a - TruncDiv(a, b) * b == (if a >= 0 then Abs(a) % Abs(b) else -(Abs(a) % Abs(b)))
    ensures 0 <= Abs(a) % Abs(b) < Abs(b)
  {
    var A, B := Abs(a), Abs(b);
    var q := A / B;
    assert A == q * B + A % B;
    if (a >= 0) == (b > 0) {
      assert TruncDiv(a, b) == q;
      if b < 0 {
        NegatedProduct(q, B);
      }
    } else {
      assert TruncDiv(a, b) == -q;
      NegatedProduct(q, B);
    }
  }

  /** Sign rules for a product. */
  lemma NegatedProduct(x: int, y: int)
    ensures (-x) * y == -(x * y) && x * (-y) == -(x * y) && (-x) * (-y) == x * y
  {
  }

  /** Random().nextInt(bound): any value in [0, bound); `draw` picks which one. */
  function NextInt(bound: int, draw: nat): (r: int)
    requires bound > 0
    ensures 0 <= r < bound
  {
    draw % bound
  }

  /** randBetween(min, max) = min + nextInt(max - min); nextInt throws unless max > min. */
  function RandBetween(min: int, max: int, draw: nat): (r: int)
    requires max > min
    ensures min <= r < max
  {
    min + NextInt(max - min, draw)
  }

  const ID_BOUND := 0x7FFF_FFFF

  /** generateId() = randBetween(0, 0x7FFFFFFF). */
  function GenerateId(draw: nat): (id: int)
    ensures 0 <= id < ID_BOUND
  {
    RandBetween(0, ID_BOUND, draw)
  }

  /**
   * timedOscillator(millis) at clock value `now`: the remainder of now by millis,
   * counted up in even periods and down in odd ones.
   */
  function TimedOscillator(millis: int, now: int): int
    requires millis != 0
  {
    var time := TruncMod(now, millis);
    var ascendingOrDescending := TruncMod(TruncDiv(now, millis), 2);
    if ascendingOrDescending == 0 then time else millis - time
  }

  /** In range: for a positive period and a non-negative clock the value lies in [0, m]. */
  lemma OscillatorBounds(m: int, t: int)
    requires m > 0 && t >= 0
    ensures 0 <= TimedOscillator(m, t) <= m
  {
  }

  /** Rising in even periods, falling in odd periods. */
  lemma OscillatorPhases(m: int, t: int)
    requires m > 0 && t >= 0
    ensures (t / m) % 2 == 0 ==> TimedOscillator(m, t) == t % m
    ensures (t / m) % 2 == 1 ==> TimedOscillator(m, t) == m - t % m
  {
  }

  /** Euclidean division is unique: q and r with a == q * m + r, 0 <= r < m are a / m and a % m. */
  lemma DivModUnique(a: int, m: int, q: int, r: int)
    requires m > 0 && 0 <= r < m && a == q * m + r
    ensures a / m == q && a % m == r
  {
    var d := q - a / m;
    assert d * m == a % m - r;
    MulBound(d, m);
  }

  lemma MulBound(d: int, m: int)
    requires m > 0
    ensures d >= 1 ==> d * m >= m
    ensures d <= -1 ==> d * m <= -m
  {
  }

  lemma DivModStep(m: int, t: int)
    requires m > 0 && t >= 0
    ensures t % m < m - 1 ==> (t + 1) / m == t / m && (t + 1) % m == t % m + 1
    ensures t % m == m - 1 ==> (t + 1) / m == t / m + 1 && (t + 1) % m == 0
  {
    var q, r := t / m, t % m;
    if r < m - 1 {
      DivModUnique(t + 1, m, q, r + 1);
    } else {
      DivModUnique(t + 1, m, q + 1, 0);
    }
  }

  /** Triangle wave: consecutive milliseconds differ by exactly one. */
  lemma OscillatorSteps(m: int, t: int)
    requires m > 0 && t >= 0
    ensures TimedOscillator(m, t + 1) - TimedOscillator(m, t) in {1, -1}
  {
    DivModStep(m, t);
    OscillatorPhases(m, t);
    OscillatorPhases(m, t + 1);
    var q, r := t / m, t % m;
    if r == m - 1 {
      assert (t + 1) / m == q + 1 && (t + 1) % m == 0;
      assert (q + 1) % 2 == 1 - q % 2;
    } else {
      assert (t + 1) / m == q && (t + 1) % m == r + 1;
    }
  }

  /** Periodic with period 2m. */
  lemma OscillatorPeriodic(m: int, t: int)
    requires m > 0 && t >= 0
    ensures TimedOscillator(m, t + 2 * m) == TimedOscillator(m, t)
  {
    var q, r := t / m, t % m;
    DivModUnique(t + 2 * m, m, q + 2, r);
    assert (q + 2) % 2 == q % 2;
    OscillatorPhases(m, t);
    OscillatorPhases(m, t + 2 * m);
  }

  /** A C or Kotlin float-to-int conversion: the fraction is dropped toward zero. */
  function TruncReal(r: real): (n: int)
    ensures r >= 0.0 ==> n as real <= r < n as real + 1.0
    ensures r < 0.0 ==> n as real - 1.0 < r <= n as real
  {
    if r >= 0.0 then r.Floor else -((-r).Floor)
  }

  lemma TruncRealOfInt(n: int)
    ensures TruncReal(n as real) == n
  {
  }

  /** Kotlin's Float.coerceIn(lo, hi). */
  function CoerceIn(v: real, lo: real, hi: real): (r: real)
    requires lo <= hi
    ensures lo <= r <= hi
    ensures lo <= v <= hi ==> r == v
    ensures v < lo ==> r == lo
    ensures v > hi ==> r == hi
  {
    if v < lo then lo else if v > hi then hi else v
  }

  const FULL_TURN := 360.0

  /**
   * Kotlin's Float `% 360f` (fmod): the remainder keeps the dividend's sign,
   * is smaller than a full turn, and differs from it by whole turns.
   */
  function FMod360(a: real): (r: real)
    ensures a >= 0.0 ==> 0.0 <= r < FULL_TURN
    ensures a < 0.0 ==> -FULL_TURN < r <= 0.0
    ensures -FULL_TURN < a < FULL_TURN ==> r == a
    ensures ((a - r) / FULL_TURN).Floor as real == (a - r) / FULL_TURN
  {
    var n := TruncReal(a / FULL_TURN);
    a - FULL_TURN * n as real
  }

  const MAX_PITCH := 85.0

  /**
   * The value a cameraRotX setter stores (both Window.kt and the Android
   * WorldRenderer.kt): coerced into [-85, 85], then `% 360`.
   */
  function PitchOf(value: real): (r: real)
    ensures -MAX_PITCH <= r <= MAX_PITCH
    ensures -MAX_PITCH <= value <= MAX_PITCH ==> r == value
    ensures value > MAX_PITCH ==> r == MAX_PITCH
    ensures value < -MAX_PITCH ==> r == -MAX_PITCH
  {
    FMod360(CoerceIn(value, -MAX_PITCH, MAX_PITCH))
  }

  /**
   * A random generator as a fixed stream of draws: the n-th call uses
   * stream(n).  Servers hold one and draw from it in the source's order.
   */
  class RandomSource {
    const stream: nat -> nat
    var drawn: nat

    constructor (stream: nat -> nat)
      ensures this.stream == stream && drawn == 0
    {
      this.stream := stream;
      drawn := 0;
    }

    /** randBetween(min, max) on the next draw. */
    method Between(min: int, max: int) returns (r: int)
      requires max > min
      modifies this
      ensures drawn == old(drawn) + 1
      ensures r == RandBetween(min, max, stream(old(drawn))) && min <= r < max
    {
      r := RandBetween(min, max, stream(drawn));
      drawn := drawn + 1;
    }

    /** generateId() on the next draw. */
    method Id() returns (id: int)
      modifies this
      ensures drawn == old(drawn) + 1
      ensures id == GenerateId(stream(old(drawn))) && 0 <= id < ID_BOUND
    {
      id := GenerateId(stream(drawn));
      drawn := drawn + 1;
    }

    /** list.random() over a list of `size` elements: the index picked. */
    method Index(size: int) returns (i: int)
      requires size > 0
      modifies this
      ensures drawn == old(drawn) + 1
      ensures i == NextInt(size, stream(old(drawn))) && 0 <= i < size
    {
      i := NextInt(size, stream(drawn));
      drawn := drawn + 1;
    }

    /** Math.random() on the next draw, at 24-bit resolution. */
    method Unit() returns (u: real)
      modifies this
      ensures drawn == old(drawn) + 1
      ensures u == UnitOf(stream(old(drawn))) && 0.0 <= u < 1.0
    {
      u := UnitOf(stream(drawn));
      drawn := drawn + 1;
    }
  }

  const UNIT_STEPS := 0x100_0000

  /** A draw read as a fraction in [0, 1). */
  function UnitOf(draw: nat): (u: real)
    ensures 0.0 <= u < 1.0
  {
    (draw % UNIT_STEPS) as real / UNIT_STEPS as real
  }

  // ---------------------------------------------------------------------
  // String.replace

  /** Kotlin's String.replace(pattern, replacement): every occurrence, left to right. */
  function Replace(s: string, pattern: string, replacement: string): string
    requires |pattern| > 0
    decreases |s|
  {
    if |s| < |pattern| then s
    else if s[..|pattern|] == pattern then replacement + Replace(s[|pattern|..], pattern, replacement)
    else [s[0]] + Replace(s[1..], pattern, replacement)
  }

  /** Text before the first '{' of a placeholder is copied unchanged: replacing starts after it. */
  lemma {:induction false} ReplaceSkips(x: string, t: string, pattern: string, replacement: string)
    requires |pattern| > 0 && pattern[0] !in x
    ensures Replace(x + t, pattern, replacement) == x + Replace(t, pattern, replacement)
    decreases |x|
  {
    if x != [] {
      assert (x + t)[0] == x[0] != pattern[0];
      if |x + t| >= |pattern| {
        assert (x + t)[..|pattern|] != pattern;
        assert (x + t)[1..] == x[1..] + t;
        ReplaceSkips(x[1..], t, pattern, replacement);
      } else {
        ReplaceSkips(x[1..], t, pattern, replacement);
        assert Replace(x[1..] + t, pattern, replacement) == x[1..] + t;
        assert |t| < |pattern|;
      }
    } else {
      assert x + t == t;
    }
  }

  /** A text without '{' holds no placeholder and is left as it is. */
  lemma {:induction false} ReplaceNone(t: string, pattern: string, replacement: string)
    requires |pattern| > 0 && pattern[0] !in t
    ensures Replace(t, pattern, replacement) == t
  {
    ReplaceSkips(t, [], pattern, replacement);
    assert t + [] == t;
  }

  /** Two placeholders that open with the same character, differ at the next, and hold it nowhere else. */
  predicate Placeholders(p: string, q: string)
  {
    |p| > 1 && |q| > 1 && p[0] == q[0] && p[1] != q[1] && p[0] !in p[1..] && p[0] !in q[1..]
  }

  /** A placeholder at the front of the text is replaced, and replacing goes on after it. */
  lemma {:induction false} ReplaceHit(p: string, t: string, replacement: string)
    requires |p| > 0
    ensures Replace(p + t, p, replacement) == replacement + Replace(t, p, replacement)
  {
    assert (p + t)[..|p|] == p && (p + t)[|p|..] == t;
  }

  /** Another placeholder at the front of the text is copied unchanged. */
  lemma {:induction false} ReplacePasses(q: string, t: string, p: string, replacement: string)
    requires Placeholders(q, p)
    ensures Replace(q + t, p, replacement) == q + Replace(t, p, replacement)
  {
    var s := q + t;
    if |s| < |p| {
      assert Replace(t, p, replacement) == t;
    } else {
      assert s[1] == q[1] != p[1];
      assert s[..|p|] != p;
      assert Replace(s, p, replacement) == [s[0]] + Replace(s[1..], p, replacement);
      assert s[1..] == q[1..] + t;
      ReplaceSkips(q[1..], t, p, replacement);
      var r := Replace(t, p, replacement);
      assert s[0] == q[0];
      assert [q[0]] + (q[1..] + r) == ([q[0]] + q[1..]) + r;
      assert [q[0]] + q[1..] == q;
    }
  }

  /** Filling the later placeholder leaves the earlier one and the text around it as they were. */
  lemma {:induction false} FillLater(a: string, b: string, c: string, p: string, q: string, y: string)
    requires Placeholders(p, q)
    requires p[0] !in a && p[0] !in b && p[0] !in c
    ensures Replace(a + p + b + q + c, q, y) == a + (p + (b + (y + c)))
  {
    assert a + p + b + q + c == a + (p + (b + (q + c)));
    ReplaceHit(q, c, y);
    ReplaceNone(c, q, y);
    ReplaceSkips(b, q + c, q, y);
    ReplacePasses(p, b + (q + c), q, y);
    ReplaceSkips(a, p + (b + (q + c)), q, y);
  }

  /** Filling the one placeholder left in the text. */
  lemma {:induction false} FillOnly(a: string, t: string, p: string, x: string)
    requires |p| > 0 && p[0] !in a && p[0] !in t
    ensures Replace(a + (p + t), p, x) == a + (x + t)
  {
    ReplaceNone(t, p, x);
    ReplaceHit(p, t, x);
    ReplaceSkips(a, p + t, p, x);
  }

  /** The placeholder that comes second is filled first: each is replaced by its name, everything else is kept. */
  lemma {:induction false} FillLaterFirst(a: string, b: string, c: string, p: string, q: string, x: string, y: string)
    requires Placeholders(p, q)
    requires p[0] !in a && p[0] !in b && p[0] !in c && p[0] !in x && p[0] !in y
    ensures Replace(Replace(a + p + b + q + c, q, y), p, x) == a + x + b + y + c
  {
    FillLater(a, b, c, p, q, y);
    assert p[0] !in b + (y + c);
    FillOnly(a, b + (y + c), p, x);
    assert a + (x + (b + (y + c))) == a + x + b + y + c;
  }

  /** The placeholder that comes first is filled first: the same fill-in. */
  lemma {:induction false} FillInOrder(a: string, b: string, c: string, p: string, q: string, x: string, y: string)
    requires Placeholders(p, q)
    requires p[0] !in a && p[0] !in b && p[0] !in c && p[0] !in x && p[0] !in y
    ensures Replace(Replace(a + p + b + q + c, p, x), q, y) == a + x + b + y + c
  {
    assert a + p + b + q + c == a + (p + (b + (q + c)));
    ReplaceSkips(a, p + (b + (q + c)), p, x);
    ReplaceHit(p, b + (q + c), x);
    ReplaceSkips(b, q + c, p, x);
    ReplacePasses(q, c, p, x);
    ReplaceNone(c, p, x);
    assert a + (x + (b + (q + c))) == (a + x + b) + (q + c);
    ReplaceSkips(a + x + b, q + c, q, y);
    ReplaceHit(q, c, y);
    ReplaceNone(c, q, y);
    assert (a + x + b) + (y + c) == a + x + b + y + c;
  }
}
