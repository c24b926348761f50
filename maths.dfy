/**
 * The parts of Go's `math` package that the text-placement code relies on.
 *
 * Trigonometry, `Atan2` and `Sqrt` are not computed here: they are supplied by
 * the caller as a `Trig` record of functions (an oracle), and the few facts
 * about them that some properties need (sin² + cos² = 1, parity) are stated as
 * predicates that those properties take as preconditions. `math.Round` is
 * defined exactly over the reals.
 */
module Maths {

  /** A point (or displacement) in path coordinates. */
  datatype Point = Point(x: real, y: real)

  type Positive = r: real | r > 0.0 witness 1.0

  /**
   * `math.Sin`, `math.Cos` (radians), `math.Atan2` (radians), `math.Sqrt`,
   * and the constant `math.Pi`, left uninterpreted.
   */
  datatype Trig = Trig(
    sin: real -> real,
    cos: real -> real,
    atan2: (real, real) -> real,
    sqrt: real -> real,
    pi: Positive)

  /** `degrees * (math.Pi / 180)` */
  function Radians(t: Trig, degrees: real): (rad: real) {
    degrees * (t.pi / 180.0)
  }

  /** `math.Atan2(y, x) / (math.Pi / 180)` */
  function Atan2Deg(t: Trig, y: real, x: real): (deg: real) {
    t.atan2(y, x) / (t.pi / 180.0)
  }

  function SinDeg(t: Trig, degrees: real): (s: real) {
    t.sin(Radians(t, degrees))
  }

  function CosDeg(t: Trig, degrees: real): (c: real) {
    t.cos(Radians(t, degrees))
  }

  /** `math.Sqrt(math.Pow(x, 2) + math.Pow(y, 2))`: the length of (x, y). */
  function Hypot(t: Trig, x: real, y: real): (h: real) {
    t.sqrt(x * x + y * y)
  }

  /** sin²θ + cos²θ = 1 for every θ. */
  ghost predicate Pythagorean(t: Trig) {
    forall a :: t.sin(a) * t.sin(a) + t.cos(a) * t.cos(a) == 1.0
  }

  /** cos is even and sin is odd. */
  ghost predicate Parity(t: Trig) {
    forall a :: t.cos(-a) == t.cos(a) && t.sin(-a) == -t.sin(a)
  }

  /** `math.Round`: nearest integer, halves rounded away from zero. */
  function Round(x: real): (r: int)
    ensures x - 0.5 <= r as real <= x + 0.5
    ensures x >= 0.0 ==> r >= 0 && r as real > x - 0.5
    ensures x <= 0.0 ==> r <= 0 && r as real < x + 0.5
  {
    if x >= 0.0 then (x + 0.5).Floor else -((-x + 0.5).Floor)
  }

  /**
   * `math.Round(x*100) / 100`: the hundredth nearest to x, halves rounded
   * away from zero. The result lies on the 0.01 grid, within half a hundredth
   * of x, and strictly within on the side of zero; those three facts leave
   * exactly one candidate.
   */
  function Round2(x: real): (r: real)
    ensures (r * 100.0).Floor as real == r * 100.0
    ensures x - 0.005 <= r <= x + 0.005
    ensures x >= 0.0 ==> x - 0.005 < r
    ensures x <= 0.0 ==> r < x + 0.005
  {
    Round(x * 100.0) as real / 100.0
  }

  /** Round2's contract determines it: any value meeting it is Round2(x). */
  lemma {:induction false} Round2Unique(x: real, r: real)
    requires (r * 100.0).Floor as real == r * 100.0
    requires x - 0.005 <= r <= x + 0.005
    requires x >= 0.0 ==> x - 0.005 < r
    requires x <= 0.0 ==> r < x + 0.005
    ensures r == Round2(x)
  {
    var k, m := (r * 100.0).Floor, (Round2(x) * 100.0).Floor;
    var y := x * 100.0;
    assert y - 0.5 <= k as real <= y + 0.5 && y - 0.5 <= m as real <= y + 0.5;
    if x >= 0.0 {
      assert y - 0.5 < k as real && y - 0.5 < m as real;
    } else {
      assert k as real < y + 0.5 && m as real < y + 0.5;
    }
    assert k == m;
  }

  lemma Round2Zero()
    ensures Round2(0.0) == 0.0
  {
    assert (0.0 + 0.5).Floor == 0;
  }
}
