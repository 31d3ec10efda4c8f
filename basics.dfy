/** Shared vocabulary of the game model: random draws, colours and the two
    kinds of level rectangle the player collides with. */
module Basics {

  /** One draw of the browser's uniform random source: a real in [0, 1). */
  type Unit = r: real | 0.0 <= r < 1.0

  /** Colours are opaque to the game rules; only the shapes the game builds
      are told apart: a CSS hex literal, an `rgb(...)` triple, and the fully
      transparent `rgba(0,0,0,0)` used to hide a rectangle. */
  datatype Color = Hex(code: string) | Rgb(r: real, g: real, b: real) | Transparent

  /** A platform rectangle of the level. */
  datatype Platform = Platform(x: real, y: real, width: real, height: real, color: Color)

  /** The exit door, with the position it drifts back to. */
  datatype Exit = Exit(x: real, y: real, width: real, height: real, color: Color,
                       originalX: real, originalY: real)

  datatype Option<T> = None | Some(value: T)

  function Pow(a: real, n: nat): real
    decreases n
  {
    if n == 0 then 1.0 else a * Pow(a, n - 1)
  }

  function Min(a: real, b: real): real { if a <= b then a else b }

  function Max(a: real, b: real): real { if a >= b then a else b }

  /** Strict axis-aligned overlap of two rectangles given as x, y, width, height:
      rectangles that only share an edge do not overlap. */
  predicate StrictOverlap(x1: real, y1: real, w1: real, h1: real,
                          x2: real, y2: real, w2: real, h2: real)
  {
    x1 + w1 > x2 && x1 < x2 + w2 && y1 + h1 > y2 && y1 < y2 + h2
  }

  /** A centred draw scaled by s, as in `(Math.random() - 0.5) * s`, lies in
      [-s/2, s/2): the lower end is reached at r = 0, the upper end never. */
  lemma CentredDraw(r: Unit, s: real)
    requires s > 0.0
    ensures -0.5 * s <= (r - 0.5) * s < 0.5 * s
  {
    ScaledDraw(r, s);
  }

  /** A draw scaled by a positive s lies in [0, s). */
  lemma ScaledDraw(r: Unit, s: real)
    requires s > 0.0
    ensures 0.0 <= r * s < s
  {
    assert r * s == s - (1.0 - r) * s;
    assert (1.0 - r) * s > 0.0;
  }

  /** A centred draw scaled by a positive factor and a positive constant, as in
      `(Math.random() - 0.5) * intensity * 5`, lies in [-k*i/2, k*i/2). */
  lemma CentredScaledDraw(r: Unit, i: real, k: real)
    requires i > 0.0 && k > 0.0
    ensures -0.5 * k * i <= (r - 0.5) * i * k < 0.5 * k * i
  {
    var s := i * k;
    ScaledDraw(r, s);
    assert (r - 0.5) * i * k == (r - 0.5) * s;
  }

  /** A draw scaled by a positive difference w - c lies in [0, w - c). */
  lemma ShiftedDraw(r: Unit, w: real, c: real)
    requires w > c
    ensures 0.0 <= r * (w - c) < w - c
  {
    var s := w - c;
    ScaledDraw(r, s);
    calc {
      r * (w - c);
      == r * s;
      < s;
      == w - c;
    }
    calc {
      0.0;
      <= r * s;
      == r * (w - c);
    }
  }

  /** `Math.floor(base + Math.random() * span)` lies in [base, base + span). */
  lemma FloorOfDraw(r: Unit, base: int, span: nat)
    requires span > 0
    ensures base <= (base as real + r * span as real).Floor < base + span
  {
    ScaledDraw(r, span as real);
  }

  /** `floor(r * n)` for a draw r: the index Math.floor(Math.random() * n) picks. */
  function PickIndex(n: nat, r: Unit): (k: nat)
    requires n > 0
    ensures k < n
  {
    var k := (r * n as real).Floor;
    assert 0.0 <= r * n as real < n as real by {
      assert r * n as real <= 1.0 * n as real - (1.0 - r) * n as real;
    }
    k
  }
}
