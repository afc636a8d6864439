/**
 The Mandelbrot fractal generator: the default view rectangle of the complex
 plane and the escape-time iteration count of a point.

 Arithmetic is over `real`; the generator's doubles are not rounded here.
 */
module Mandelbrot {

  /** The iteration cap of the escape-time loop. */
  const MAX_ITERATIONS: int := 2000

  /** The sentinel returned for a point whose orbit stayed bounded up to the cap. */
  const DID_NOT_ESCAPE: int := -1

  // ---------------------------------------------------------------------------
  // Complex numbers and the Mandelbrot recurrence
  // ---------------------------------------------------------------------------

  datatype Complex = Complex(re: real, im: real)

  const Zero: Complex := Complex(0.0, 0.0)

  function Add(a: Complex, b: Complex): Complex
  {
    Complex(a.re + b.re, a.im + b.im)
  }

  /** Complex multiplication, the textbook definition. */
  function Mul(a: Complex, b: Complex): Complex
  {
    Complex(a.re * b.re - a.im * b.im, a.re * b.im + a.im * b.re)
  }

  /** The squared modulus `re² + im²`, which the loop tests instead of `|z|`. */
  function ModSq(z: Complex): real
  {
    z.re * z.re + z.im * z.im
  }

  /** The loop guard's bound test: the orbit is still inside radius 2. */
  predicate InBound(z: Complex)
  {
    ModSq(z) < 4.0
  }

  /**
   One step of the recurrence in the explicit expansion the generator uses:
   both new components are computed from the old `z`.
   */
  function Step(z: Complex, c: Complex): Complex
  {
    Complex(z.re * z.re - z.im * z.im + c.re, 2.0 * z.re * z.im + c.im)
  }

  /** The orbit of `c`: z_0 = 0, z_{n+1} = z_n² + c. */
  function Orbit(c: Complex, n: nat): Complex
  {
    if n == 0 then Zero else Step(Orbit(c, n - 1), c)
  }

  /** Every orbit point before index `k` passed the bound test. */
  ghost predicate BoundedBefore(c: Complex, k: nat)
  {
    forall j :: 0 <= j < k ==> InBound(Orbit(c, j))
  }

  /** `k` is the first index at which the orbit of `c` fails the bound test. */
  ghost predicate IsFirstEscape(c: Complex, k: nat)
  {
    !InBound(Orbit(c, k)) && BoundedBefore(c, k)
  }

  /**
   The escape-time result of `c` by search from index `j`: the first index in
   `[j, MAX_ITERATIONS)` whose orbit point fails the bound test, or the
   sentinel when there is none.
   */
  function EscapeSearch(c: Complex, j: nat): (r: int)
    requires j <= MAX_ITERATIONS
    ensures r == DID_NOT_ESCAPE ==> forall i :: j <= i < MAX_ITERATIONS ==> InBound(Orbit(c, i))
    ensures (forall i :: j <= i < MAX_ITERATIONS ==> InBound(Orbit(c, i))) ==> r == DID_NOT_ESCAPE
    ensures r != DID_NOT_ESCAPE ==> j <= r < MAX_ITERATIONS && !InBound(Orbit(c, r))
    ensures r != DID_NOT_ESCAPE ==> forall i :: j <= i < r ==> InBound(Orbit(c, i))
    decreases MAX_ITERATIONS - j
  {
    if j == MAX_ITERATIONS then DID_NOT_ESCAPE
    else if !InBound(Orbit(c, j)) then j
    else EscapeSearch(c, j + 1)
  }

  /**
   The reference escape time of `c`: the index of the first orbit point with
   squared modulus at least 4 among z_0 .. z_{MAX_ITERATIONS-1}, or -1.
   Since z_0 = 0 passes the test, a non-sentinel result is never 0.
   */
  function EscapeTime(c: Complex): (r: int)
    ensures r == DID_NOT_ESCAPE || 1 <= r < MAX_ITERATIONS
  {
    assert InBound(Orbit(c, 0));
    EscapeSearch(c, 0)
  }

  // ---------------------------------------------------------------------------
  // Lemmas about the recurrence and the reference escape time
  // ---------------------------------------------------------------------------

  /** Proof hint for the loop: one step and the bound test, unfolded for a point (zr, zi). */
  lemma StepExpansion(zr: real, zi: real, x: real, y: real)
    ensures Step(Complex(zr, zi), Complex(x, y)) == Complex(zr * zr - zi * zi + x, 2.0 * zr * zi + y)
    ensures InBound(Complex(zr, zi)) <==> zr * zr + zi * zi < 4.0
  {
  }

  /** The explicit expansion is z * z + c. */
  lemma StepIsSquarePlusC(z: Complex, c: Complex)
    ensures Step(z, c) == Add(Mul(z, z), c)
  {
  }

  /** A result k other than -1 is exactly the first escape index. */
  lemma EscapeTimeIsFirstEscape(c: Complex, k: nat)
    requires k < MAX_ITERATIONS
    ensures EscapeTime(c) == k <==> IsFirstEscape(c, k)
  {
    var r := EscapeSearch(c, 0);
    assert EscapeTime(c) == r;
  }

  /** The sentinel is returned exactly when z_0 .. z_{MAX_ITERATIONS-1} all stay in bound. */
  lemma EscapeTimeSentinel(c: Complex)
    ensures EscapeTime(c) == DID_NOT_ESCAPE <==> BoundedBefore(c, MAX_ITERATIONS)
  {
  }

  /** The orbit of the origin stays at the origin. */
  lemma {:induction false} OrbitOfOrigin(n: nat)
    ensures Orbit(Zero, n) == Zero
  {
    if n > 0 {
      OrbitOfOrigin(n - 1);
    }
  }

  /**
   The origin never escapes: its count is the sentinel. The point is a
   parameter because a literal argument would make Dafny unfold the
   2000-step search.
   */
  lemma OriginDoesNotEscape(c: Complex)
    requires c.re == 0.0 && c.im == 0.0
    ensures EscapeTime(c) == DID_NOT_ESCAPE
  {
    assert c == Zero;
    forall i | 0 <= i < MAX_ITERATIONS
      ensures InBound(Orbit(c, i))
    {
      OrbitOfOrigin(i);
    }
  }

  /**
   z_1 = c, so the count is 1 exactly for the points with squared modulus at
   least 4; every other point, the non-escaping ones included, lies strictly
   inside the disk of radius 2.
   */
  lemma OutsideDiskEscapesAtOne(c: Complex)
    ensures EscapeTime(c) == 1 <==> ModSq(c) >= 4.0
  {
    assert Orbit(c, 1) == c;
    EscapeTimeIsFirstEscape(c, 1);
  }

  /** Concrete cases: (2,2) escapes at 1, and so does (2,0), whose squared modulus is exactly 4. */
  lemma ConcreteEscapes()
    ensures EscapeTime(Complex(2.0, 2.0)) == 1
    ensures EscapeTime(Complex(2.0, 0.0)) == 1
  {
    OutsideDiskEscapesAtOne(Complex(2.0, 2.0));
    OutsideDiskEscapesAtOne(Complex(2.0, 0.0));
  }

  // ---------------------------------------------------------------------------
  // The escape-time loop
  // ---------------------------------------------------------------------------

  /**
   The iteration count of the point `x + yi`: iterate from z = 0 while fewer
   than MAX_ITERATIONS steps were taken and |z|² < 4; return -1 if the cap was
   reached, otherwise the number of steps taken. The loop body runs `iter`
   times, at most MAX_ITERATIONS.
   */
  method NumIterations(x: real, y: real) returns (r: int)
    ensures r == EscapeTime(Complex(x, y))
    ensures r == DID_NOT_ESCAPE || 1 <= r < MAX_ITERATIONS
    ensures r == DID_NOT_ESCAPE <==> BoundedBefore(Complex(x, y), MAX_ITERATIONS)
    ensures r != DID_NOT_ESCAPE ==> IsFirstEscape(Complex(x, y), r)
  {
    ghost var c := Complex(x, y);
    var iter := 0;
    var zreal: real := 0.0;
    var zimaginary: real := 0.0;
    while iter < MAX_ITERATIONS && zreal * zreal + zimaginary * zimaginary < 4.0
      invariant 0 <= iter <= MAX_ITERATIONS
      invariant Complex(zreal, zimaginary) == Orbit(c, iter)
      invariant BoundedBefore(c, iter)
      decreases MAX_ITERATIONS - iter
    {
      StepExpansion(zreal, zimaginary, x, y);
      var zrealUp := zreal * zreal - zimaginary * zimaginary + x;
      var zimaginaryUp := 2.0 * zreal * zimaginary + y;
      zreal := zrealUp;
      zimaginary := zimaginaryUp;
      iter := iter + 1;
    }
    if iter == MAX_ITERATIONS {
      r := DID_NOT_ESCAPE;
      EscapeTimeSentinel(c);
    } else {
      r := iter;
      assert IsFirstEscape(c, iter);
      EscapeTimeIsFirstEscape(c, iter);
    }
  }

  // ---------------------------------------------------------------------------
  // The view rectangle
  // ---------------------------------------------------------------------------

  /** A rectangle of the plane as a value: corner (x, y), extents width and height. */
  datatype Rect = Rect(x: real, y: real, width: real, height: real)

  /** The Mandelbrot generator's default view. */
  const INITIAL_RANGE: Rect := Rect(-2.0, -1.5, 3.0, 3.0)

  /** The view rectangle, whose four fields are overwritten in place. */
  class Range {
    var x: real
    var y: real
    var width: real
    var height: real

    /** An empty rectangle at the origin, as a fresh view rectangle starts. */
    constructor ()
      ensures x == 0.0 && y == 0.0 && width == 0.0 && height == 0.0
    {
      x, y, width, height := 0.0, 0.0, 0.0, 0.0;
    }

    /** Both extents are positive. */
    predicate HasPositiveExtents()
      reads this
    {
      width > 0.0 && height > 0.0
    }

    /** The current fields as a value. */
    function Value(): Rect
      reads this
    {
      Rect(x, y, width, height)
    }

    /** The corner opposite (x, y). */
    function OppositeCorner(): Complex
      reads this
    {
      Complex(x + width, y + height)
    }
  }

  /**
   Resets `range` to the default view whatever it held: corner (-2, -1.5) and
   extents 3 by 3, i.e. the region from -2 - 1.5i to 1 + 1.5i. Only `range`
   is changed.
   */
  method GetInitialRange(range: Range)
    modifies range
    ensures range.x == -2.0 && range.y == -1.5
    ensures range.width == 3.0 && range.height == 3.0
    ensures range.Value() == INITIAL_RANGE
    ensures range.HasPositiveExtents()
    ensures range.OppositeCorner() == Complex(1.0, 1.5)
  {
    range.x := -2.0;
    range.y := -1.5;
    range.width := 3.0;
    range.height := 3.0;
  }

  /** Resetting twice leaves the state a single reset leaves. */
  method ResetTwice(range: Range) returns (ghost afterOnce: Rect)
    modifies range
    ensures afterOnce == INITIAL_RANGE
    ensures range.Value() == afterOnce
  {
    GetInitialRange(range);
    afterOnce := range.Value();
    GetInitialRange(range);
  }
}
