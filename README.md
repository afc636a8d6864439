# Mandelbrot generator: escape-time loop and default view

This project models the Mandelbrot fractal generator of a small fractal explorer:

- the iteration cap `MAX_ITERATIONS = 2000`;
- `getInitialRange`, which overwrites the four fields of a caller's view
  rectangle with the default view. The corner is (-2, -1.5) and both extents
  are 3, so the view spans -2 - 1.5i to 1 + 1.5i;
- `numIterations`, the escape-time loop. It starts at z = 0 and repeats
  z := z² + c. Each step uses the explicit expansion
  (zr² − zi² + x, 2·zr·zi + y), computing both components from the old z.
  The loop stops when the step count reaches 2000 or when |z|² is no longer
  below 4. It returns -1 when the cap was reached, and the step count
  otherwise.

Everything is in module `Mandelbrot` (`mandelbrot.dfy`):

- The view rectangle is a class, `Range`, whose fields are assigned in place.
- The loop is a method, `NumIterations`. Its loop keeps three invariants:
  the counter stays within `[0, MAX_ITERATIONS]`; the current z equals
  `Orbit(c, iter)`; and every earlier orbit point passed the bound test.
- `NumIterations` is proved equal to the reference function `EscapeTime`.
  `EscapeTime` is the first index below the cap whose orbit point has
  squared modulus at least 4, or -1 if there is none.
- The lemmas characterise `EscapeTime`.

Arithmetic is over `real`.

Three consequences of the code's guard at src/com/company/Mandelbrot.java:42:

- The loop runs only while |z|² < 4, so a squared modulus of exactly 4 counts
  as escaped. The comment at src/com/company/Mandelbrot.java:39 says the loop
  runs "until Z^2 > 4"; the model follows the guard.
- z_0 = 0 always passes the test, so the loop body runs at least once and a
  non-sentinel result lies in [1, 1999]; it is never 0. For example,
  c = (2, 2) yields 1.
- Only z_0 .. z_1999 are tested: z_2000 is computed but never checked, and
  reaching the cap yields -1.

## Model

| member | source | states |
|---|---|---|
| `Mandelbrot.NumIterations` | src/com/company/Mandelbrot.java:30-61 | The result equals the reference escape time of (x, y). It is -1 or lies in [1, MAX_ITERATIONS-1]. It is -1 exactly when z_0 .. z_1999 all have squared modulus < 4. Otherwise it is the first index whose orbit point has squared modulus ≥ 4. The loop invariant `Complex(zreal, zimaginary) == Orbit(c, iter)` shows the two temporaries update z simultaneously to z² + c; the loop terminates with the counter never above MAX_ITERATIONS. |
| `Mandelbrot.EscapeSearch` | src/com/company/Mandelbrot.java:42-60 | The search from index j returns -1 exactly when every orbit point in [j, MAX_ITERATIONS) stays in bound. Otherwise it returns an index in [j, MAX_ITERATIONS) that escapes, and every earlier index from j on stays in bound. |
| `Mandelbrot.EscapeTime` | src/com/company/Mandelbrot.java:32-34 | Because z_0 = 0 passes the guard, the result is the sentinel -1 or lies in [1, MAX_ITERATIONS-1]. It is never 0. |
| `Mandelbrot.StepIsSquarePlusC` | src/com/company/Mandelbrot.java:44-45 | The explicit expansion equals complex z·z + c. |
| `Mandelbrot.EscapeTimeIsFirstEscape` | src/com/company/Mandelbrot.java:42-60 | For k below the cap, the result is k if and only if z_k fails the bound test and every z_j with j < k passes it. |
| `Mandelbrot.EscapeTimeSentinel` | src/com/company/Mandelbrot.java:42-58 | The result is -1 if and only if z_0 .. z_{MAX_ITERATIONS-1} all have squared modulus < 4. |
| `Mandelbrot.OrbitOfOrigin` | src/com/company/Mandelbrot.java:33-47 | Starting from zr = zi = 0 with c = 0, every orbit point is 0. |
| `Mandelbrot.OriginDoesNotEscape` | src/com/company/Mandelbrot.java:42-58 | The point (0, 0) yields the sentinel -1. |
| `Mandelbrot.OutsideDiskEscapesAtOne` | src/com/company/Mandelbrot.java:42-60 | A point yields 1 if and only if its squared modulus is ≥ 4; so a point yielding -1 lies strictly inside the disk of radius 2. |
| `Mandelbrot.ConcreteEscapes` | src/com/company/Mandelbrot.java:42-60 | (2, 2) yields 1. So does (2, 0), whose squared modulus is exactly 4. |
| `Mandelbrot.GetInitialRange` | src/com/company/Mandelbrot.java:19-25 | Whatever the rectangle held, afterwards x = -2, y = -1.5, width = 3 and height = 3. Both extents are positive, the opposite corner is 1 + 1.5i, and only that rectangle is modified. |
| `Mandelbrot.ResetTwice` | src/com/company/Mandelbrot.java:19-25 | Two resets in a row leave exactly the state one reset leaves: the default view. |

## Left out

- Floating point: all arithmetic is over `real`. Nothing here claims to match IEEE-754 rounding, or how precision degrades at deep zoom.
- `getCoord` and `recenterAndZoomRange` belong to the `FractalGenerator` base class. That file is not part of this model.
- The rectangle class `Rectangle2D.Double` comes from the Java library. `Range` models only its four public fields. Its constructor is the no-argument form, a 0×0 rectangle at the origin (src/com/company/FractalExplorer.java:39).
- FractalExplorer.java is the Swing window, the button and mouse listeners, and the render loop `drawFractal`. None of it is modelled. The render loop depends on `getCoord`, on a `float` hue and on `Color.HSBtoRGB` from the library. That includes the question of whether the hue wraps past 1.0.
- Threads and event ordering are not modelled. The generator is single-threaded.
