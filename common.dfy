/**
 * Values shared by every part of the windpowerlib model: power and
 * efficiency curves as sequences of (wind speed, value) points, the
 * outcomes of operations that can raise, Python's three-valued reading of
 * a boolean flag, and the transcendental functions the library calls.
 */
module Common {

  /** One row of a power curve, power coefficient curve or efficiency curve. */
  datatype Point = Point(speed: real, value: real)

  /** A curve is a table of rows; its row order is the table's order. */
  type Curve = seq<Point>

  datatype Option<T> = None | Some(value: T)

  /**
   * The exceptions the library raises, each with the subject it complains
   * about. `NonFinite` stands for an IEEE infinity or NaN that numpy would
   * produce silently (a division by zero); `Diverges` for a loop that never
   * ends on the given input.
   */
  datatype Error =
    | TypeError(subject: string)
    | ValueError(subject: string)
    | KeyError(subject: string)
    | IndexError(subject: string)
    | ZeroDivisionError(subject: string)
    | AttributeError(subject: string)
    | SystemExit(subject: string)
    | NonFinite(subject: string)
    | Diverges(subject: string)

  datatype Result<T> = Success(value: T) | Failure(error: Error)

  /** Outcome of a method that either returns normally or raises. */
  datatype Outcome = Pass | Fail(error: Error)

  /**
   * A parameter the library tests with `is False` and `is True`: anything
   * other than the two singletons falls through to the error branch.
   */
  datatype PyFlag = PyFalse | PyTrue | PyOther

  /** numpy's `np.pi` as a decimal literal. */
  const Pi: real := 3.141592653589793

  /**
   * The transcendental functions the library uses: natural logarithm,
   * real power, exponential and the Gaussian density
   * `gauss(x, standard_deviation, mean)`. They are parameters of the model;
   * the laws a lemma relies on are stated as predicates below.
   */
  datatype Math = Math(
    ln: real -> real,
    pow: (real, real) -> real,
    exp: real -> real,
    gauss: (real, real, real) -> real)

  /** `1 ** a == 1` for every exponent. */
  ghost predicate PowOfOne(m: Math) {
    forall a: real :: m.pow(1.0, a) == 1.0
  }

  /** `exp(ln(x)) == x` for positive `x`. */
  ghost predicate ExpInvertsLn(m: Math) {
    forall x: real :: 0.0 < x ==> m.exp(m.ln(x)) == x
  }

  function Last(c: Curve): Point
    requires |c| > 0
  {
    c[|c| - 1]
  }

  /** The wind speed column of a curve. */
  function Speeds(c: Curve): (s: seq<real>)
    ensures |s| == |c|
    ensures forall k :: 0 <= k < |c| ==> s[k] == c[k].speed
  {
    seq(|c|, k requires 0 <= k < |c| => c[k].speed)
  }

  /** The value column of a curve. */
  function Values(c: Curve): (s: seq<real>)
    ensures |s| == |c|
    ensures forall k :: 0 <= k < |c| ==> s[k] == c[k].value
  {
    seq(|c|, k requires 0 <= k < |c| => c[k].value)
  }

  /** Wind speeds strictly increase from row to row. */
  ghost predicate StrictlyIncreasing(c: Curve) {
    forall i, j :: 0 <= i < j < |c| ==> c[i].speed < c[j].speed
  }

  ghost predicate Increasing(s: seq<real>) {
    forall i, j :: 0 <= i < j < |s| ==> s[i] < s[j]
  }

  /** A power curve as the data model describes it: no negative or repeated speeds, in order. */
  ghost predicate WellFormedCurve(c: Curve) {
    StrictlyIncreasing(c) && forall k :: 0 <= k < |c| ==> 0.0 <= c[k].speed
  }

  /** Every value of the curve lies in [lo, hi]. */
  ghost predicate ValuesWithin(c: Curve, lo: real, hi: real) {
    forall k :: 0 <= k < |c| ==> lo <= c[k].value <= hi
  }

  /** `n` times every value, speeds untouched (`curve * n` on a speed-indexed table). */
  function Scale(c: Curve, n: real): (r: Curve)
    ensures |r| == |c|
    ensures forall k :: 0 <= k < |c| ==> r[k] == Point(c[k].speed, c[k].value * n)
  {
    seq(|c|, k requires 0 <= k < |c| => Point(c[k].speed, c[k].value * n))
  }

  lemma StrictlyIncreasingSpeeds(c: Curve)
    requires StrictlyIncreasing(c)
    ensures Increasing(Speeds(c))
  {
  }

  /** Smallest integer not below `x`. */
  function Ceil(x: real): (n: int)
    ensures x <= n as real < x + 1.0
  {
    -((-x).Floor)
  }

  /**
   * Applies `f` to every element front to back, stopping at the first
   * failure: a loop over table rows whose body may raise.
   */
  function MapAll<A, B>(f: A -> Result<B>, xs: seq<A>): (r: Result<seq<B>>)
    ensures r.Success? ==> |r.value| == |xs|
    decreases |xs|
  {
    if |xs| == 0 then Success([])
    else
      var front := MapAll(f, xs[..|xs| - 1]);
      if front.Failure? then front
      else
        var y := f(xs[|xs| - 1]);
        if y.Failure? then Failure(y.error) else Success(front.value + [y.value])
  }

  /** A successful map holds `f`'s result for every element. */
  lemma {:induction false} MapAllRows<A, B>(f: A -> Result<B>, xs: seq<A>)
    requires MapAll(f, xs).Success?
    ensures forall i :: 0 <= i < |xs| ==> f(xs[i]).Success? && MapAll(f, xs).value[i] == f(xs[i]).value
    decreases |xs|
  {
    if |xs| > 0 {
      var front := xs[..|xs| - 1];
      MapAllRows(f, front);
      assert forall i :: 0 <= i < |xs| - 1 ==> front[i] == xs[i];
    }
  }

  /** One more step of the loop. */
  lemma MapAllSnoc<A, B>(f: A -> Result<B>, xs: seq<A>, i: nat)
    requires i < |xs| && MapAll(f, xs[..i]).Success?
    ensures f(xs[i]).Failure? ==> MapAll(f, xs[..i + 1]) == Failure(f(xs[i]).error)
    ensures f(xs[i]).Success? ==> MapAll(f, xs[..i + 1]) == Success(MapAll(f, xs[..i]).value + [f(xs[i]).value])
  {
    assert xs[..i + 1][..i] == xs[..i];
    assert xs[..i + 1][i] == xs[i];
  }

  /** The first failing element decides the failure of the whole map. */
  lemma MapAllFails<A, B>(f: A -> Result<B>, xs: seq<A>, i: nat)
    requires i < |xs| && MapAll(f, xs[..i]).Success? && f(xs[i]).Failure?
    ensures MapAll(f, xs) == Failure(f(xs[i]).error)
  {
    MapAllPrefixFails(f, xs, i, |xs|);
    assert xs[..|xs|] == xs;
  }

  lemma {:induction false} MapAllPrefixFails<A, B>(f: A -> Result<B>, xs: seq<A>, i: nat, n: nat)
    requires i < n <= |xs| && MapAll(f, xs[..i]).Success? && f(xs[i]).Failure?
    ensures MapAll(f, xs[..n]) == Failure(f(xs[i]).error)
    decreases n
  {
    if n == i + 1 {
      MapAllSnoc(f, xs, i);
    } else {
      MapAllPrefixFails(f, xs, i, n - 1);
      assert xs[..n][..n - 1] == xs[..n - 1];
    }
  }

  /** The map succeeds when `f` succeeds on every element. */
  lemma {:induction false} MapAllSucceeds<A, B>(f: A -> Result<B>, xs: seq<A>)
    requires forall i :: 0 <= i < |xs| ==> f(xs[i]).Success?
    ensures MapAll(f, xs).Success?
    decreases |xs|
  {
    if |xs| > 0 {
      var front := xs[..|xs| - 1];
      assert forall i :: 0 <= i < |front| ==> front[i] == xs[i];
      MapAllSucceeds(f, front);
    }
  }

  /** A failed map carries the error of an element on which `f` fails. */
  lemma {:induction false} MapAllFailure<A, B>(f: A -> Result<B>, xs: seq<A>) returns (i: nat)
    requires MapAll(f, xs).Failure?
    ensures i < |xs| && f(xs[i]).Failure? && MapAll(f, xs).error == f(xs[i]).error
    decreases |xs|
  {
    var front := xs[..|xs| - 1];
    if MapAll(f, front).Failure? {
      i := MapAllFailure(f, front);
      assert front[i] == xs[i];
    } else {
      i := |xs| - 1;
    }
  }

  /** A map that succeeds element by element succeeds with those results. */
  lemma {:induction false} MapAllPointwise<A, B>(f: A -> Result<B>, xs: seq<A>, ys: seq<B>)
    requires |ys| == |xs|
    requires forall j :: 0 <= j < |xs| ==> f(xs[j]) == Success(ys[j])
    ensures MapAll(f, xs) == Success(ys)
    decreases |xs|
  {
    if |xs| > 0 {
      var n := |xs| - 1;
      assert forall j :: 0 <= j < n ==> xs[..n][j] == xs[j] && ys[..n][j] == ys[j];
      MapAllPointwise(f, xs[..n], ys[..n]);
      assert ys[..n] + [ys[n]] == ys;
    }
  }

  /** One more element on which `f` succeeds. */
  lemma PointwiseSnoc<A, B>(f: A -> Result<B>, xs: seq<A>, ys: seq<B>, y: B)
    requires |ys| < |xs|
    requires forall j :: 0 <= j < |ys| ==> f(xs[j]) == Success(ys[j])
    requires f(xs[|ys|]) == Success(y)
    ensures forall j :: 0 <= j < |ys| + 1 ==> f(xs[j]) == Success((ys + [y])[j])
  {
  }

  /** The first element on which `f` fails decides the failure of the map. */
  lemma MapAllFirstFailure<A, B>(f: A -> Result<B>, xs: seq<A>, ys: seq<B>, i: nat)
    requires i < |xs| && |ys| == i
    requires forall j :: 0 <= j < i ==> f(xs[j]) == Success(ys[j])
    requires f(xs[i]).Failure?
    ensures MapAll(f, xs) == Failure(f(xs[i]).error)
  {
    assert forall j :: 0 <= j < i ==> xs[..i][j] == xs[j];
    MapAllPointwise(f, xs[..i], ys);
    MapAllFails(f, xs, i);
  }

  /** The map of one element. */
  lemma MapAllOne<A, B>(f: A -> Result<B>, x: A)
    ensures MapAll(f, [x]) == if f(x).Success? then Success([f(x).value]) else Failure(f(x).error)
  {
    var xs := [x];
    assert xs[..0] == [];
    if f(x).Success? {
      assert [] + [f(x).value] == [f(x).value];
    }
  }

  /** The map of two elements. */
  lemma MapAllPair<A, B>(f: A -> Result<B>, x: A, y: A)
    requires f(x).Success? && f(y).Success?
    ensures MapAll(f, [x, y]) == Success([f(x).value, f(y).value])
  {
    var xs := [x, y];
    assert xs[..1] == [x];
    MapAllOne(f, x);
    assert [f(x).value] + [f(y).value] == [f(x).value, f(y).value];
  }

  // ----- real arithmetic used by the interpolation bounds

  lemma MulNonNegative(x: real, y: real)
    requires 0.0 <= x && 0.0 <= y
    ensures 0.0 <= x * y
  {
  }

  /** A fraction `t` of `d` lies between 0 and `d`. */
  lemma ScaledBetween(d: real, t: real)
    requires 0.0 <= t <= 1.0
    ensures 0.0 <= d ==> 0.0 <= d * t <= d
    ensures d <= 0.0 ==> d <= d * t <= 0.0
  {
    assert d - d * t == d * (1.0 - t);
    if 0.0 <= d {
      MulNonNegative(d, t);
      MulNonNegative(d, 1.0 - t);
    } else {
      MulNonNegative(-d, t);
      MulNonNegative(-d, 1.0 - t);
      assert (-d) * t == -(d * t);
      assert (-d) * (1.0 - t) == -(d * (1.0 - t));
    }
  }

  /** A quotient of a nonnegative part by a larger whole lies in [0, 1]. */
  lemma FractionBetween(p: real, q: real)
    requires 0.0 <= p <= q && 0.0 < q
    ensures 0.0 <= p / q <= 1.0
  {
    assert (p / q) * q == p;
  }

  /** The same for a nonpositive part of a smaller (negative) whole. */
  lemma NegativeFractionBetween(p: real, q: real)
    requires q <= p <= 0.0 && q < 0.0
    ensures 0.0 <= p / q <= 1.0
  {
    var r := p / q;
    assert r * q == p;
  }
}
