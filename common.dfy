/** Vocabulary shared by every module: the exceptions the modelled code can
    raise, a failure-compatible Result, and complex numbers as pairs of reals. */
module Common {

  /** A storage path, as the Python code builds it with f-strings. */
  type Path = string

  /** The exceptions the modelled code raises, under their Python names. */
  datatype Error =
    | FileNotFound(path: Path)  // the field reader or np.loadtxt finds nothing at a path
    | IndexError                // an index past the end of an element list, a grid or an array
    | ValueError                // numpy arrays whose shapes do not agree
    | TypeError                 // reduce() over an empty sequence without an initial value

  datatype Result<+T> = Ok(value: T) | Err(error: Error) {
    predicate IsFailure() { Err? }

    function PropagateFailure<U>(): Result<U>
      requires Err?
    {
      Err(error)
    }

    function Extract(): T
      requires Ok?
    {
      value
    }
  }

  datatype Option<+T> = None | Some(value: T)

  /** The outcome of an operation that returns nothing but may raise. */
  datatype Outcome = Pass | Fail(error: Error)

  /** A Python complex number (numpy complex128), with real arithmetic. */
  datatype Complex = Complex(re: real, im: real)

  const ImagUnit: Complex := Complex(0.0, 1.0)

  function OfReal(x: real): Complex { Complex(x, 0.0) }

  function CAdd(a: Complex, b: Complex): Complex { Complex(a.re + b.re, a.im + b.im) }

  function CMul(a: Complex, b: Complex): Complex
  {
    Complex(a.re * b.re - a.im * b.im, a.re * b.im + a.im * b.re)
  }

  function Conj(a: Complex): Complex { Complex(a.re, -a.im) }

  /** A float array promoted to complex (imaginary parts zero). */
  function Lift(xs: seq<real>): (zs: seq<Complex>)
    ensures |zs| == |xs|
  {
    seq(|xs|, i requires 0 <= i < |xs| => OfReal(xs[i]))
  }

  /** np.real of a complex array. */
  function RealParts(zs: seq<Complex>): (xs: seq<real>)
    ensures |xs| == |zs|
  {
    seq(|zs|, i requires 0 <= i < |zs| => zs[i].re)
  }

  /** np.imag of a complex array. */
  function ImagParts(zs: seq<Complex>): (xs: seq<real>)
    ensures |xs| == |zs|
  {
    seq(|zs|, i requires 0 <= i < |zs| => zs[i].im)
  }

  /** RealParts undoes Lift: a float array survives the round trip through complex. */
  lemma RealPartsOfLift(xs: seq<real>)
    ensures RealParts(Lift(xs)) == xs
  {
  }

  /** np.zeros(m). */
  function Zeros(m: nat): (z: seq<real>)
    ensures |z| == m
  {
    seq(m, i => 0.0)
  }

  /** Element-wise sum of two float arrays of one length. */
  function PointwiseSum(a: seq<real>, b: seq<real>): (s: seq<real>)
    requires |a| == |b|
    ensures |s| == |a|
  {
    seq(|a|, i requires 0 <= i < |a| => a[i] + b[i])
  }

  function Min(a: nat, b: nat): nat { if a <= b then a else b }
}
