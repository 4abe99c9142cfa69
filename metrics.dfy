/**
 * The finishing pass of an analysis (`calculateMetrics`): the cyclomatic
 * density of every report, the mean logical lines, cyclomatic complexity,
 * Halstead effort and parameter count over the function reports, and the
 * maintainability index of those means.
 *
 * JavaScript numbers are modelled by `Num`: an exact real, the two
 * infinities and NaN, with the IEEE rules for the operations the pass uses
 * (subtraction, scaling by a positive constant, division, `Math.log`, `>`
 * and `Math.max`). The natural logarithm is a parameter `ln`, consulted
 * only for positive arguments; the Halstead effort of a report is a
 * parameter too, since the Halstead calculation is not part of this model.
 */
module Metrics {
  import opened Wrappers
  import opened Descriptors
  import opened Reports
  import opened Engine

  datatype Num = Finite(v: real) | PosInf | NegInf | NaN

  /** A number that is finite and not negative. */
  predicate NonNegativeNum(x: Num)
  {
    x.Finite? && x.v >= 0.0
  }

  function Negated(x: Num): Num
  {
    match x
    case Finite(v) => Finite(-v)
    case PosInf => NegInf
    case NegInf => PosInf
    case NaN => NaN
  }

  /** IEEE addition: NaN absorbs, opposite infinities give NaN, an infinity absorbs a finite number. */
  function Plus(a: Num, b: Num): Num
  {
    match (a, b)
    case (NaN, _) => NaN
    case (_, NaN) => NaN
    case (PosInf, NegInf) => NaN
    case (NegInf, PosInf) => NaN
    case (PosInf, _) => PosInf
    case (NegInf, _) => NegInf
    case (_, PosInf) => PosInf
    case (_, NegInf) => NegInf
    case (Finite(x), Finite(y)) => Finite(x + y)
  }

  function Minus(a: Num, b: Num): Num
  {
    Plus(a, Negated(b))
  }

  /** Multiplication by a positive constant. */
  function Times(k: real, x: Num): Num
    requires k > 0.0
  {
    match x
    case Finite(v) => Finite(k * v)
    case _ => x
  }

  /** `a / b` on two integers: division by zero gives an infinity of the dividend's sign, or NaN for `0 / 0`. */
  function Quotient(a: int, b: int): Num
  {
    if b != 0 then Finite(a as real / b as real)
    else if a > 0 then PosInf
    else if a < 0 then NegInf
    else NaN
  }

  /** `Math.log`: the logarithm of a positive number, minus infinity at zero, NaN below zero. */
  function Log(x: Num, ln: real -> real): Num
  {
    match x
    case Finite(v) => if v > 0.0 then Finite(ln(v)) else if v == 0.0 then NegInf else NaN
    case PosInf => PosInf
    case _ => NaN
  }

  /** `x > bound`, which is false for NaN. */
  predicate Exceeds(x: Num, bound: real)
  {
    match x
    case Finite(v) => v > bound
    case PosInf => true
    case _ => false
  }

  /** `Math.max(0, x)`, which is NaN for NaN. */
  function AtLeastZero(x: Num): Num
  {
    match x
    case Finite(v) => Finite(if v > 0.0 then v else 0.0)
    case NegInf => Finite(0.0)
    case _ => x
  }

  /**
   * `calculateCyclomaticDensity`: cyclomatic complexity per logical line,
   * as a percentage.
   */
  function CyclomaticDensity(f: FunctionReport): (r: Num)
    ensures f.sloc.logical != 0 ==> r.Finite? && r.v * f.sloc.logical as real == 100.0 * f.cyclomatic as real
    ensures f.sloc.logical == 0 ==> (r.PosInf? <==> f.cyclomatic > 0) && (r.NaN? <==> f.cyclomatic == 0)
  {
    Times(100.0, Quotient(f.cyclomatic, f.sloc.logical))
  }

  /** A report after the finishing pass: its density and its Halstead effort. */
  datatype Metered = Metered(report: FunctionReport, cyclomaticDensity: Num, effort: Num)

  function Calculated(f: FunctionReport, effort: Halstead -> Num): Metered
  {
    Metered(f, CyclomaticDensity(f), effort(f.halstead))
  }

  function CalculatedAll(fs: seq<FunctionReport>, effort: Halstead -> Num): (r: seq<Metered>)
    ensures |r| == |fs|
    ensures forall k :: 0 <= k < |fs| ==> r[k] == Calculated(fs[k], effort)
  {
    if |fs| == 0 then [] else CalculatedAll(fs[..|fs| - 1], effort) + [Calculated(fs[|fs| - 1], effort)]
  }

  /** The four running sums of the maintainability metrics. */
  datatype Sums = Sums(loc: int, cyclomatic: int, effort: Num, params: int)

  const NoSums := Sums(0, 0, Finite(0.0), 0)

  /** `sumMaintainabilityMetrics`: adds one report to the sums. */
  function Accumulated(s: Sums, f: FunctionReport, effort: Halstead -> Num): Sums
  {
    Sums(s.loc + f.sloc.logical, s.cyclomatic + f.cyclomatic, Plus(s.effort, effort(f.halstead)), s.params + f.params)
  }

  function Summed(fs: seq<FunctionReport>, effort: Halstead -> Num): Sums
  {
    if |fs| == 0 then NoSums else Accumulated(Summed(fs[..|fs| - 1], effort), fs[|fs| - 1], effort)
  }

  /**
   * The integer sums are the totals the engine keeps: logical lines,
   * parameters, and the extra paths plus one path per report.
   */
  lemma {:induction false} SummedTotals(fs: seq<FunctionReport>, effort: Halstead -> Num)
    ensures Summed(fs, effort).loc == Sum(fs, LogicalLines)
    ensures Summed(fs, effort).cyclomatic == Sum(fs, ExtraPaths) + |fs|
    ensures Summed(fs, effort).params == Sum(fs, Params)
  {
    if |fs| > 0 {
      SummedTotals(fs[..|fs| - 1], effort);
    }
  }

  /** Whether every report of a unit has a finite, non-negative effort. */
  predicate EffortsBounded(r: Report, effort: Halstead -> Num)
  {
    NonNegativeNum(effort(r.aggregate.halstead))
    && forall j :: 0 <= j < |r.functions| ==> NonNegativeNum(effort(r.functions[j].halstead))
  }

  /**
   * Reports at their floors with finite, non-negative efforts sum to at
   * least one path each, no negative lines, and a finite, non-negative effort.
   */
  lemma {:induction false} SummedBounded(fs: seq<FunctionReport>, effort: Halstead -> Num)
    requires forall j :: 0 <= j < |fs| ==> Floor(fs[j]) && NonNegativeNum(effort(fs[j].halstead))
    ensures Summed(fs, effort).cyclomatic >= |fs| && Summed(fs, effort).loc >= 0
    ensures NonNegativeNum(Summed(fs, effort).effort)
  {
    if |fs| > 0 {
      var init := fs[..|fs| - 1];
      assert forall j :: 0 <= j < |init| ==> init[j] == fs[j];
      SummedBounded(init, effort);
      assert Floor(fs[|fs| - 1]) && NonNegativeNum(effort(fs[|fs| - 1].halstead));
    }
  }

  /**
   * `calculateMaintainabilityIndex`: 171 less weighted logarithms of the
   * mean effort, cyclomatic complexity and logical lines, capped at 171,
   * and with `newmi` rescaled to 0..100. A zero mean cyclomatic complexity
   * is an error.
   */
  function MaintainabilityIndex(effort: Num, cyclomatic: real, loc: real, newmi: bool, ln: real -> real): (r: Result<Num, Error>)
    ensures r.Failure? <==> cyclomatic == 0.0
    ensures r.Failure? ==> r.error == ZeroCyclomatic
    ensures r.Success? ==> !r.value.PosInf?
    ensures r.Success? && r.value.Finite? ==> r.value.v <= if newmi then 100.0 else 171.0
    ensures r.Success? && newmi ==> r.value.NaN? || (r.value.Finite? && r.value.v >= 0.0)
    ensures NonNegativeNum(effort) && cyclomatic > 0.0 && loc >= 0.0 ==> r.Success? && r.value.Finite?
    ensures cyclomatic != 0.0 && (cyclomatic < 0.0 || loc < 0.0 || !(effort.Finite? || effort.PosInf?) || (effort.Finite? && effort.v < 0.0))
      ==> r == Success(NaN)
    ensures effort.Finite? && effort.v > 0.0 && cyclomatic > 0.0 && loc > 0.0
      ==> r == Success(Finite(Index(Classic(effort.v, cyclomatic, loc, ln), newmi)))
  {
    if cyclomatic == 0.0 then Failure(ZeroCyclomatic)
    else
      var raw := Minus(Minus(Minus(Finite(171.0), Times(3.42, Log(effort, ln))),
                             Times(0.23, Log(Finite(cyclomatic), ln))),
                       Times(16.2, Log(Finite(loc), ln)));
      var capped := if Exceeds(raw, 171.0) then Finite(171.0) else raw;
      Success(if newmi then AtLeastZero(Times(1.0 / 171.0, Times(100.0, capped))) else capped)
  }

  /** The classic maintainability formula on positive reals. */
  function Classic(effort: real, cyclomatic: real, loc: real, ln: real -> real): real
    requires effort > 0.0 && cyclomatic > 0.0 && loc > 0.0
  {
    171.0 - 3.42 * ln(effort) - 0.23 * ln(cyclomatic) - 16.2 * ln(loc)
  }

  /** The index reported for a classic value: capped at 171, and with `newmi` rescaled to 0..100. */
  function Index(classic: real, newmi: bool): real
  {
    var capped := if classic > 171.0 then 171.0 else classic;
    if newmi then (if capped * 100.0 / 171.0 > 0.0 then capped * 100.0 / 171.0 else 0.0) else capped
  }

  /** A unit after the finishing pass: its reports, their dependencies, the index and the four means. */
  datatype Summary = Summary(
    aggregate: Metered,
    functions: seq<Metered>,
    dependencies: seq<Dependency>,
    maintainability: Num,
    loc: real,
    cyclomatic: real,
    effort: Num,
    params: real)

  /** The number of samples the means are taken over: the aggregate stands in for a unit without functions. */
  function SampleCount(r: Report): nat
  {
    if |r.functions| == 0 then 1 else |r.functions|
  }

  function Samples(r: Report, effort: Halstead -> Num): Sums
  {
    if |r.functions| == 0 then Accumulated(NoSums, r.aggregate, effort) else Summed(r.functions, effort)
  }

  /** The four means: sums over the samples divided by their number. */
  datatype Means = Means(loc: real, cyclomatic: real, effort: Num, params: real)

  function Averaged(r: Report, effort: Halstead -> Num): Means
  {
    var count, sums := SampleCount(r) as real, Samples(r, effort);
    Means(sums.loc as real / count, sums.cyclomatic as real / count,
          if sums.effort.Finite? then Finite(sums.effort.v / count) else sums.effort,
          sums.params as real / count)
  }

  /** `calculateMetrics`: what an analysis returns for a unit, or the error it throws. */
  function Completed(r: Report, newmi: bool, effort: Halstead -> Num, ln: real -> real): Result<Summary, Error>
  {
    var m := Averaged(r, effort);
    match MaintainabilityIndex(m.effort, m.cyclomatic, m.loc, newmi, ln)
    case Failure(e) => Failure(e)
    case Success(mi) =>
      Success(Summary(Calculated(r.aggregate, effort), CalculatedAll(r.functions, effort), r.dependencies,
                      mi, m.loc, m.cyclomatic, m.effort, m.params))
  }

  lemma AtLeastOne(a: real, b: real)
    requires b > 0.0 && a >= b
    ensures a / b >= 1.0
  {
    assert a / b * b == a;
  }

  lemma NotNegative(a: real, b: real)
    requires b > 0.0 && a >= 0.0
    ensures a / b >= 0.0
  {
    assert a / b * b == a;
  }

  /**
   * A unit whose reports are at their floors and whose efforts are finite
   * and non-negative never throws: the mean cyclomatic complexity is at least 1, and the
   * index is a finite number no greater than 171, or within 0..100 with
   * `newmi`.
   */
  lemma CompletedBounded(r: Report, newmi: bool, effort: Halstead -> Num, ln: real -> real)
    requires Floors(r) && EffortsBounded(r, effort)
    ensures Completed(r, newmi, effort, ln).Success?
    ensures var s := Completed(r, newmi, effort, ln).value;
      s.cyclomatic >= 1.0 && s.loc >= 0.0 && NonNegativeNum(s.effort)
      && s.maintainability.Finite?
      && s.maintainability.v <= 171.0
      && (newmi ==> 0.0 <= s.maintainability.v <= 100.0)
  {
    var count, sums := SampleCount(r) as real, Samples(r, effort);
    if |r.functions| == 0 {
      assert Floor(r.aggregate);
    } else {
      SummedBounded(r.functions, effort);
    }
    AtLeastOne(sums.cyclomatic as real, count);
    NotNegative(sums.loc as real, count);
    NotNegative(sums.effort.v, count);
  }

  /** A unit without functions is its own sample: the means are the aggregate's own values. */
  lemma WithoutFunctions(r: Report, effort: Halstead -> Num)
    requires |r.functions| == 0
    ensures var m := Averaged(r, effort);
      m.loc == r.aggregate.sloc.logical as real
      && m.cyclomatic == r.aggregate.cyclomatic as real
      && m.params == r.aggregate.params as real
      && m.effort == effort(r.aggregate.halstead)
  {
  }

  /**
   * With functions, the means are over the function reports alone, whatever
   * the aggregate holds; an infinite or NaN effort sum stays as it is.
   */
  lemma WithFunctions(r: Report, effort: Halstead -> Num)
    requires |r.functions| > 0
    ensures var m, n := Averaged(r, effort), |r.functions| as real;
      m.loc * n == Sum(r.functions, LogicalLines) as real
      && m.cyclomatic * n == (Sum(r.functions, ExtraPaths) + |r.functions|) as real
      && m.params * n == Sum(r.functions, Params) as real
      && (Summed(r.functions, effort).effort.Finite? ==> m.effort.Finite? && m.effort.v * n == Summed(r.functions, effort).effort.v)
      && (!Summed(r.functions, effort).effort.Finite? ==> m.effort == Summed(r.functions, effort).effort)
  {
    SummedTotals(r.functions, effort);
    var n, sums := |r.functions| as real, Summed(r.functions, effort);
    Scaled(sums.loc as real, n);
    Scaled(sums.cyclomatic as real, n);
    Scaled(sums.params as real, n);
    if sums.effort.Finite? {
      Scaled(sums.effort.v, n);
    }
  }

  lemma Scaled(a: real, n: real)
    requires n > 0.0
    ensures a / n * n == a
  {
  }

  /**
   * `calculateMetrics` as a loop over the function reports, as the source
   * runs it: each report's density and effort, and the running sums.
   */
  method CalculateMetrics(r: Report, newmi: bool, effort: Halstead -> Num, ln: real -> real) returns (result: Result<Summary, Error>)
    ensures result == Completed(r, newmi, effort, ln)
  {
    var metered: seq<Metered> := [];
    var sums := NoSums;
    var i := 0;
    while i < |r.functions|
      invariant 0 <= i <= |r.functions|
      invariant metered == CalculatedAll(r.functions[..i], effort)
      invariant sums == Summed(r.functions[..i], effort)
    {
      var f := r.functions[i];
      metered := metered + [Calculated(f, effort)];
      sums := Accumulated(sums, f, effort);
      assert r.functions[..i + 1][..i] == r.functions[..i];
      i := i + 1;
    }
    assert r.functions[..i] == r.functions;
    var count := |r.functions|;
    if count == 0 {
      sums := Accumulated(sums, r.aggregate, effort);
      count := 1;
    }
    var n := count as real;
    var loc, cyclomatic, params := sums.loc as real / n, sums.cyclomatic as real / n, sums.params as real / n;
    var meanEffort := if sums.effort.Finite? then Finite(sums.effort.v / n) else sums.effort;
    assert Averaged(r, effort) == Means(loc, cyclomatic, meanEffort, params);
    var mi := MaintainabilityIndex(meanEffort, cyclomatic, loc, newmi, ln);
    if mi.Failure? {
      result := Failure(mi.error);
    } else {
      result := Success(Summary(Calculated(r.aggregate, effort), metered, r.dependencies,
                                mi.value, loc, cyclomatic, meanEffort, params));
    }
  }
}
