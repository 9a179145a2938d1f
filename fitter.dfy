/** The straight-line fit of ln(gain) against ln(voltage) and its re-seeded
    repetition. The minimiser itself is an uninterpreted Solver. */
module Fitter {
  import opened Preprocessor

  /** The two parameters of the "pol1" fit function: ln(gain) = constant + exponent * ln(V). */
  datatype Params = Params(constant: real, exponent: real)

  /** What one `Fit("fit", "ME")` leaves in the fit function: parameters,
      their errors, chi-square, degrees of freedom and fit probability. */
  datatype FitReport = FitReport(
    params: Params,
    constantError: real,
    exponentError: real,
    chiSquare: real,
    ndf: int,
    prob: real
  )

  /** One minimisation of the graph, started from the fit function's whole
      state: its parameters, and also the parameter errors Minuit takes as
      initial step sizes. */
  type Solver = (FitReport, Sample) -> FitReport

  /** The starting parameters of the first fit. */
  const Seed: Params := Params(-30.0, 7.0)

  /** The fit function's state when the first fit starts: a new TF1's zero
      errors and statistics, with its parameters set to Seed. */
  const Seeded: FitReport := FitReport(Seed, 0.0, 0.0, 0.0, 0, 0.0)

  /** Fits after the first, each seeded from the previous one's result. */
  const Refits: nat := 9

  /** Fits in all. */
  const Passes: nat := 1 + Refits

  /** f applied n times to x. */
  function Iterate<T>(f: T -> T, x: T, n: nat): T
    decreases n
  {
    if n == 0 then x else f(Iterate(f, x, n - 1))
  }

  /** The state update of one fit: start from s, keep what the fit leaves. */
  function FitStep(solver: Solver, data: Sample): FitReport -> FitReport {
    s => solver(s, data)
  }

  /** The fit function's state after the n-th fit: the first starts from
      Seeded, each later one from the state the one before it left, whose
      parameters `GetParameters`/`SetParameters` copy back unchanged. */
  function PassReport(solver: Solver, data: Sample, n: nat): FitReport
    requires 1 <= n
    decreases n
  {
    if n == 1 then solver(Seeded, data)
    else solver(PassReport(solver, data, n - 1), data)
  }

  /** The state after n fits is the n-fold iterate of one fit from the
      seeded state. */
  lemma {:induction false} PassReportIterate(solver: Solver, data: Sample, n: nat)
    requires 1 <= n
    ensures PassReport(solver, data, n) == Iterate(FitStep(solver, data), Seeded, n)
    decreases n
  {
    if n > 1 {
      PassReportIterate(solver, data, n - 1);
    }
  }

  /** Once a fit leaves the state it started from, every later fit leaves
      that same state: re-seeding then changes nothing. */
  lemma {:induction false} ConvergedFitIsStable(solver: Solver, data: Sample, m: nat, n: nat)
    requires 1 <= m < n
    requires PassReport(solver, data, m + 1) == PassReport(solver, data, m)
    ensures PassReport(solver, data, n) == PassReport(solver, data, m)
    decreases n - m
  {
    if n > m + 1 {
      ConvergedFitIsStable(solver, data, m, n - 1);
    }
  }

  /** The `TF1 *fit` object: its two parameters and the statistics of the
      last fit performed with it. */
  class PolFit {
    var constant: real
    var exponent: real
    var constantError: real
    var exponentError: real
    var chiSquare: real
    var ndf: int
    var prob: real

    function Report(): FitReport
      reads this
    {
      FitReport(Params(constant, exponent), constantError, exponentError, chiSquare, ndf, prob)
    }

    /** `new TF1("fit", "pol1", ...)`: parameters and statistics start at zero. */
    constructor ()
      ensures Report() == FitReport(Params(0.0, 0.0), 0.0, 0.0, 0.0, 0, 0.0)
    {
      constant, exponent := 0.0, 0.0;
      constantError, exponentError, chiSquare, ndf, prob := 0.0, 0.0, 0.0, 0, 0.0;
    }

    /** `fit->SetParameters(c0, c1)`. */
    method SetParameters(c0: real, c1: real)
      modifies this
      ensures constant == c0 && exponent == c1
      ensures constantError == old(constantError) && exponentError == old(exponentError)
      ensures chiSquare == old(chiSquare) && ndf == old(ndf) && prob == old(prob)
    {
      constant, exponent := c0, c1;
    }

    /** `fit->GetParameters(par)`: copies the parameters into a two-slot array. */
    method GetParameters(par: array<real>)
      requires par.Length == 2
      modifies par
      ensures par[0] == constant && par[1] == exponent
    {
      par[0] := constant;
      par[1] := exponent;
    }

    /** `data->Fit("fit", "ME")`: one minimisation from the current state. */
    method FitTo(data: Sample, solver: Solver)
      modifies this
      ensures Report() == solver(old(Report()), data)
    {
      var r := solver(Report(), data);
      constant, exponent := r.params.constant, r.params.exponent;
      constantError, exponentError, chiSquare, ndf, prob := r.constantError, r.exponentError, r.chiSquare, r.ndf, r.prob;
    }
  }

  /** Seed, fit once, then re-seed from the result and refit nine times; the
      values read back afterwards are those of the tenth fit. */
  method RunFits(data: Sample, solver: Solver) returns (report: FitReport)
    ensures report == PassReport(solver, data, Passes)
    ensures report == Iterate(FitStep(solver, data), Seeded, Passes)
  {
    var fit := new PolFit();
    var par := new real[2];
    fit.SetParameters(Seed.constant, Seed.exponent);
    fit.FitTo(data, solver);
    for j := 0 to Refits
      invariant fit.Report() == PassReport(solver, data, j + 1)
    {
      fit.GetParameters(par);
      fit.SetParameters(par[0], par[1]);
      fit.FitTo(data, solver);
    }
    fit.GetParameters(par);
    report := FitReport(Params(par[0], par[1]), fit.constantError, fit.exponentError,
                        fit.chiSquare, fit.ndf, fit.prob);
    PassReportIterate(solver, data, Passes);
  }
}
