/** The local step of the consensus algorithm: a strictly convex quadratic program with one linear
    and two box constraints, solved in closed form by trying six candidates.
    The file gives the six candidates exactly as the firmware computes them, the selection among
    them, and the proof that the selection is globally optimal. */
module Solver {
  import opened Vectors

  const TOL: real := 0.01
  const LARGE_COST: real := 100000.0

  // The formulas of single entries.

  function ZEntry(rho: real, av: real, lambda: real): real { rho * av - lambda }

  function FreeEntry(rho: real, z: real): real
    requires rho != 0.0
  {
    1.0 / rho * z
  }

  function LinearEntry(rho: real, z: real, k: real, kiNorm: real, gap: real, zk: real): real
    requires rho != 0.0 && kiNorm != 0.0
  {
    1.0 / rho * z - k / kiNorm * (gap + 1.0 / rho * zk)
  }

  function CornerEntry(rho: real, z: real, k: real, g: real, gap: real, bound: real, own: real, zOwn: real, zk: real): real
    requires rho != 0.0 && g != 0.0
  {
    NonZeroProduct(rho, g);
    1.0 / rho * z - k / g * (gap + bound * own) + k / (rho * g) * (own * zOwn - zk)
  }

  /** The squared norm of all gains but one. */
  function NormWithout(k: Vec, idx: nat): real
    requires idx < |k|
  {
    Dot(k, k) - k[idx] * k[idx]
  }

  function CostOf(cost: real, own: real, dual: real, rho: real, norm: real): real {
    cost * own + dual + rho / 2.0 * norm
  }

  lemma NonZeroProduct(x: real, y: real)
    requires x != 0.0 && y != 0.0
    ensures x * y != 0.0
  {
    if x * y == 0.0 {
      ZeroProduct(x, y);
    }
  }

  /** What one call to consensus_iterate reads. */
  datatype Problem = Problem(idx: nat, rho: real, cost: real, av: Vec, lambda: Vec, k: Vec,
                             liRef: real, residual: real)
  {
    ghost predicate Valid() {
      |av| == |lambda| == |k| && idx < |k| && rho > 0.0
    }

    function KiNorm(): real { Dot(k, k) }

    function KinormKiiDiff(): real
      requires idx < |k|
    {
      NormWithout(k, idx)
    }

    /** The right-hand side of the illuminance constraint. */
    function Need(): real { liRef - residual }

    function Z(): (z: Vec)
      requires Valid()
      ensures |z| == |k|
    {
      var z := seq(|k|, i requires 0 <= i < |k| => ZEntry(rho, av[i], lambda[i]));
      z[idx := z[idx] - cost]
    }

    /** evaluate_cost: the augmented Lagrangian at `d`. */
    function Cost(d: Vec): real
      requires Valid() && |d| == |k|
    {
      CostOf(cost, d[idx], Dot(lambda, Minus(d, av)), rho, Total(Squares(Minus(d, av))))
    }

    /** check_feasibility: the constraints with a tolerance of 0.01 each. */
    predicate Tolerated(d: Vec)
      requires Valid() && |d| == |k|
    {
      && !(d[idx] < 0.0 - TOL)
      && !(d[idx] > 100.0 + TOL)
      && !(Dot(d, k) < liRef - residual - TOL)
    }

    /** The constraints the solver is meant to meet, without the tolerance. */
    predicate Feasible(d: Vec)
      requires Valid() && |d| == |k|
    {
      0.0 <= d[idx] <= 100.0 && Dot(d, k) >= Need()
    }

    // The six candidates.

    function Unconstrained(): (d: Vec)
      requires Valid()
      ensures |d| == |k|
    {
      var z := Z();
      seq(|k|, i requires 0 <= i < |k| => FreeEntry(rho, z[i]))
    }

    function OnLinear(): (d: Vec)
      requires Valid() && KiNorm() != 0.0
      ensures |d| == |k|
    {
      var z := Z();
      seq(|k|, i requires 0 <= i < |k| => LinearEntry(rho, z[i], k[i], KiNorm(), residual - liRef, Dot(z, k)))
    }

    /** The dimming entry pinned at `bound`, the rest free. */
    function AtBound(bound: real): (d: Vec)
      requires Valid()
      ensures |d| == |k|
    {
      Unconstrained()[idx := bound]
    }

    /** Pinned at `bound` and on the linear boundary. */
    function Corner(bound: real): (d: Vec)
      requires Valid() && KinormKiiDiff() != 0.0
      ensures |d| == |k|
    {
      CornerEntries(bound)[idx := bound]
    }

    function CornerEntries(bound: real): (d: Vec)
      requires Valid() && KinormKiiDiff() != 0.0
      ensures |d| == |k|
    {
      var z := Z();
      seq(|k|, i requires 0 <= i < |k| =>
        CornerEntry(rho, z[i], k[i], KinormKiiDiff(), residual - liRef, bound, k[idx], z[idx], Dot(z, k)))
    }
  }

  /** What consensus_iterate holds between two candidates: dutyCycleBest and costBest. */
  datatype Choice = Choice(best: Vec, cost: real)

  /** One candidate tried: kept if it passes the check and is strictly cheaper. */
  function Try(p: Problem, c: Choice, d: Vec): (c': Choice)
    requires p.Valid() && |d| == |p.k|
  {
    if p.Tolerated(d) && p.Cost(d) < c.cost then Choice(d, p.Cost(d)) else c
  }

  function Start(p: Problem): Choice { Choice(Const(|p.k|, -1.0), LARGE_COST) }

  /** The firmware's order of trial. A candidate whose formula divides by zero has NaN entries in
      C++; its cost is NaN and never wins the strict comparison, so it is passed over. (With a
      single node the two corners are overwritten to the plain bounds, which were already tried.) */
  function Solve(p: Problem): Choice
    requires p.Valid()
  {
    if p.KinormKiiDiff() != 0.0 then
      Try(p, Try(p, FirstFour(p), p.Corner(0.0)), p.Corner(100.0))
    else
      FirstFour(p)
  }

  function FirstTwo(p: Problem): Choice
    requires p.Valid()
  {
    var c := Try(p, Start(p), p.Unconstrained());
    if p.KiNorm() != 0.0 then Try(p, c, p.OnLinear()) else c
  }

  function FirstFour(p: Problem): Choice
    requires p.Valid()
  {
    Try(p, Try(p, FirstTwo(p), p.AtBound(0.0)), p.AtBound(100.0))
  }

  /** The candidates that exist for `p`. */
  ghost predicate IsCandidate(p: Problem, d: Vec)
    requires p.Valid()
  {
    || d == p.Unconstrained()
    || (p.KiNorm() != 0.0 && d == p.OnLinear())
    || d == p.AtBound(0.0)
    || d == p.AtBound(100.0)
    || (p.KinormKiiDiff() != 0.0 && (d == p.Corner(0.0) || d == p.Corner(100.0)))
  }

  ghost predicate Consistent(p: Problem, c: Choice)
    requires p.Valid()
  {
    || c == Start(p)
    || (|c.best| == |p.k| && p.Tolerated(c.best) && c.cost == p.Cost(c.best) && c.cost < LARGE_COST)
  }

  lemma TryStep(p: Problem, c: Choice, d: Vec)
    requires p.Valid() && |d| == |p.k| && Consistent(p, c) && c.cost <= LARGE_COST
    ensures var c' := Try(p, c, d);
            && Consistent(p, c') && c'.cost <= c.cost
            && (p.Tolerated(d) ==> c'.cost <= p.Cost(d))
  {
  }

  /** The result is the untouched start value or a tolerated vector with its true cost, and no
      tolerated candidate is cheaper. */
  lemma SolveIsCheapest(p: Problem)
    requires p.Valid()
    ensures Consistent(p, Solve(p))
    ensures forall d :: IsCandidate(p, d) && |d| == |p.k| && p.Tolerated(d) ==> Solve(p).cost <= p.Cost(d)
  {
    hide Problem.Cost, Problem.Tolerated, Problem.KiNorm, Problem.KinormKiiDiff;
    var c1 := Try(p, Start(p), p.Unconstrained());
    TryStep(p, Start(p), p.Unconstrained());
    var c2 := if p.KiNorm() != 0.0 then Try(p, c1, p.OnLinear()) else c1;
    if p.KiNorm() != 0.0 { TryStep(p, c1, p.OnLinear()); }
    var c3 := Try(p, c2, p.AtBound(0.0));
    TryStep(p, c2, p.AtBound(0.0));
    var c4 := Try(p, c3, p.AtBound(100.0));
    TryStep(p, c3, p.AtBound(100.0));
    if p.KinormKiiDiff() != 0.0 {
      var c5 := Try(p, c4, p.Corner(0.0));
      TryStep(p, c4, p.Corner(0.0));
      TryStep(p, c5, p.Corner(100.0));
    }
  }

  // The firmware's loops, over the members they read gathered in a Problem.

  /** multiplyTwoArrays. */
  method MultiplyTwoArrays(a: Vec, b: Vec) returns (mult: real)
    requires |a| == |b|
    ensures mult == Dot(a, b)
  {
    mult := 0.0;
    for i := 0 to |a|
      invariant mult == Sum(Times(a, b), i)
    {
      mult := mult + a[i] * b[i];
    }
  }

  /** evaluate_cost. */
  method EvaluateCost(p: Problem, d: Vec) returns (total: real)
    requires p.Valid() && |d| == |p.k|
    ensures total == p.Cost(d)
  {
    var norm := 0.0;
    var diff: Vec := [];
    for i := 0 to |d|
      invariant diff == Minus(d, p.av)[..i]
      invariant norm == Sum(Squares(Minus(d, p.av)), i)
    {
      norm := norm + (d[i] - p.av[i]) * (d[i] - p.av[i]);
      diff := diff + [d[i] - p.av[i]];
    }
    assert diff == Minus(d, p.av);
    var dual := MultiplyTwoArrays(p.lambda, diff);
    total := CostOf(p.cost, d[p.idx], dual, p.rho, norm);
  }

  /** check_feasibility. */
  method CheckFeasibility(p: Problem, d: Vec) returns (ok: bool)
    requires p.Valid() && |d| == |p.k|
    ensures ok == p.Tolerated(d)
    ensures ok <==> -0.01 <= d[p.idx] <= 100.01 && Dot(d, p.k) >= p.liRef - p.residual - 0.01
  {
    if d[p.idx] < 0.0 - TOL {
      return false;
    }
    if d[p.idx] > 100.0 + TOL {
      return false;
    }
    var light := MultiplyTwoArrays(d, p.k);
    if light < p.liRef - p.residual - TOL {
      return false;
    }
    return true;
  }

  /** z, with the energy cost taken off the own entry. */
  method ComputeZ(p: Problem) returns (z: Vec)
    requires p.Valid()
    ensures z == p.Z()
  {
    z := [];
    for i := 0 to |p.k|
      invariant |z| == i && forall j :: 0 <= j < i ==> z[j] == ZEntry(p.rho, p.av[j], p.lambda[j])
    {
      z := z + [ZEntry(p.rho, p.av[i], p.lambda[i])];
    }
    z := z[p.idx := z[p.idx] - p.cost];
  }

  method FillUnconstrained(p: Problem, z: Vec) returns (test: Vec)
    requires p.Valid() && z == p.Z()
    ensures test == p.Unconstrained()
  {
    test := [];
    for i := 0 to |p.k|
      invariant test == p.Unconstrained()[..i]
    {
      test := test + [FreeEntry(p.rho, z[i])];
    }
  }

  method FillLinear(p: Problem, z: Vec, kiNorm: real) returns (test: Vec)
    requires p.Valid() && z == p.Z() && kiNorm == p.KiNorm() && kiNorm != 0.0
    ensures test == p.OnLinear()
  {
    test := [];
    for i := 0 to |p.k|
      invariant test == p.OnLinear()[..i]
    {
      var zk := MultiplyTwoArrays(z, p.k);
      test := test + [LinearEntry(p.rho, z[i], p.k[i], kiNorm, p.residual - p.liRef, zk)];
    }
  }

  method FillCorner(p: Problem, z: Vec, kinormKiiDiff: real, bound: real) returns (test: Vec)
    requires p.Valid() && z == p.Z() && kinormKiiDiff == p.KinormKiiDiff() && kinormKiiDiff != 0.0
    ensures test == p.Corner(bound)
  {
    test := [];
    for i := 0 to |p.k|
      invariant test == p.CornerEntries(bound)[..i]
    {
      var zk := MultiplyTwoArrays(z, p.k);
      test := test + [CornerEntry(p.rho, z[i], p.k[i], kinormKiiDiff, p.residual - p.liRef, bound, p.k[p.idx], z[p.idx], zk)];
    }
    test := test[p.idx := bound];
  }

  /** The block consensus_iterate repeats for every candidate: check, compare, memcpy. */
  method TryCandidate(p: Problem, best: array<real>, test: Vec, costBest: real) returns (costBest': real)
    requires p.Valid() && |test| == |p.k| <= best.Length
    modifies best
    ensures Choice(best[..|p.k|], costBest') == Try(p, Choice(old(best[..|p.k|]), costBest), test)
    ensures best[|p.k|..] == old(best[|p.k|..])
  {
    costBest' := costBest;
    var ok := CheckFeasibility(p, test);
    if ok {
      var c := EvaluateCost(p, test);
      if c < costBest {
        for i := 0 to |test|
          invariant best[..i] == test[..i] && best[|p.k|..] == old(best[|p.k|..])
        {
          best[i] := test[i];
        }
        costBest' := c;
      }
    }
  }

  /** The six candidates in the firmware's order, over dutyCycleBest. */
  method TryAll(p: Problem, best: array<real>, kiNorm: real, kinormKiiDiff: real)
    requires p.Valid() && |p.k| <= best.Length && best[..|p.k|] == Const(|p.k|, -1.0)
    requires kiNorm == p.KiNorm() && kinormKiiDiff == p.KinormKiiDiff()
    modifies best
    ensures best[..|p.k|] == Solve(p).best && best[|p.k|..] == old(best[|p.k|..])
  {
    var costBest := LARGE_COST;
    var z := ComputeZ(p);
    var test := FillUnconstrained(p, z);
    costBest := TryCandidate(p, best, test, costBest);
    if kiNorm != 0.0 {
      test := FillLinear(p, z, kiNorm);
      costBest := TryCandidate(p, best, test, costBest);
    }
    assert Choice(best[..|p.k|], costBest) == FirstTwo(p);
    test := FillUnconstrained(p, z);
    test := test[p.idx := 0.0];
    costBest := TryCandidate(p, best, test, costBest);
    test := FillUnconstrained(p, z);
    test := test[p.idx := 100.0];
    costBest := TryCandidate(p, best, test, costBest);
    assert Choice(best[..|p.k|], costBest) == FirstFour(p);
    if kinormKiiDiff != 0.0 {
      test := FillCorner(p, z, kinormKiiDiff, 0.0);
      costBest := TryCandidate(p, best, test, costBest);
      test := FillCorner(p, z, kinormKiiDiff, 100.0);
      costBest := TryCandidate(p, best, test, costBest);
    }
  }

  // The cost, entry by entry.

  /** One entry's part of the cost. */
  ghost function EntryOf(rho: real, lam: real, cost: real, av: real, d: real): real {
    lam * (d - av) + rho / 2.0 * ((d - av) * (d - av)) + cost * d
  }

  /** Only the own entry costs energy. */
  ghost function CostAt(p: Problem, i: nat): real { if i == p.idx then p.cost else 0.0 }

  /** What entry `i` of `d` contributes to the cost. */
  ghost function Entry(p: Problem, d: Vec, i: nat): real
    requires p.Valid() && |d| == |p.k| && i < |d|
  {
    EntryOf(p.rho, p.lambda[i], CostAt(p, i), p.av[i], d[i])
  }

  ghost function Entries(p: Problem, d: Vec): (t: Vec)
    requires p.Valid() && |d| == |p.k|
    ensures |t| == |d|
  {
    seq(|d|, i requires 0 <= i < |d| => Entry(p, d, i))
  }

  lemma EntrySplit(p: Problem, d: Vec, i: nat)
    requires p.Valid() && |d| == |p.k| && i < |d|
    ensures Entries(p, d)[i] == Times(p.lambda, Minus(d, p.av))[i] + Scaled(p.rho / 2.0, Squares(Minus(d, p.av)))[i]
                                + Unit(|d|, p.idx, p.cost * d[p.idx])[i]
  {
  }

  lemma EntriesTotal(p: Problem, d: Vec)
    requires p.Valid() && |d| == |p.k|
    ensures Total(Entries(p, d))
         == Total(Times(p.lambda, Minus(d, p.av))) + Total(Scaled(p.rho / 2.0, Squares(Minus(d, p.av))))
            + Total(Unit(|d|, p.idx, p.cost * d[p.idx]))
  {
    var n, energy, squares := |d|, p.cost * d[p.idx], Squares(Minus(d, p.av));
    var duals := Times(p.lambda, Minus(d, p.av));
    forall i | 0 <= i < n ensures Entries(p, d)[i] == duals[i] + Scaled(p.rho / 2.0, squares)[i] + Unit(n, p.idx, energy)[i] {
      EntrySplit(p, d, i);
    }
    SumAddThree(duals, Scaled(p.rho / 2.0, squares), Unit(n, p.idx, energy), Entries(p, d), n);
  }

  lemma CostByEntries(p: Problem, d: Vec)
    requires p.Valid() && |d| == |p.k|
    ensures p.Cost(d) == Total(Entries(p, d))
  {
    EntriesTotal(p, d);
    SumUnit(|d|, p.idx, p.cost * d[p.idx], |d|);
    SumScaled(p.rho / 2.0, Squares(Minus(d, p.av)), |d|);
  }

  // Optimality certificates.

  /** `x` is `c`, the unconstrained minimiser, moved by `mu` along the gains and by `nu` along the
      node's own dimming. */
  ghost predicate Displaced(c: Vec, k: Vec, idx: nat, x: Vec, mu: real, nu: real) {
    && |c| == |k| == |x|
    && forall i :: 0 <= i < |k| ==> x[i] == Moved(c[i], mu, k[i], if i == idx then nu else 0.0)
  }

  ghost function Moved(c: real, mu: real, k: real, nu: real): real {
    c + mu * k + nu
  }

  /** `x` is feasible and `mu`, `nu` are multipliers that prove it optimal. */
  ghost predicate Certified(p: Problem, x: Vec, mu: real, nu: real)
    requires p.Valid()
  {
    && Displaced(p.Unconstrained(), p.k, p.idx, x, mu, nu)
    && p.Feasible(x)
    && mu >= 0.0
    && (mu > 0.0 ==> Dot(x, p.k) == p.Need())
    && (nu > 0.0 ==> x[p.idx] == 0.0)
    && (nu < 0.0 ==> x[p.idx] == 100.0)
  }

  lemma CentreEntry(p: Problem, i: nat)
    requires p.Valid() && i < |p.k|
    ensures p.rho * p.Unconstrained()[i] == p.rho * p.av[i] - p.lambda[i] - CostAt(p, i)
  {
    var z := p.Z();
    assert p.rho * (1.0 / p.rho * z[i]) == z[i];
  }

  /** A multiplier's pull on a displacement from `x` to `d`, and on its effect through a gain. */
  ghost function Pull(rho: real, nu: real, d: real, x: real): real {
    rho * nu * (d - x)
  }

  ghost function GainPull(rho: real, mu: real, d: real, x: real, k: real): real {
    rho * mu * (d * k - x * k)
  }

  /** Completing the square in one entry. */
  lemma SquareGap(rho: real, lam: real, cost: real, av: real, c: real, d: real, x: real)
    requires rho * c == rho * av - lam - cost
    ensures EntryOf(rho, lam, cost, av, d) - EntryOf(rho, lam, cost, av, x)
         == rho / 2.0 * ((d - x) * (d - x)) + rho * ((d - x) * (x - c))
  {
    assert (d - av) * (d - av) - (x - av) * (x - av) == (d - x) * (d - x) + 2.0 * ((d - x) * (x - av));
    assert rho / 2.0 * (2.0 * ((d - x) * (x - av))) == rho * ((d - x) * (x - av));
    assert rho * ((d - x) * (x - av)) - rho * ((d - x) * (x - c)) == (rho * c - rho * av) * (d - x);
  }

  lemma DropSquare(rho: real, d: real, x: real, c: real, k: real, mu: real, nu: real)
    requires rho > 0.0 && x == c + mu * k + nu
    ensures rho / 2.0 * ((d - x) * (d - x)) + rho * ((d - x) * (x - c)) >= GainPull(rho, mu, d, x, k) + Pull(rho, nu, d, x)
  {
    SquareSign(d - x);
    Positive(rho / 2.0, (d - x) * (d - x));
    assert (d - x) * (x - c) == mu * (d * k - x * k) + nu * (d - x);
    Distribute(rho, mu * (d * k - x * k), nu * (d - x));
  }

  /** The convexity gap of one entry's cost, bounded below by the multipliers' part. */
  lemma ScalarGap(rho: real, lam: real, cost: real, av: real, c: real, d: real, x: real, k: real, mu: real, nu: real)
    requires rho > 0.0 && rho * c == rho * av - lam - cost && x == Moved(c, mu, k, nu)
    ensures EntryOf(rho, lam, cost, av, d) - EntryOf(rho, lam, cost, av, x) >= GainPull(rho, mu, d, x, k) + Pull(rho, nu, d, x)
  {
    hide EntryOf, GainPull, Pull;
    SquareGap(rho, lam, cost, av, c, d, x);
    DropSquare(rho, d, x, c, k, mu, nu);
  }

  lemma NoPull(rho: real, d: real, x: real)
    ensures Pull(rho, 0.0, d, x) == 0.0
  {
  }

  lemma EntryGap(p: Problem, d: Vec, x: Vec, mu: real, nu: real, i: nat)
    requires p.Valid() && |d| == |p.k| && i < |d|
    requires Displaced(p.Unconstrained(), p.k, p.idx, x, mu, nu)
    ensures Entry(p, d, i) - Entry(p, x, i)
         >= GainPull(p.rho, mu, d[i], x[i], p.k[i]) + (if i == p.idx then Pull(p.rho, nu, d[i], x[i]) else 0.0)
  {
    hide EntryOf, Pull, GainPull, Moved, Problem.Unconstrained, CostAt;
    CentreEntry(p, i);
    if i == p.idx {
      ScalarGap(p.rho, p.lambda[i], CostAt(p, i), p.av[i], p.Unconstrained()[i], d[i], x[i], p.k[i], mu, nu);
    } else {
      NoPull(p.rho, d[i], x[i]);
      ScalarGap(p.rho, p.lambda[i], CostAt(p, i), p.av[i], p.Unconstrained()[i], d[i], x[i], p.k[i], mu, 0.0);
    }
  }

  /** The multipliers' parts of all entries. */
  ghost function Pulls(p: Problem, d: Vec, x: Vec, mu: real): (t: Vec)
    requires |d| == |x| == |p.k|
    ensures |t| == |d|
  {
    seq(|d|, i requires 0 <= i < |d| => GainPull(p.rho, mu, d[i], x[i], p.k[i]))
  }

  lemma PullsTotal(p: Problem, d: Vec, x: Vec, mu: real)
    requires |d| == |x| == |p.k|
    ensures Total(Pulls(p, d, x, mu)) == Pull(p.rho, mu, Dot(d, p.k), Dot(x, p.k))
  {
    var diff := Minus(Times(d, p.k), Times(x, p.k));
    forall i | 0 <= i < |d| ensures Pulls(p, d, x, mu)[i] == Scaled(p.rho * mu, diff)[i] {
      SameProduct(p.rho * mu, diff[i], d[i] * p.k[i] - x[i] * p.k[i]);
    }
    SumPrefix(Pulls(p, d, x, mu), Scaled(p.rho * mu, diff), |d|);
    SumScaled(p.rho * mu, diff, |d|);
    SumAdd(diff, Times(x, p.k), Times(d, p.k), |d|);
    SameProduct(p.rho * mu, Total(diff), Dot(d, p.k) - Dot(x, p.k));
  }

  lemma UnitTotal(n: nat, i: nat, v: real)
    requires i < n
    ensures Total(Unit(n, i, v)) == v
  {
    SumUnit(n, i, v, n);
  }

  lemma EntryGapAt(p: Problem, d: Vec, x: Vec, mu: real, nu: real, i: nat)
    requires p.Valid() && |d| == |x| == |p.k| && i < |d|
    requires Displaced(p.Unconstrained(), p.k, p.idx, x, mu, nu)
    ensures Entries(p, d)[i] >= Entries(p, x)[i] + Pulls(p, d, x, mu)[i] + Unit(|d|, p.idx, Pull(p.rho, nu, d[p.idx], x[p.idx]))[i]
  {
    hide Pull, GainPull, Entry, Displaced;
    EntryGap(p, d, x, mu, nu, i);
    assert Entries(p, d)[i] == Entry(p, d, i) && Entries(p, x)[i] == Entry(p, x, i);
    assert Pulls(p, d, x, mu)[i] == GainPull(p.rho, mu, d[i], x[i], p.k[i]);
  }

  /** Moving from a displaced minimiser costs at least what the multipliers pull. */
  lemma CostGap(p: Problem, d: Vec, x: Vec, mu: real, nu: real)
    requires p.Valid() && |d| == |p.k|
    requires Displaced(p.Unconstrained(), p.k, p.idx, x, mu, nu)
    ensures p.Cost(d) - p.Cost(x) >= Pull(p.rho, mu, Dot(d, p.k), Dot(x, p.k)) + Pull(p.rho, nu, d[p.idx], x[p.idx])
  {
    assert |x| == |p.k|;
    hide Pull, Pulls, Entries, Unit, Problem.Cost, Total, Dot, Displaced;
    var side := Pull(p.rho, nu, d[p.idx], x[p.idx]);
    forall i | 0 <= i < |d| ensures Entries(p, d)[i] >= Entries(p, x)[i] + Pulls(p, d, x, mu)[i] + Unit(|d|, p.idx, side)[i] {
      EntryGapAt(p, d, x, mu, nu, i);
    }
    Totals(Entries(p, d), Entries(p, x), Pulls(p, d, x, mu), Unit(|d|, p.idx, side));
    PullsTotal(p, d, x, mu);
    UnitTotal(|d|, p.idx, side);
    CostByEntries(p, d);
    CostByEntries(p, x);
  }

  lemma Totals(t: Vec, a: Vec, b: Vec, c: Vec)
    requires |t| == |a| == |b| == |c|
    requires forall i :: 0 <= i < |t| ==> t[i] >= a[i] + b[i] + c[i]
    ensures Total(t) >= Total(a) + Total(b) + Total(c)
  {
    var sum := seq(|t|, i requires 0 <= i < |t| => a[i] + b[i] + c[i]);
    SumAtLeast(t, sum, |t|);
    SumAddThree(a, b, c, sum, |t|);
  }

  lemma PullSigns(rho: real, mu: real, light: real, need: real)
    requires rho > 0.0 && mu >= 0.0 && (mu > 0.0 ==> light >= need)
    ensures Pull(rho, mu, light, need) >= 0.0
  {
    Positive(rho, mu);
    Positive(rho * mu, light - need);
  }

  lemma BoxPullSigns(rho: real, nu: real, d: real, x: real)
    requires rho > 0.0 && 0.0 <= d <= 100.0
    requires (nu > 0.0 ==> x == 0.0) && (nu < 0.0 ==> x == 100.0)
    ensures Pull(rho, nu, d, x) >= 0.0
  {
    Positive(rho, nu);
    Positive(rho, -nu);
    assert rho * (-nu) == -(rho * nu);
    Positive(rho * nu, d - x);
  }

  /** A certified vector is globally optimal: no feasible vector is cheaper. */
  lemma CertifiedIsOptimal(p: Problem, x: Vec, mu: real, nu: real, d: Vec)
    requires p.Valid() && Certified(p, x, mu, nu)
    requires |d| == |p.k| && p.Feasible(d)
    ensures p.Cost(x) <= p.Cost(d)
  {
    assert |x| == |p.k|;
    hide Pull, Problem.Cost, Dot, Displaced;
    CostGap(p, d, x, mu, nu);
    PullSigns(p.rho, mu, Dot(d, p.k), Dot(x, p.k));
    BoxPullSigns(p.rho, nu, d[p.idx], x[p.idx]);
  }

  // Some candidate is certified.

  /** The illuminance after moving by `mu` along the gains and `nu` along the own dimming. */
  ghost function LightAfter(w: real, mu: real, n: real, nu: real, kap: real): real {
    w + mu * n + nu * kap
  }

  lemma DotDisplaced(c: Vec, k: Vec, idx: nat, x: Vec, mu: real, nu: real)
    requires idx < |k| && Displaced(c, k, idx, x, mu, nu)
    ensures Dot(x, k) == LightAfter(Dot(c, k), mu, Dot(k, k), nu, k[idx])
  {
    var n := |k|;
    var own := Unit(n, idx, nu * k[idx]);
    SumScaled(mu, Times(k, k), n);
    SumUnit(n, idx, nu * k[idx], n);
    forall i | 0 <= i < n ensures Times(x, k)[i] == Times(c, k)[i] + Scaled(mu, Times(k, k))[i] + own[i] {
      DisplacedAt(c, k, idx, x, mu, nu, i);
    }
    SumAddThree(Times(c, k), Scaled(mu, Times(k, k)), own, Times(x, k), n);
  }

  lemma DisplacedAt(c: Vec, k: Vec, idx: nat, x: Vec, mu: real, nu: real, i: nat)
    requires i < |k| && idx < |k| && Displaced(c, k, idx, x, mu, nu)
    ensures Times(x, k)[i] == Times(c, k)[i] + Scaled(mu, Times(k, k))[i] + Unit(|k|, idx, nu * k[idx])[i]
  {
    DisplacedTerm(c[i], k[i], mu, if i == idx then nu else 0.0);
  }

  lemma DisplacedTerm(c: real, k: real, mu: real, nu: real)
    ensures (c + mu * k + nu) * k == c * k + mu * (k * k) + nu * k
  {
  }

  /** The scalars the case split is about: the unconstrained minimiser's own entry and its
      illuminance. */
  ghost function Centre(p: Problem): real requires p.Valid() { p.Unconstrained()[p.idx] }
  ghost function CentreDot(p: Problem): real requires p.Valid() { Dot(p.Unconstrained(), p.k) }

  lemma ScaledDot(p: Problem)
    requires p.Valid()
    ensures CentreDot(p) == 1.0 / p.rho * Dot(p.Z(), p.k)
    ensures p.k[p.idx] * Centre(p) - CentreDot(p) == 1.0 / p.rho * (p.k[p.idx] * p.Z()[p.idx] - Dot(p.Z(), p.k))
  {
    var n := |p.k|;
    var z, c, s := p.Z(), p.Unconstrained(), 1.0 / p.rho;
    forall i | 0 <= i < n ensures Times(c, p.k)[i] == Scaled(s, Times(z, p.k))[i] {
      Reorder(s, z[i], p.k[i]);
    }
    SumPrefix(Times(c, p.k), Scaled(s, Times(z, p.k)), n);
    SumScaled(s, Times(z, p.k), n);
    Reorder(s, z[p.idx], p.k[p.idx]);
    Distribute(s, p.k[p.idx] * z[p.idx], - Dot(z, p.k));
  }

  lemma Reorder(s: real, z: real, k: real)
    ensures s * z * k == s * (z * k) == k * (s * z) == s * (k * z)
  {
  }

  ghost function LinearMu(p: Problem): real
    requires p.Valid() && p.KiNorm() != 0.0
  {
    TouchMu(CentreDot(p), p.KiNorm(), p.Need())
  }

  lemma OnLinearShape(p: Problem)
    requires p.Valid() && p.KiNorm() != 0.0
    ensures Displaced(p.Unconstrained(), p.k, p.idx, p.OnLinear(), LinearMu(p), 0.0)
  {
    hide LinearEntry, FreeEntry, Moved, TouchMu, Dot, Problem.KiNorm;
    ScaledDot(p);
    forall i | 0 <= i < |p.k| ensures p.OnLinear()[i] == Moved(p.Unconstrained()[i], LinearMu(p), p.k[i], 0.0) {
      LinearMove(p.rho, p.Z()[i], p.k[i], p.KiNorm(), p.residual - p.liRef, Dot(p.Z(), p.k), CentreDot(p), p.Need());
    }
  }

  lemma LinearMove(rho: real, z: real, k: real, n: real, gap: real, zk: real, w: real, m: real)
    requires rho != 0.0 && n != 0.0 && w == 1.0 / rho * zk && m == -gap
    ensures LinearEntry(rho, z, k, n, gap, zk) == Moved(FreeEntry(rho, z), TouchMu(w, n, m), k, 0.0)
  {
    NegatedQuotient(k, n, m - w);
  }

  lemma NegatedQuotient(k: real, g: real, t: real)
    requires g != 0.0
    ensures - (k / g * (-t)) == t / g * k
  {
  }

  ghost function CornerMu(p: Problem, bound: real): real
    requires p.Valid() && p.KinormKiiDiff() != 0.0
  {
    PinMu(Centre(p), CentreDot(p), p.KinormKiiDiff(), p.k[p.idx], p.Need(), bound)
  }

  ghost function CornerNu(p: Problem, bound: real): real
    requires p.Valid() && p.KinormKiiDiff() != 0.0
  {
    PinNu(Centre(p), CentreDot(p), p.KinormKiiDiff(), p.k[p.idx], p.Need(), bound)
  }

  lemma CornerShape(p: Problem, bound: real)
    requires p.Valid() && p.KinormKiiDiff() != 0.0
    ensures Displaced(p.Unconstrained(), p.k, p.idx, p.Corner(bound), CornerMu(p, bound), CornerNu(p, bound))
  {
    hide CornerEntry, FreeEntry, Moved, PinMu, PinNu, Dot, Problem.KinormKiiDiff;
    ScaledDot(p);
    var kap := p.k[p.idx];
    PinOwn(Centre(p), CentreDot(p), p.KinormKiiDiff(), kap, p.Need(), bound);
    forall i | 0 <= i < |p.k| && i != p.idx
      ensures p.Corner(bound)[i] == Moved(p.Unconstrained()[i], CornerMu(p, bound), p.k[i], 0.0)
    {
      PinMove(p.Z()[i], p.k[i], p.KinormKiiDiff(), p.rho, p.residual - p.liRef, bound, kap, p.Z()[p.idx], Dot(p.Z(), p.k),
              Centre(p), CentreDot(p), p.Need());
    }
  }

  lemma PinOwn(ci: real, w: real, g: real, kap: real, m: real, bound: real)
    requires g != 0.0
    ensures Moved(ci, PinMu(ci, w, g, kap, m, bound), kap, PinNu(ci, w, g, kap, m, bound)) == bound
  {
  }

  lemma PinMove(z: real, k: real, g: real, rho: real, gap: real, bound: real, own: real, zOwn: real, zk: real, ci: real, w: real, m: real)
    requires g != 0.0 && rho > 0.0 && m == -gap
    requires own * ci - w == 1.0 / rho * (own * zOwn - zk)
    ensures CornerEntry(rho, z, k, g, gap, bound, own, zOwn, zk) == Moved(FreeEntry(rho, z), PinMu(ci, w, g, own, m, bound), k, 0.0)
  {
    hide CornerEntry, FreeEntry, Moved;
    CornerMove(z, k, g, rho, gap, bound, own, zOwn, zk, m - w + own * ci - bound * own);
  }

  lemma CornerMove(z: real, k: real, g: real, rho: real, gap: real, bound: real, own: real, zOwn: real, zk: real, t: real)
    requires g != 0.0 && rho > 0.0 && t == 1.0 / rho * (own * zOwn - zk) - (gap + bound * own)
    ensures CornerEntry(rho, z, k, g, gap, bound, own, zOwn, zk) == Moved(FreeEntry(rho, z), t / g, k, 0.0)
  {
    NonZeroProduct(rho, g);
    var a, b := gap + bound * own, own * zOwn - zk;
    assert k / (rho * g) == k / g * (1.0 / rho);
    assert k / (rho * g) * b == k / g * (1.0 / rho * b);
    Distribute(k / g, 1.0 / rho * b, -a);
    assert k / g * t == t / g * k;
  }

  // The case split, over plain numbers: `ci` is the unconstrained own entry, `w` the unconstrained
  // illuminance, `g` the squared norm of the other gains, `kap` the own gain, `m` the required
  // illuminance.

  ghost function Clamp(ci: real): real {
    if ci < 0.0 then 0.0 else if ci > 100.0 then 100.0 else ci
  }

  /** The illuminance when only the box is enforced. */
  ghost function BoxDot(ci: real, w: real, kap: real): real {
    w + kap * (Clamp(ci) - ci)
  }

  /** Where the own entry lands on the linear boundary when the box is ignored; `n` is the squared
      norm of all gains. */
  ghost function Touch(ci: real, w: real, n: real, kap: real, m: real): real
    requires n != 0.0
  {
    Moved(ci, TouchMu(w, n, m), kap, 0.0)
  }

  ghost function TouchMu(w: real, n: real, m: real): real
    requires n != 0.0
  {
    (m - w) / n
  }

  /** The multiplier that puts the vector pinned at `bound` on the linear boundary, and the
      displacement of the own entry that then remains for the box. */
  ghost function PinMu(ci: real, w: real, g: real, kap: real, m: real, bound: real): real
    requires g != 0.0
  {
    (m - w + kap * ci - bound * kap) / g
  }

  ghost function PinNu(ci: real, w: real, g: real, kap: real, m: real, bound: real): real
    requires g != 0.0
  {
    bound - ci - PinMu(ci, w, g, kap, m, bound) * kap
  }

  /** How far beyond `bound` the landing point is, scaled by the norm. */
  ghost function Beyond(ci: real, w: real, g: real, kap: real, m: real, bound: real): real {
    (ci - bound) * g + kap * (m - w + kap * ci - bound * kap)
  }

  lemma TouchScaled(ci: real, w: real, n: real, g: real, kap: real, m: real, bound: real)
    requires n != 0.0 && n == g + kap * kap
    ensures n * (Touch(ci, w, n, kap, m) - bound) == Beyond(ci, w, g, kap, m, bound)
  {
    var q := TouchMu(w, n, m);
    assert n * q == m - w;
    assert n * (q * kap) == (m - w) * kap;
    Distribute(n, ci - bound, q * kap);
    assert n * (ci - bound) == (ci - bound) * g + (ci - bound) * (kap * kap);
    assert kap * (m - w + kap * ci - bound * kap) == (m - w) * kap + (ci - bound) * (kap * kap);
  }

  /** Landing below the box, the corner at 0 has a non-negative multiplier. */
  lemma LowFace(ci: real, w: real, g: real, kap: real, m: real)
    requires g >= 0.0 && Beyond(ci, w, g, kap, m, 0.0) < 0.0 && BoxDot(ci, w, kap) < m
    ensures m - w + kap * ci >= 0.0
  {
    var a := m - w + kap * ci;
    if 0.0 <= ci && a < 0.0 {
      Positive(kap, a);
      Positive(ci, g);
      Positive(kap, ci);
    }
  }

  /** Landing above the box: the mirror image. */
  lemma HighFace(ci: real, w: real, g: real, kap: real, m: real)
    requires g >= 0.0 && Beyond(ci, w, g, kap, m, 100.0) > 0.0 && BoxDot(ci, w, kap) < m
    ensures m - w + kap * ci - 100.0 * kap >= 0.0
  {
    Mirror(ci, w, g, kap, m);
    LowFace(100.0 - ci, w, g, -kap, m);
    assert (-kap) * (100.0 - ci) == kap * ci - 100.0 * kap;
  }

  /** Measuring the own entry from the other end of the box. */
  lemma Mirror(ci: real, w: real, g: real, kap: real, m: real)
    ensures Beyond(100.0 - ci, w, g, -kap, m, 0.0) == -Beyond(ci, w, g, kap, m, 100.0)
    ensures BoxDot(100.0 - ci, w, -kap) == BoxDot(ci, w, kap)
  {
    assert Clamp(100.0 - ci) - (100.0 - ci) == -(Clamp(ci) - ci);
    assert (-kap) * -(Clamp(ci) - ci) == kap * (Clamp(ci) - ci);
    var a := m - w + kap * ci - 100.0 * kap;
    assert (-kap) * (100.0 - ci) == kap * ci - 100.0 * kap;
    assert Beyond(100.0 - ci, w, g, -kap, m, 0.0) == (100.0 - ci) * g + (-kap) * a;
    assert (100.0 - ci) * g == -((ci - 100.0) * g);
    assert (-kap) * a == -(kap * a);
  }

  /** Landing inside the box, the unconstrained point is too dark. */
  lemma MiddleFace(ci: real, w: real, g: real, kap: real, m: real)
    requires g >= 0.0 && BoxDot(ci, w, kap) < m
    requires Beyond(ci, w, g, kap, m, 0.0) >= 0.0 && Beyond(ci, w, g, kap, m, 100.0) <= 0.0
    ensures m - w >= 0.0
  {
    if m - w < 0.0 {
      if ci < 0.0 {
        TooDark(ci, w, g, kap, m);
      } else if ci > 100.0 {
        Mirror(ci, w, g, kap, m);
        TooDark(100.0 - ci, w, g, -kap, m);
      }
    }
  }

  lemma TooDark(ci: real, w: real, g: real, kap: real, m: real)
    requires ci < 0.0 && g >= 0.0 && BoxDot(ci, w, kap) < m < w
    ensures Beyond(ci, w, g, kap, m, 0.0) < 0.0
  {
    var a := m - w + kap * ci;
    assert BoxDot(ci, w, kap) == w - kap * ci;
    Positive(g, ci);
    if kap >= 0.0 {
      Positive(kap, ci);
    } else {
      Positive(-kap, a);
      assert (-kap) * a == -(kap * a);
    }
  }

  /** Without other gains the illuminance is the node's own, and the landing point is inside the
      box as soon as the problem is feasible. */
  lemma OneGain(ci: real, w: real, n: real, kap: real, m: real, s: real)
    requires w == ci * kap && n == kap * kap
    requires 0.0 <= s <= 100.0 && s * kap >= m
    requires BoxDot(ci, w, kap) < m
    ensures n > 0.0 && 0.0 <= Touch(ci, w, n, kap, m) <= 100.0
  {
    Between(kap, m, Clamp(ci), s);
    SquareSign(kap);
    if kap * kap == 0.0 {
      ZeroProduct(kap, kap);
    }
    assert (m - ci * kap) / (kap * kap) * kap == m / kap - ci;
  }

  lemma Between(kap: real, a: real, b: real, s: real)
    requires 0.0 <= b <= 100.0 && 0.0 <= s <= 100.0
    requires kap * b < a <= kap * s
    ensures kap != 0.0 && 0.0 <= a / kap <= 100.0
  {
    ZeroTimes(kap, b, s);
    Quotient(kap, a);
    if kap > 0.0 {
      Order(kap, b, a / kap);
      Order(kap, a / kap, s);
    } else {
      Reversed(kap, b, a / kap);
      Reversed(kap, a / kap, s);
    }
  }

  lemma ZeroTimes(x: real, a: real, b: real)
    ensures x == 0.0 ==> x * a == x * b
  {
  }

  lemma Quotient(x: real, a: real)
    requires x != 0.0
    ensures x * (a / x) == a
  {
  }

  lemma Order(x: real, a: real, b: real)
    requires x > 0.0 && x * a <= x * b
    ensures a <= b
  {
    Positive(x, a - b);
    assert x * (a - b) == x * a - x * b;
  }

  lemma Reversed(x: real, a: real, b: real)
    requires x < 0.0 && x * a <= x * b
    ensures b <= a
  {
    assert (-x) * b == -(x * b) && (-x) * a == -(x * a);
    Order(-x, b, a);
  }

  // Each face gives a certificate.

  /** The problem's own scalars, in the order the case split takes them. */
  ghost function Box(p: Problem): real
    requires p.Valid()
  {
    BoxDot(Centre(p), CentreDot(p), p.k[p.idx])
  }

  lemma BoundCertified(p: Problem)
    requires p.Valid() && Box(p) >= p.Need()
    ensures Certified(p, p.AtBound(Clamp(Centre(p))), 0.0, Clamp(Centre(p)) - Centre(p))
  {
    hide Moved, LightAfter, BoxDot, Dot;
    var ci := Centre(p);
    forall i | 0 <= i < |p.k| {
      NotMoved(p.Unconstrained()[i], p.k[i], if i == p.idx then Clamp(ci) - ci else 0.0);
    }
    DotDisplaced(p.Unconstrained(), p.k, p.idx, p.AtBound(Clamp(ci)), 0.0, Clamp(ci) - ci);
    BoxLight(ci, CentreDot(p), p.KiNorm(), p.k[p.idx]);
  }

  lemma NotMoved(c: real, k: real, nu: real)
    ensures Moved(c, 0.0, k, nu) == c + nu
  {
  }

  lemma BoxLight(ci: real, w: real, n: real, kap: real)
    ensures LightAfter(w, 0.0, n, Clamp(ci) - ci, kap) == BoxDot(ci, w, kap)
  {
    hide Clamp;
    assert 0.0 * n == 0.0;
    Commute(kap, Clamp(ci) - ci);
  }

  lemma Commute(x: real, y: real)
    ensures x * y == y * x
  {
  }

  lemma LinearCertified(p: Problem)
    requires p.Valid() && p.KiNorm() != 0.0 && LinearMu(p) >= 0.0
    requires 0.0 <= Touch(Centre(p), CentreDot(p), p.KiNorm(), p.k[p.idx], p.Need()) <= 100.0
    ensures Certified(p, p.OnLinear(), LinearMu(p), 0.0)
  {
    hide Moved, LightAfter, TouchMu, Dot;
    OnLinearShape(p);
    DotDisplaced(p.Unconstrained(), p.k, p.idx, p.OnLinear(), LinearMu(p), 0.0);
    LinearLight(CentreDot(p), p.KiNorm(), p.k[p.idx], p.Need());
  }

  lemma LinearLight(w: real, n: real, kap: real, m: real)
    requires n != 0.0
    ensures LightAfter(w, TouchMu(w, n, m), n, 0.0, kap) == m
  {
    Quotient(n, m - w);
    Commute(n, TouchMu(w, n, m));
  }

  lemma CornerCertified(p: Problem, bound: real)
    requires p.Valid() && p.KinormKiiDiff() != 0.0 && CornerMu(p, bound) >= 0.0
    requires (bound == 0.0 && CornerNu(p, bound) >= 0.0) || (bound == 100.0 && CornerNu(p, bound) <= 0.0)
    ensures Certified(p, p.Corner(bound), CornerMu(p, bound), CornerNu(p, bound))
  {
    assert p.KiNorm() == p.KinormKiiDiff() + p.k[p.idx] * p.k[p.idx];
    hide Moved, LightAfter, PinMu, PinNu, Dot, Problem.KinormKiiDiff;
    CornerShape(p, bound);
    DotDisplaced(p.Unconstrained(), p.k, p.idx, p.Corner(bound), CornerMu(p, bound), CornerNu(p, bound));
    CornerDot(Centre(p), CentreDot(p), p.KiNorm(), p.KinormKiiDiff(), p.k[p.idx], p.Need(), bound);
  }

  lemma CornerDot(ci: real, w: real, n: real, g: real, kap: real, m: real, bound: real)
    requires g != 0.0 && n == g + kap * kap
    ensures LightAfter(w, PinMu(ci, w, g, kap, m, bound), n, PinNu(ci, w, g, kap, m, bound), kap) == m
  {
    var t := m - w + kap * ci - bound * kap;
    Quotient(g, t);
    Commute(g, PinMu(ci, w, g, kap, m, bound));
    CornerLight(ci, w, PinMu(ci, w, g, kap, m, bound), n, PinNu(ci, w, g, kap, m, bound), g, kap, m, bound);
  }

  lemma CornerLight(ci: real, w: real, mu: real, n: real, nu: real, g: real, kap: real, m: real, bound: real)
    requires n == g + kap * kap && mu * g == m - w + kap * ci - bound * kap && nu == bound - ci - mu * kap
    ensures LightAfter(w, mu, n, nu, kap) == m
  {
    SameProduct(mu, n, g + kap * kap);
    Distribute(mu, g, kap * kap);
    SameProduct(kap, nu, bound - ci - mu * kap);
    assert kap * (bound - ci - mu * kap) == bound * kap - kap * ci - mu * (kap * kap);
  }

  /** The signs of a corner's multipliers. */
  lemma CornerSigns(ci: real, w: real, g: real, kap: real, m: real, bound: real)
    requires g > 0.0
    ensures m - w + kap * ci - bound * kap >= 0.0 ==> PinMu(ci, w, g, kap, m, bound) >= 0.0
    ensures Beyond(ci, w, g, kap, m, bound) < 0.0 ==> PinNu(ci, w, g, kap, m, bound) >= 0.0
    ensures Beyond(ci, w, g, kap, m, bound) > 0.0 ==> PinNu(ci, w, g, kap, m, bound) <= 0.0
  {
    var a, nu := m - w + kap * ci - bound * kap, PinNu(ci, w, g, kap, m, bound);
    assert g * (a / g * kap) == kap * a;
    assert g * nu == -Beyond(ci, w, g, kap, m, bound);
    SignOfProduct(g, nu);
  }

  /** Whenever some vector is feasible, one of the six candidates is certified optimal. */
  lemma SomeCandidateCertified(p: Problem, d: Vec) returns (x: Vec, mu: real, nu: real)
    requires p.Valid() && |d| == |p.k| && p.Feasible(d)
    ensures |x| == |p.k| && IsCandidate(p, x) && Certified(p, x, mu, nu)
  {
    var ci, w, kap, m, g := Centre(p), CentreDot(p), p.k[p.idx], p.Need(), p.KinormKiiDiff();
    SquaresWithout(p.k, p.idx);
    if Box(p) >= m {
      BoundCertified(p);
      x, mu, nu := p.AtBound(Clamp(ci)), 0.0, Clamp(ci) - ci;
      assert Clamp(ci) == ci ==> x == p.Unconstrained();
      return;
    }
    if g == 0.0 {
      SoleTouch(p, d);
    }
    SquareSign(kap);
    x, mu, nu := Landing(p);
  }

  /** If no other node has an influence, the illuminance is the node's own. */
  lemma SoleGain(p: Problem, d: Vec)
    requires p.Valid() && |d| == |p.k| && p.KinormKiiDiff() == 0.0
    ensures Dot(d, p.k) == d[p.idx] * p.k[p.idx]
  {
    var n := |d|;
    SquaresWithout(p.k, p.idx);
    SumUnit(n, p.idx, d[p.idx] * p.k[p.idx], n);
    SumPrefix(Times(d, p.k), Unit(n, p.idx, d[p.idx] * p.k[p.idx]), n);
  }

  lemma SoleTouch(p: Problem, d: Vec)
    requires p.Valid() && |d| == |p.k| && p.Feasible(d) && p.KinormKiiDiff() == 0.0 && Box(p) < p.Need()
    ensures p.KiNorm() > 0.0 && 0.0 <= Touch(Centre(p), CentreDot(p), p.KiNorm(), p.k[p.idx], p.Need()) <= 100.0
  {
    SoleGain(p, p.Unconstrained());
    SoleGain(p, d);
    OneGain(Centre(p), CentreDot(p), p.KiNorm(), p.k[p.idx], p.Need(), d[p.idx]);
  }

  lemma Landing(p: Problem) returns (x: Vec, mu: real, nu: real)
    requires p.Valid() && p.KiNorm() > 0.0 && p.KinormKiiDiff() >= 0.0 && Box(p) < p.Need()
    requires p.KinormKiiDiff() == 0.0 ==> 0.0 <= Touch(Centre(p), CentreDot(p), p.KiNorm(), p.k[p.idx], p.Need()) <= 100.0
    ensures |x| == |p.k| && IsCandidate(p, x) && Certified(p, x, mu, nu)
  {
    var ci, w, kap, m, n, g := Centre(p), CentreDot(p), p.k[p.idx], p.Need(), p.KiNorm(), p.KinormKiiDiff();
    var t := Touch(ci, w, n, kap, m);
    LandingSigns(ci, w, n, g, kap, m);
    if t < 0.0 {
      CornerSigns(ci, w, g, kap, m, 0.0);
      CornerCertified(p, 0.0);
      x, mu, nu := p.Corner(0.0), CornerMu(p, 0.0), CornerNu(p, 0.0);
    } else if t > 100.0 {
      CornerSigns(ci, w, g, kap, m, 100.0);
      CornerCertified(p, 100.0);
      x, mu, nu := p.Corner(100.0), CornerMu(p, 100.0), CornerNu(p, 100.0);
    } else {
      LinearCertified(p);
      x, mu, nu := p.OnLinear(), LinearMu(p), 0.0;
    }
  }

  /** Which multiplier is non-negative, by where the landing point is. */
  lemma LandingSigns(ci: real, w: real, n: real, g: real, kap: real, m: real)
    requires g >= 0.0 && n > 0.0 && n == g + kap * kap && BoxDot(ci, w, kap) < m
    ensures var t := Touch(ci, w, n, kap, m);
            && (t < 0.0 ==> Beyond(ci, w, g, kap, m, 0.0) < 0.0 && m - w + kap * ci >= 0.0)
            && (t > 100.0 ==> Beyond(ci, w, g, kap, m, 100.0) > 0.0 && m - w + kap * ci - 100.0 * kap >= 0.0)
            && (0.0 <= t <= 100.0 ==> TouchMu(w, n, m) >= 0.0)
  {
    var t := Touch(ci, w, n, kap, m);
    TouchScaled(ci, w, n, g, kap, m, 0.0);
    TouchScaled(ci, w, n, g, kap, m, 100.0);
    SignOfProduct(n, t - 0.0);
    SignOfProduct(n, t - 100.0);
    if t < 0.0 {
      LowFace(ci, w, g, kap, m);
    } else if t > 100.0 {
      HighFace(ci, w, g, kap, m);
    } else {
      MiddleFace(ci, w, g, kap, m);
    }
  }

  lemma SignOfProduct(n: real, t: real)
    requires n > 0.0
    ensures (n * t < 0.0 <==> t < 0.0) && (n * t > 0.0 <==> t > 0.0)
  {
    Positive(n, t);
    Positive(n, -t);
    assert n * (-t) == -(n * t);
  }

  // The main results.

  /** Every vector the solver returns in place of the start vector dims the node itself between
      -0.01 and 100.01 per cent and misses the required illuminance by at most 0.01 lux. */
  lemma SolveWithinLimits(p: Problem)
    requires p.Valid()
    ensures var b := Solve(p).best;
            Solve(p) != Start(p) ==>
            |b| == |p.k| && -0.01 <= b[p.idx] <= 100.01 && Dot(b, p.k) >= p.liRef - p.residual - 0.01
  {
    SolveIsCheapest(p);
  }

  /** If a vector meeting the exact constraints costs less than the initial bound, the solver finds
      a vector within the tolerance that costs no more than any vector meeting the exact
      constraints. No condition on the gains is needed. */
  lemma SolveIsOptimal(p: Problem, d: Vec)
    requires p.Valid() && |d| == |p.k| && p.Cost(d) < 100000.0
    requires 0.0 <= d[p.idx] <= 100.0 && Dot(d, p.k) >= p.liRef - p.residual
    ensures var b := Solve(p).best;
            && |b| == |p.k| && -0.01 <= b[p.idx] <= 100.01
            && Dot(b, p.k) >= p.liRef - p.residual - 0.01
    ensures forall e :: |e| == |p.k| && 0.0 <= e[p.idx] <= 100.0 && Dot(e, p.k) >= p.liRef - p.residual ==>
              p.Cost(Solve(p).best) <= p.Cost(e)
  {
    hide Problem.Cost, Dot, Solve, Displaced, IsCandidate;
    var x, mu, nu := SomeCandidateCertified(p, d);
    CertifiedIsOptimal(p, x, mu, nu, d);
    SolveIsCheapest(p);
    forall e | |e| == |p.k| && p.Feasible(e) ensures p.Cost(Solve(p).best) <= p.Cost(e) {
      CertifiedIsOptimal(p, x, mu, nu, e);
    }
  }

  /** Otherwise the start vector survives, all entries -1, exactly when no candidate within the
      tolerance is below the bound. */
  lemma SolveFailsIff(p: Problem)
    requires p.Valid()
    ensures |Solve(p).best| == |p.k|
    ensures (forall i :: 0 <= i < |p.k| ==> Solve(p).best[i] == -1.0) <==>
            forall d :: IsCandidate(p, d) && |d| == |p.k| ==>
              -0.01 <= d[p.idx] <= 100.01 && Dot(d, p.k) >= p.liRef - p.residual - 0.01 ==> p.Cost(d) >= 100000.0
  {
    SolveIsCheapest(p);
    var none := forall d :: IsCandidate(p, d) && |d| == |p.k| && p.Tolerated(d) ==> p.Cost(d) >= LARGE_COST;
    SolveIsCandidate(p);
    assert none <==> Solve(p) == Start(p);
    if forall i :: 0 <= i < |p.k| ==> Solve(p).best[i] == -1.0 {
      assert !p.Tolerated(Solve(p).best);
    }
  }

  lemma SolveIsCandidate(p: Problem)
    requires p.Valid()
    ensures Solve(p) == Start(p) || IsCandidate(p, Solve(p).best)
  {
    hide Problem.Cost, Problem.Tolerated, Problem.KiNorm, Problem.KinormKiiDiff;
  }

  /** The dual and the quadratic part of one entry. */
  ghost function Penalty(rho: real, lam: real, av: real, d: real): real {
    lam * (d - av) + rho / 2.0 * ((d - av) * (d - av))
  }

  ghost function Penalties(p: Problem, d: Vec, m: nat): real
    requires p.Valid() && |d| == |p.k| && m <= |d|
  {
    if m == 0 then 0.0 else Penalties(p, d, m - 1) + Penalty(p.rho, p.lambda[m - 1], p.av[m - 1], d[m - 1])
  }

  /** The cost is the energy of the own luminaire and, for every node, the multiplier times the
      distance from the average plus half of rho times its square. */
  lemma CostIs(p: Problem, d: Vec)
    requires p.Valid() && |d| == |p.k|
    ensures p.Cost(d) == p.cost * d[p.idx] + Penalties(p, d, |d|)
  {
    hide Penalties, Sum, Times, Scaled, Minus, Squares;
    SumScaled(p.rho / 2.0, Squares(Minus(d, p.av)), |d|);
    PenaltiesSum(p, d, |d|);
  }

  lemma {:induction false} PenaltiesSum(p: Problem, d: Vec, m: nat)
    requires p.Valid() && |d| == |p.k| && m <= |d|
    ensures Penalties(p, d, m)
         == Sum(Times(p.lambda, Minus(d, p.av)), m) + Sum(Scaled(p.rho / 2.0, Squares(Minus(d, p.av))), m)
  {
    hide Penalty, Times, Scaled, Minus, Squares;
    if m > 0 {
      PenaltiesSum(p, d, m - 1);
      PenaltySplit(p, d, m - 1);
    }
  }

  lemma PenaltySplit(p: Problem, d: Vec, i: nat)
    requires p.Valid() && |d| == |p.k| && i < |d|
    ensures Penalty(p.rho, p.lambda[i], p.av[i], d[i])
         == Times(p.lambda, Minus(d, p.av))[i] + Scaled(p.rho / 2.0, Squares(Minus(d, p.av)))[i]
  {
  }

  /** The candidates in the firmware's order. */
  ghost function Candidates(p: Problem): seq<Vec>
    requires p.Valid()
  {
    [p.Unconstrained()]
    + (if Dot(p.k, p.k) != 0.0 then [p.OnLinear()] else [])
    + [p.AtBound(0.0), p.AtBound(100.0)]
    + (if Dot(p.k, p.k) != p.k[p.idx] * p.k[p.idx] then [p.Corner(0.0), p.Corner(100.0)] else [])
  }

  /** The trials from the start vector on. */
  ghost function TryInTurn(p: Problem, cs: seq<Vec>): Choice
    requires p.Valid() && forall d :: d in cs ==> |d| == |p.k|
  {
    if cs == [] then Start(p) else Try(p, TryInTurn(p, cs[..|cs| - 1]), cs[|cs| - 1])
  }

  lemma TryOneMore(p: Problem, cs: seq<Vec>, d: Vec)
    requires p.Valid() && |d| == |p.k| && forall e :: e in cs ==> |e| == |p.k|
    ensures TryInTurn(p, cs + [d]) == Try(p, TryInTurn(p, cs), d)
    ensures TryInTurn(p, []) == Start(p)
  {
    assert (cs + [d])[..|cs|] == cs;
  }

  lemma SolveInTurn(p: Problem)
    requires p.Valid()
    ensures forall d :: d in Candidates(p) ==> |d| == |p.k|
    ensures Solve(p) == TryInTurn(p, Candidates(p))
  {
    hide Try, TryInTurn, Problem.Unconstrained, Problem.OnLinear, Problem.AtBound, Problem.Corner, Dot;
    var cs := [p.Unconstrained()];
    TryOneMore(p, [], p.Unconstrained());
    assert [] + [p.Unconstrained()] == cs;
    if p.KiNorm() != 0.0 {
      TryOneMore(p, cs, p.OnLinear());
      cs := cs + [p.OnLinear()];
    }
    TryOneMore(p, cs, p.AtBound(0.0));
    cs := cs + [p.AtBound(0.0)];
    TryOneMore(p, cs, p.AtBound(100.0));
    cs := cs + [p.AtBound(100.0)];
    if p.KinormKiiDiff() != 0.0 {
      TryOneMore(p, cs, p.Corner(0.0));
      cs := cs + [p.Corner(0.0)];
      TryOneMore(p, cs, p.Corner(100.0));
      cs := cs + [p.Corner(100.0)];
    }
    assert cs == Candidates(p);
  }

  /** `cs[i]` is tolerated, below the initial bound, no dearer than any tolerated candidate and
      cheaper than those tried before it. */
  ghost predicate FirstCheapest(p: Problem, cs: seq<Vec>, i: nat)
    requires p.Valid() && forall d :: d in cs ==> |d| == |p.k|
  {
    && i < |cs| && p.Tolerated(cs[i]) && p.Cost(cs[i]) < LARGE_COST
    && (forall j :: 0 <= j < |cs| && p.Tolerated(cs[j]) ==> p.Cost(cs[i]) <= p.Cost(cs[j]))
    && (forall j :: 0 <= j < i && p.Tolerated(cs[j]) ==> p.Cost(cs[i]) < p.Cost(cs[j]))
  }

  lemma {:induction false} InTurnPicksFirst(p: Problem, cs: seq<Vec>) returns (i: nat)
    requires p.Valid() && forall d :: d in cs ==> |d| == |p.k|
    ensures var c := TryInTurn(p, cs);
            if FirstCheapest(p, cs, i) then c == Choice(cs[i], p.Cost(cs[i]))
            else c == Start(p) && forall j :: 0 <= j < |cs| && p.Tolerated(cs[j]) ==> p.Cost(cs[j]) >= LARGE_COST
  {
    hide Problem.Tolerated, Problem.Cost;
    i := 0;
    if cs != [] {
      var last, rest := |cs| - 1, cs[..|cs| - 1];
      i := InTurnPicksFirst(p, rest);
      var before := TryInTurn(p, rest);
      if p.Tolerated(cs[last]) && p.Cost(cs[last]) < before.cost {
        i := last;
      }
    }
  }

  /** Of several cheapest candidates the first one tried is kept. */
  lemma SolvePicksFirst(p: Problem) returns (i: nat)
    requires p.Valid() && Solve(p) != Start(p)
    ensures i < |Candidates(p)| && Candidates(p)[i] == Solve(p).best
    ensures forall j :: 0 <= j < |Candidates(p)| ==>
              var d := Candidates(p)[j];
              && |d| == |p.k|
              && (-0.01 <= d[p.idx] <= 100.01 && Dot(d, p.k) >= p.liRef - p.residual - 0.01 ==>
                    if j < i then p.Cost(d) > p.Cost(Candidates(p)[i]) else p.Cost(d) >= p.Cost(Candidates(p)[i]))
  {
    SolveInTurn(p);
    i := InTurnPicksFirst(p, Candidates(p));
    var cs := Candidates(p);
    assert forall j :: 0 <= j < |cs| ==> cs[j] in cs;
    hide Candidates, Problem.Cost, Solve;
  }
}
