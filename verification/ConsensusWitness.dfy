/** A run in which the divisor of the averages shows: four nodes whose multipliers drift although nothing
    is lost to quantisation. */
module ConsensusWitness {
  import opened Vectors
  import opened Solver
  import opened FixedPoint
  import opened Framing
  import opened ConsensusNode
  import opened ConsensusProtocol
  import opened ConsensusResults
  import opened ConsensusDrift
  import opened ConsensusLiveness
  import Barrier

  /** A reference that the bus carries exactly. */
  const LEVEL: real := 3000.0 * 300.0 / 32767.0

  /** A node lit only by its own LED, with free energy and no residual light. */
  ghost function Alone(n: nat, idx: nat): Config {
    Config(n, idx, 1.0, 0.0, Unit(n, idx, 1.0), LEVEL, 0.0)
  }

  ghost function FirstProblem(n: nat, idx: nat): Problem {
    Alone(n, idx).ProblemAt(Const(n, 0.0), Const(n, 0.0))
  }

  // Its first solve.

  lemma DotUnit(n: nat, idx: nat, v: real)
    requires idx < n
    ensures Dot(Unit(n, idx, v), Unit(n, idx, 1.0)) == v
  {
    assert Times(Unit(n, idx, v), Unit(n, idx, 1.0)) == Unit(n, idx, v);
    SumUnit(n, idx, v, n);
  }

  lemma DotZero(v: Vec)
    ensures Dot(Const(|v|, 0.0), v) == 0.0
  {
    assert Times(Const(|v|, 0.0), v) == Const(|v|, 0.0);
    SumConst(|v|, 0.0, |v|);
  }

  /** With nothing averaged yet the cost is half the squared norm. */
  lemma FirstCost(n: nat, idx: nat, v: real)
    requires idx < n
    ensures FirstProblem(n, idx).Cost(Unit(n, idx, v)) == v * v / 2.0
  {
    var p, d := FirstProblem(n, idx), Unit(n, idx, v);
    assert Minus(d, p.av) == d;
    DotZero(d);
    forall i | 0 <= i < n ensures Squares(d)[i] == Unit(n, idx, v * v)[i] {
      SameSquare(d[i], if i == idx then v else 0.0);
    }
    assert Squares(d) == Unit(n, idx, v * v);
    SumUnit(n, idx, v * v, n);
    assert p.Cost(d) == CostOf(0.0, v, 0.0, 1.0, v * v);
    assert 1.0 / 2.0 * (v * v) == v * v / 2.0;
  }

  lemma SameSquare(a: real, b: real)
    requires a == b
    ensures a * a == b * b
  {
  }

  lemma FirstCandidates(n: nat, idx: nat)
    requires idx < n
    ensures var p := FirstProblem(n, idx);
            && p.KiNorm() == 1.0 && p.KinormKiiDiff() == 0.0
            && p.Unconstrained() == Unit(n, idx, 0.0)
            && p.OnLinear() == Unit(n, idx, LEVEL)
            && p.AtBound(0.0) == Unit(n, idx, 0.0) && p.AtBound(100.0) == Unit(n, idx, 100.0)
  {
    var p := FirstProblem(n, idx);
    DotUnit(n, idx, 1.0);
    assert p.k[idx] == 1.0;
    assert p.Z() == Const(n, 0.0);
    DotZero(p.k);
    forall i | 0 <= i < n ensures p.OnLinear()[i] == Unit(n, idx, LEVEL)[i] {
      assert p.OnLinear()[i] == LinearEntry(1.0, 0.0, p.k[i], 1.0, 0.0 - LEVEL, 0.0);
    }
  }

  /** The node asks for exactly the light it needs from itself and for nothing from the others. */
  lemma FirstSolve(n: nat, idx: nat)
    requires idx < n
    ensures Solve(FirstProblem(n, idx)).best == Unit(n, idx, LEVEL)
  {
    hide Problem.Cost, Problem.Unconstrained, Problem.OnLinear, Problem.AtBound, Dot;
    var p := FirstProblem(n, idx);
    FirstCandidates(n, idx);
    DotUnit(n, idx, 0.0);
    DotUnit(n, idx, LEVEL);
    DotUnit(n, idx, 100.0);
    FirstCost(n, idx, LEVEL);
    FirstCost(n, idx, 100.0);
  }

  // The run.

  ghost function FourNodes(): (cfg: seq<Config>)
    ensures ValidConfigs(cfg) && |cfg| == 4
  {
    [Alone(4, 0), Alone(4, 1), Alone(4, 2), Alone(4, 3)]
  }

  lemma FirstVector(cfg: seq<Config>, s: Sys, j: nat)
    requires Inv(cfg, s) && j < |cfg| && s.nodes[j].sent != []
    ensures s.nodes[j].sent[0] == Solve(cfg[j].ProblemAt(Const(|cfg|, 0.0), Const(|cfg|, 0.0))).best
  {
    hide Barrier.Inv, BusInv, Solve;
    NodeFacts(cfg, s, j);
    assert Answered(cfg[j], s.nodes[j], 0);
  }

  /** A complete run of four nodes in which every value of the first round travels unchanged, and yet the
      multipliers, which start at zero, no longer sum to zero after it. */
  lemma DriftHappens() returns (states: seq<Sys>, steps: seq<Step>)
    ensures Run(FourNodes(), states, steps)
    ensures var nodes := states[|steps|].nodes;
            && |nodes| == 4 && (forall p :: 0 <= p < 4 ==> Ended(nodes[p]))
            && (forall p :: 0 <= p < 4 ==> Sends(nodes[p], 0, 0) && Received(At(nodes[p].sent, 0, 0)) == At(nodes[p].sent, 0, 0))
            && (forall p :: 0 <= p < 4 ==> HasMultiplier(nodes[p], 0, 0) && HasMultiplier(nodes[p], 1, 0))
            && Total(MultiplierColumn(nodes, 0, 0)) == 0.0 && Total(MultiplierColumn(nodes, 1, 0)) != 0.0
  {
    hide Inv, Solve, Next, Received;
    var cfg := FourNodes();
    states, steps := Completed(cfg, [ConsensusProtocol.Start(4)], []);
    var k, s := |steps|, states[|steps|];
    RunInv(cfg, states, steps, k);
    forall p | 0 <= p < 4
      ensures s.nodes[p].sent != [] && s.nodes[p].sent[0] == Unit(4, p, LEVEL)
    {
      FirstVector(cfg, s, p);
      FirstSolve(4, p);
    }
    LevelTravels();
    RoundsExist(cfg, s, 1, 0);
    BalanceKept(cfg, states, steps, k, 0, 0);
    assert SentColumn(s.nodes, 0, 0) == Unit(4, 0, LEVEL);
    SumUnit(4, 0, LEVEL, 4);
    StartMultipliers(cfg, s, 0);
  }

  lemma LevelTravels()
    ensures Received(LEVEL) == LEVEL && Received(0.0) == 0.0
  {
    ReceivedExact(3000);
    ReceivedExact(0);
    assert Dequantise(3000) == LEVEL && Dequantise(0) == 0.0;
  }
}
