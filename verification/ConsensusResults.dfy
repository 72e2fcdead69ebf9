/** What holds of every run of the consensus rounds: lockstep, exact sums, bounded drift of the
    multipliers, progress and termination, bounded backlog, and the reference each node ends with. */
module ConsensusResults {
  import opened Vectors
  import opened Solver
  import opened FixedPoint
  import opened Framing
  import opened ConsensusNode
  import opened ConsensusProtocol
  import Barrier

  /** A run from the start: `states[k + 1]` follows from `states[k]` by `steps[k]`. */
  ghost predicate Run(cfg: seq<Config>, states: seq<Sys>, steps: seq<Step>) {
    && ValidConfigs(cfg)
    && |states| == |steps| + 1 && states[0] == ConsensusProtocol.Start(|cfg|)
    && forall k :: 0 <= k < |steps| ==> Moves(cfg, states[k], steps[k], states[k + 1])
  }

  ghost predicate Moves(cfg: seq<Config>, s: Sys, step: Step, s': Sys) {
    Sized(cfg, s) && Enabled(cfg, s, step) && s' == Next(cfg, s, step)
  }

  lemma {:induction false} RunInv(cfg: seq<Config>, states: seq<Sys>, steps: seq<Step>, k: nat)
    requires Run(cfg, states, steps) && k < |states|
    ensures Inv(cfg, states[k])
  {
    hide Inv, Enabled, Next;
    if k == 0 {
      StartInv(cfg);
    } else {
      RunInv(cfg, states, steps, k - 1);
      assert Moves(cfg, states[k - 1], steps[k - 1], states[k]);
      StepInv(cfg, states[k - 1], steps[k - 1]);
    }
  }

  /** What a state says of node `j`, for the proofs below. */
  lemma NodeFacts(cfg: seq<Config>, s: Sys, j: nat)
    requires Inv(cfg, s) && j < |cfg|
    ensures cfg[j].Valid() && cfg[j].n == |cfg| && cfg[j].idx == j
    ensures Barrier.Inv(s.bar, |cfg|, NumMessages(|cfg|))
    ensures Holds(Rxs(s), cfg[j], s.bar.members[j], s.nodes[j])
    ensures |s.nodes[j].avs| == s.bar.members[j].round
  {
  }

  // Lockstep.

  /** In every reachable state the numbers of updates done differ by at most one between any two
      nodes, and no node has counted more frames than it expects. */
  lemma Lockstep(cfg: seq<Config>, states: seq<Sys>, steps: seq<Step>, k: nat, i: nat, j: nat)
    requires Run(cfg, states, steps) && k < |states| && i < |cfg| && j < |cfg|
    ensures |states[k].nodes| == |cfg|
    ensures |states[k].nodes[j].avs| <= |states[k].nodes[i].avs| + 1
    ensures states[k].nodes[j].local.numReceived <= ((|cfg| - 1) / 3 + 1) * (|cfg| - 1)
  {
    hide Holds, Barrier.Inv;
    RunInv(cfg, states, steps, k);
    var s := states[k];
    NodeFacts(cfg, s, i);
    NodeFacts(cfg, s, j);
    Barrier.Lockstep(s.bar, |cfg|, NumMessages(|cfg|), i, j);
    Barrier.CountIsEnough(s.bar, |cfg|, NumMessages(|cfg|), j);
    HoldsCount(Rxs(s), cfg[j], s.bar.members[j], s.nodes[j]);
    DivisorIsNodes(|cfg|);
    hide Expected;
  }

  lemma HoldsCount(rxs: seq<seq<Vec>>, c: Config, m: Barrier.Member, nd: Node)
    requires c.Valid() && Holds(rxs, c, m, nd)
    ensures nd.local.numReceived == |m.got|
  {
  }

  // What every update computed.

  ghost function At(vs: seq<Vec>, q: nat, slot: nat): real
    requires q < |vs| && slot < |vs[q]|
  {
    vs[q][slot]
  }

  /** The vectors of round `q` exist and have full length, and node `j`'s update of that round is the
      firmware's formula over exactly the other nodes' vectors of the round, each taken once. */
  ghost predicate ExactUpdate(n: nat, rho: real, nodes: seq<Node>, j: nat, q: nat, slot: nat)
    requires 1 <= n && j < n == |nodes|
  {
    && (forall i :: 0 <= i < n ==> Sends(nodes[i], q, slot))
    && q < |nodes[j].avs| && q + 1 < |nodes[j].lams|
    && slot < |nodes[j].avs[q]| && slot < |nodes[j].lams[q]| && slot < |nodes[j].lams[q + 1]|
    && At(nodes[j].avs, q, slot)
         == NewAverage(ReceivedFrom(nodes, j, q, slot, n), At(nodes[j].sent, q, slot), Expected(n))
    && At(nodes[j].lams, q + 1, slot)
         == NewMultiplier(At(nodes[j].lams, q, slot), rho, At(nodes[j].sent, q, slot), At(nodes[j].avs, q, slot))
  }

  /** The update of entry `slot` in round `q`, written out: `received` is the sum over the others. */
  ghost predicate SpelledOut(received: real, n: nat, rho: real, nd: Node, q: nat, slot: nat)
    requires 1 <= n && Sends(nd, q, slot) && q < |nd.avs| && q + 1 < |nd.lams|
    requires slot < |nd.avs[q]| && slot < |nd.lams[q]| && slot < |nd.lams[q + 1]|
  {
    && nd.avs[q][slot] == (received + nd.sent[q][slot]) / (((n - 1) / 3 + 1) * (n - 1) + 1) as real
    && nd.lams[q + 1][slot] == nd.lams[q][slot] + rho * (nd.sent[q][slot] - nd.avs[q][slot])
  }

  ghost predicate Sends(nd: Node, q: nat, slot: nat) {
    q < |nd.sent| && slot < |nd.sent[q]|
  }

  /** The sum over the first `m` nodes but `j` of entry `slot` of the vector sent in round `q`, each as
      the bus's fixed-point code delivers it. */
  ghost function ReceivedFrom(nodes: seq<Node>, j: nat, q: nat, slot: nat, m: nat): real
    requires m <= |nodes| && forall i :: 0 <= i < m ==> Sends(nodes[i], q, slot)
  {
    if m == 0 then 0.0
    else
      assert Sends(nodes[m - 1], q, slot);
      ReceivedFrom(nodes, j, q, slot, m - 1) + if m - 1 == j then 0.0 else Received(At(nodes[m - 1].sent, q, slot))
  }

  lemma {:induction false} OthersAreReceived(s: Sys, j: nat, q: nat, slot: nat, m: nat)
    requires m <= |s.nodes|
    requires forall i :: 0 <= i < m ==> Sends(s.nodes[i], q, slot) && RxMatches(s.nodes[i])
    ensures ReceivedFrom(s.nodes, j, q, slot, m) == Others(Rxs(s), j, q, slot, m)
  {
    if m > 0 {
      OthersAreReceived(s, j, q, slot, m - 1);
      assert RxMatches(s.nodes[m - 1]);
    }
  }

  ghost predicate RxMatches(nd: Node) {
    |nd.rx| == |nd.sent| && forall q :: 0 <= q < |nd.sent| ==> nd.rx[q] == AsReceived(nd.sent[q])
  }

  lemma HoldsHistory(rxs: seq<seq<Vec>>, c: Config, m: Barrier.Member, nd: Node)
    requires c.Valid() && Holds(rxs, c, m, nd)
    ensures RxMatches(nd) && VectorsSized(c.n, nd)
    ensures |nd.lams| == m.round + 1 && |nd.avs| == m.round && |nd.sent| == m.Latest()
    ensures nd.lams[0] == Const(c.n, 0.0)
    ensures forall q :: 0 <= q < m.round ==> UpdateInv(rxs, c, nd, q)
    ensures forall i :: 0 <= i < |rxs| && i != c.idx ==> m.round <= |rxs[i]|
  {
  }

  /** Every update in every reachable state used exactly its own round's vectors: the average is their
      sum over the number of frames expected plus one, and the multiplier moves by rho times the own
      vector's distance from it. */
  lemma ExactSums(cfg: seq<Config>, states: seq<Sys>, steps: seq<Step>, k: nat, j: nat, q: nat, slot: nat)
    requires Run(cfg, states, steps) && k < |states| && j < |cfg| == |states[k].nodes|
    requires q < |states[k].nodes[j].avs| && slot < |cfg|
    ensures ExactUpdate(|cfg|, cfg[0].rho, states[k].nodes, j, q, slot)
    ensures SpelledOut(ReceivedFrom(states[k].nodes, j, q, slot, |cfg|), |cfg|, cfg[0].rho, states[k].nodes[j], q, slot)
  {
    RunInv(cfg, states, steps, k);
    hide Inv, Run, Expected, NewAverage, NewMultiplier, ReceivedFrom, SpelledOut;
    UpdateFacts(cfg, states[k], j, q, slot);
    UpdateSpelledOut(ReceivedFrom(states[k].nodes, j, q, slot, |cfg|), |cfg|, cfg[0].rho, states[k].nodes[j], q, slot);
  }

  lemma UpdateSpelledOut(received: real, n: nat, rho: real, nd: Node, q: nat, slot: nat)
    requires 1 <= n && q < |nd.avs| && q + 1 < |nd.lams| && Sends(nd, q, slot)
    requires slot < |nd.avs[q]| && slot < |nd.lams[q]| && slot < |nd.lams[q + 1]|
    requires At(nd.avs, q, slot) == NewAverage(received, At(nd.sent, q, slot), Expected(n))
    requires At(nd.lams, q + 1, slot) == NewMultiplier(At(nd.lams, q, slot), rho, At(nd.sent, q, slot), At(nd.avs, q, slot))
    ensures SpelledOut(received, n, rho, nd, q, slot)
  {
  }

  lemma UpdateFacts(cfg: seq<Config>, s: Sys, j: nat, q: nat, slot: nat)
    requires Inv(cfg, s) && j < |cfg| && q < |s.nodes[j].avs| && slot < |cfg|
    ensures ExactUpdate(|cfg|, cfg[0].rho, s.nodes, j, q, slot)
  {
    hide Holds, Barrier.Inv;
    NodeFacts(cfg, s, j);
    HoldsHistory(Rxs(s), cfg[j], s.bar.members[j], s.nodes[j]);
    forall i | 0 <= i < |cfg| ensures Sends(s.nodes[i], q, slot) && RxMatches(s.nodes[i]) {
      NodeFacts(cfg, s, i);
      HoldsHistory(Rxs(s), cfg[i], s.bar.members[i], s.nodes[i]);
    }
    OthersAreReceived(s, j, q, slot, |cfg|);
    assert UpdateInv(Rxs(s), cfg[j], s.nodes[j], q);
  }

  // What every vector is.

  /** Every vector sent in a run is the solver's choice for the node's own gains, cost, reference and
      residual, with the averages and multipliers of its round; both are zero in the first. */
  lemma SolvesRound(cfg: seq<Config>, states: seq<Sys>, steps: seq<Step>, k: nat, j: nat, q: nat)
    requires Run(cfg, states, steps) && k < |states| && j < |cfg| == |states[k].nodes|
    requires q < |states[k].nodes[j].sent|
    ensures var nd := states[k].nodes[j];
            && cfg[j].Valid() && q <= |nd.avs| && q < |nd.lams| && nd.lams[0] == Const(|cfg|, 0.0)
            && var p := RoundProblem(j, cfg[j], nd, q);
               |p.av| == |p.lambda| == |cfg| && p.Valid() && nd.sent[q] == Solve(p).best
  {
    hide Barrier.Inv, BusInv, Solve, FlowInv;
    RunInv(cfg, states, steps, k);
    NodeFacts(cfg, states[k], j);
    assert Answered(cfg[j], states[k].nodes[j], q);
  }

  /** The problem node `j` solves in round `q`. */
  ghost function RoundProblem(j: nat, c: Config, nd: Node, q: nat): Problem
    requires q <= |nd.avs| && q < |nd.lams|
  {
    Problem(j, c.rho, c.cost, if q == 0 then Const(c.n, 0.0) else nd.avs[q - 1], nd.lams[q], c.k, c.liRef, c.residual)
  }

  /** So whenever a vector meets the node's exact constraints below the initial bound, the vector sent
      meets them within the tolerance and costs no more than any vector that meets them. */
  lemma SentIsOptimal(cfg: seq<Config>, states: seq<Sys>, steps: seq<Step>, k: nat, j: nat, q: nat, d: Vec)
    requires Run(cfg, states, steps) && k < |states| && j < |cfg| == |states[k].nodes|
    requires q < |states[k].nodes[j].sent| && q <= |states[k].nodes[j].avs| && q < |states[k].nodes[j].lams|
    requires RoundProblem(j, cfg[j], states[k].nodes[j], q).Valid() && |d| == |cfg[j].k| && |cfg| == |cfg[j].k|
    requires RoundProblem(j, cfg[j], states[k].nodes[j], q).Cost(d) < 100000.0
    requires 0.0 <= d[j] <= 100.0 && Dot(d, cfg[j].k) >= cfg[j].liRef - cfg[j].residual
    ensures var sent := states[k].nodes[j].sent[q];
            && |sent| == |cfg| && -0.01 <= sent[j] <= 100.01
            && Dot(sent, cfg[j].k) >= cfg[j].liRef - cfg[j].residual - 0.01
            && forall e :: |e| == |cfg| && 0.0 <= e[j] <= 100.0 && Dot(e, cfg[j].k) >= cfg[j].liRef - cfg[j].residual ==>
                 RoundProblem(j, cfg[j], states[k].nodes[j], q).Cost(sent) <= RoundProblem(j, cfg[j], states[k].nodes[j], q).Cost(e)
  {
    hide Solve, Dot, Problem.Cost, Run;
    SolvesRound(cfg, states, steps, k, j, q);
    SolveIsOptimal(RoundProblem(j, cfg[j], states[k].nodes[j], q), d);
  }

  // The divisor.

  /** The number of frames counted plus one is the number of nodes only while one frame carries a
      whole vector. */
  lemma DivisorIsNodes(n: nat)
    requires 1 <= n
    ensures ((n - 1) / 3 + 1) * (n - 1) + 1 == n <==> n <= 3
    ensures Expected(n) == ((n - 1) / 3 + 1) * (n - 1)
  {
    if n > 3 {
      var c := NumMessages(n);
      assert c >= 2;
      assert c * (n - 1) >= 2 * (n - 1);
    } else {
      assert NumMessages(n) == 1;
    }
  }

  /** So nodes that all send the same value agree on that value as their average exactly when there
      are at most three of them, or the value is zero. */
  lemma AverageOfEquals(n: nat, v: real)
    requires 1 <= n
    ensures ((n - 1) as real * v + v) / (((n - 1) / 3 + 1) * (n - 1) + 1) as real == v <==> n <= 3 || v == 0.0
  {
    hide Expected;
    DivisorIsNodes(n);
    OneMoreTime(n, v);
    SameQuotient(n as real, (Expected(n) + 1) as real, v);
  }

  lemma OneMoreTime(n: nat, v: real)
    requires 1 <= n
    ensures (n - 1) as real * v + v == n as real * v
  {
  }

  lemma SameQuotient(n: real, e: real, v: real)
    requires e > 0.0
    ensures n * v / e == v <==> n == e || v == 0.0
  {
    assert n * v / e == v <==> n * v == e * v;
    assert n * v - e * v == (n - e) * v;
    if (n - e) * v == 0.0 {
      ZeroProduct(n - e, v);
    }
  }
}
