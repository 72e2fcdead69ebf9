/** How far the nodes drift apart: with whole vectors in one frame, the multipliers of all nodes sum to
    zero but for the quantisation error of what was sent, and any two nodes' averages of one round
    differ by at most that of two values. */
module ConsensusDrift {
  import opened Vectors
  import opened FixedPoint
  import opened Framing
  import opened ConsensusNode
  import opened ConsensusProtocol
  import opened ConsensusResults

  // Entry `slot` at round `q`, across the nodes.

  ghost predicate HasRound(nd: Node, q: nat, slot: nat) {
    Sends(nd, q, slot) && q < |nd.avs| && slot < |nd.avs[q]|
  }

  ghost predicate HasMultiplier(nd: Node, t: nat, slot: nat) {
    t < |nd.lams| && slot < |nd.lams[t]|
  }

  ghost function SentColumn(nodes: seq<Node>, q: nat, slot: nat): (v: Vec)
    requires forall p :: 0 <= p < |nodes| ==> HasRound(nodes[p], q, slot)
    ensures |v| == |nodes|
  {
    seq(|nodes|, p requires 0 <= p < |nodes| => assert HasRound(nodes[p], q, slot); At(nodes[p].sent, q, slot))
  }

  ghost function ReceivedColumn(nodes: seq<Node>, q: nat, slot: nat): (v: Vec)
    requires forall p :: 0 <= p < |nodes| ==> HasRound(nodes[p], q, slot)
    ensures |v| == |nodes|
  {
    AsReceived(SentColumn(nodes, q, slot))
  }

  ghost function AverageColumn(nodes: seq<Node>, q: nat, slot: nat): (v: Vec)
    requires forall p :: 0 <= p < |nodes| ==> HasRound(nodes[p], q, slot)
    ensures |v| == |nodes|
  {
    seq(|nodes|, p requires 0 <= p < |nodes| => assert HasRound(nodes[p], q, slot); At(nodes[p].avs, q, slot))
  }

  ghost function MultiplierColumn(nodes: seq<Node>, t: nat, slot: nat): (v: Vec)
    requires forall p :: 0 <= p < |nodes| ==> HasMultiplier(nodes[p], t, slot)
    ensures |v| == |nodes|
  {
    seq(|nodes|, p requires 0 <= p < |nodes| => assert HasMultiplier(nodes[p], t, slot); At(nodes[p].lams, t, slot))
  }

  /** Everybody has done at least `t` updates. */
  ghost predicate AllUpdated(nodes: seq<Node>, t: nat) {
    forall p :: 0 <= p < |nodes| ==> t <= |nodes[p].avs|
  }

  lemma RoundsExist(cfg: seq<Config>, s: Sys, t: nat, slot: nat)
    requires Inv(cfg, s) && AllUpdated(s.nodes, t) && slot < |cfg|
    ensures |s.nodes| == |cfg|
    ensures forall q, p :: 0 <= q < t && 0 <= p < |cfg| ==> HasRound(s.nodes[p], q, slot)
    ensures forall q, p :: 0 <= q <= t && 0 <= p < |cfg| ==> HasMultiplier(s.nodes[p], q, slot)
  {
    hide Holds, Barrier.Inv;
    forall p | 0 <= p < |cfg|
      ensures forall q :: 0 <= q < t ==> HasRound(s.nodes[p], q, slot)
      ensures forall q :: 0 <= q <= t ==> HasMultiplier(s.nodes[p], q, slot)
    {
      NodeFacts(cfg, s, p);
      HoldsHistory(Rxs(s), cfg[p], s.bar.members[p], s.nodes[p]);
    }
  }

  // One round.

  /** The other nodes' received values are all of them but one's own. */
  lemma {:induction false} AllButOwn(nodes: seq<Node>, j: nat, q: nat, slot: nat, m: nat)
    requires m <= |nodes| && j < |nodes| && forall p :: 0 <= p < |nodes| ==> HasRound(nodes[p], q, slot)
    requires forall p :: 0 <= p < |nodes| ==> Sends(nodes[p], q, slot)
    ensures ReceivedFrom(nodes, j, q, slot, m)
         == Sum(ReceivedColumn(nodes, q, slot), m) - if j < m then ReceivedColumn(nodes, q, slot)[j] else 0.0
  {
    if m > 0 {
      AllButOwn(nodes, j, q, slot, m - 1);
    }
  }

  /** The update of one round, column by column. */
  ghost predicate Round(rho: real, count: nat, sent: Vec, rx: Vec, av: Vec, lam: Vec, lam': Vec) {
    && |sent| == |rx| == |av| == |lam| == |lam'|
    && forall p :: 0 <= p < |sent| ==>
         && av[p] == NewAverage(Total(rx) - rx[p], sent[p], count)
         && lam'[p] == NewMultiplier(lam[p], rho, sent[p], av[p])
  }

  lemma RoundOf(cfg: seq<Config>, s: Sys, q: nat, slot: nat)
    requires Inv(cfg, s) && |s.nodes| == |cfg| && AllUpdated(s.nodes, q + 1) && slot < |cfg|
    requires forall p :: 0 <= p < |s.nodes| ==> HasRound(s.nodes[p], q, slot)
    requires forall p :: 0 <= p < |s.nodes| ==> HasMultiplier(s.nodes[p], q, slot) && HasMultiplier(s.nodes[p], q + 1, slot)
    ensures Round(cfg[0].rho, Expected(|cfg|), SentColumn(s.nodes, q, slot), ReceivedColumn(s.nodes, q, slot), AverageColumn(s.nodes, q, slot),
                  MultiplierColumn(s.nodes, q, slot), MultiplierColumn(s.nodes, q + 1, slot))
  {
    hide Holds, Barrier.Inv, Inv;
    forall p | 0 <= p < |cfg|
      ensures ExactUpdate(|cfg|, cfg[0].rho, s.nodes, p, q, slot)
      ensures ReceivedFrom(s.nodes, p, q, slot, |cfg|)
           == Total(ReceivedColumn(s.nodes, q, slot)) - ReceivedColumn(s.nodes, q, slot)[p]
    {
      UpdateFacts(cfg, s, p, q, slot);
      AllButOwn(s.nodes, p, q, slot, |cfg|);
    }
  }

  lemma RoundDrift(rho: real, sent: Vec, rx: Vec, av: Vec, lam: Vec, lam': Vec)
    requires 1 <= |sent| <= 3 && Round(rho, |sent| - 1, sent, rx, av, lam, lam')
    ensures |sent| as real * Total(lam') == |sent| as real * Total(lam) + rho * ((|sent| - 1) as real * (Total(sent) - Total(rx)))
  {
    hide NewAverage, NewMultiplier, Total;
    MultiplierTotal(rho, |sent| - 1, sent, rx, av, lam, lam');
    GapTotal(sent, rx, av);
    Scale(|sent| as real, rho, Total(sent) - Total(av), (|sent| - 1) as real * (Total(sent) - Total(rx)), Total(lam), Total(lam'));
  }

  lemma Scale(n: real, rho: real, g: real, e: real, lam: real, lam': real)
    requires lam' == lam + rho * g && n * g == e
    ensures n * lam' == n * lam + rho * e
  {
    assert n * (rho * g) == rho * (n * g);
  }

  lemma GapTotal(sent: Vec, rx: Vec, av: Vec)
    requires 1 <= |sent| <= 3 && |sent| == |rx| == |av|
    requires forall p :: 0 <= p < |sent| ==> av[p] == NewAverage(Total(rx) - rx[p], sent[p], |sent| - 1)
    ensures |sent| as real * (Total(sent) - Total(av)) == (|sent| - 1) as real * (Total(sent) - Total(rx))
  {
    if |sent| == 1 {
      Unfold1(sent); Unfold1(rx); Unfold1(av);
    } else if |sent| == 2 {
      Unfold2(sent); Unfold2(rx); Unfold2(av);
    } else {
      Unfold3(sent); Unfold3(rx); Unfold3(av);
    }
  }

  lemma Unfold1(s: Vec)
    requires |s| == 1
    ensures Total(s) == s[0]
  {
    SumStep(s, 1);
    assert Sum(s, 0) == 0.0;
  }

  lemma Unfold2(s: Vec)
    requires |s| == 2
    ensures Total(s) == s[0] + s[1]
  {
    SumStep(s, 2);
    SumStep(s, 1);
    assert Sum(s, 0) == 0.0;
  }

  lemma Unfold3(s: Vec)
    requires |s| == 3
    ensures Total(s) == s[0] + s[1] + s[2]
  {
    SumStep(s, 3);
    SumStep(s, 2);
    SumStep(s, 1);
    assert Sum(s, 0) == 0.0;
  }

  lemma SumStep(s: Vec, m: nat)
    requires 0 < m <= |s|
    ensures Sum(s, m) == Sum(s, m - 1) + s[m - 1]
  {
  }

  // All rounds.

  /** What quantisation took from the values sent in the first `t` rounds, over all nodes. */
  ghost function Lost(nodes: seq<Node>, t: nat, slot: nat): real
    requires forall q, p :: 0 <= q < t && 0 <= p < |nodes| ==> HasRound(nodes[p], q, slot)
  {
    if t == 0 then 0.0
    else Lost(nodes, t - 1, slot) + (Total(SentColumn(nodes, t - 1, slot)) - Total(ReceivedColumn(nodes, t - 1, slot)))
  }

  /** The multipliers of all nodes after `t` updates sum to exactly rho (n - 1) / n times what
      quantisation took. */
  lemma {:induction false} DriftExact(cfg: seq<Config>, s: Sys, t: nat, slot: nat)
    requires Inv(cfg, s) && |cfg| <= 3 && AllUpdated(s.nodes, t) && slot < |cfg|
    ensures forall q, p :: 0 <= q < t && 0 <= p < |cfg| ==> HasRound(s.nodes[p], q, slot)
    ensures forall p :: 0 <= p < |cfg| ==> HasMultiplier(s.nodes[p], t, slot)
    ensures |cfg| as real * Total(MultiplierColumn(s.nodes, t, slot))
         == cfg[0].rho * ((|cfg| - 1) as real * Lost(s.nodes, t, slot))
  {
    hide Holds, Barrier.Inv, Inv, Round, SentColumn, ReceivedColumn, AverageColumn, MultiplierColumn, HasRound, HasMultiplier, AllUpdated;
    var n := |cfg|;
    FewerUpdates(s.nodes, t);
    RoundsExist(cfg, s, t, slot);
    if t == 0 {
      StartMultipliers(cfg, s, slot);
    } else {
      DriftExact(cfg, s, t - 1, slot);
      RoundOf(cfg, s, t - 1, slot);
      DivisorIsNodes(n);
      RoundDrift(cfg[0].rho, SentColumn(s.nodes, t - 1, slot), ReceivedColumn(s.nodes, t - 1, slot),
                 AverageColumn(s.nodes, t - 1, slot), MultiplierColumn(s.nodes, t - 1, slot), MultiplierColumn(s.nodes, t, slot));
      Accumulate(cfg[0].rho, (n - 1) as real, Lost(s.nodes, t - 1, slot),
                 Total(SentColumn(s.nodes, t - 1, slot)) - Total(ReceivedColumn(s.nodes, t - 1, slot)));
    }
  }

  lemma Accumulate(rho: real, m: real, lost: real, more: real)
    ensures rho * (m * (lost + more)) == rho * (m * lost) + rho * (m * more)
  {
    Distribute(m, lost, more);
    Distribute(rho, m * lost, m * more);
  }

  lemma FewerUpdates(nodes: seq<Node>, t: nat)
    requires AllUpdated(nodes, t)
    ensures forall q: nat :: q <= t ==> AllUpdated(nodes, q)
  {
  }

  lemma StartMultipliers(cfg: seq<Config>, s: Sys, slot: nat)
    requires Inv(cfg, s) && slot < |cfg|
    requires forall p :: 0 <= p < |cfg| ==> HasMultiplier(s.nodes[p], 0, slot)
    ensures Total(MultiplierColumn(s.nodes, 0, slot)) == 0.0
  {
    hide Holds, Barrier.Inv;
    var lams := MultiplierColumn(s.nodes, 0, slot);
    forall p | 0 <= p < |cfg| ensures lams[p] == Const(|cfg|, 0.0)[p] {
      NodeFacts(cfg, s, p);
      HoldsHistory(Rxs(s), cfg[p], s.bar.members[p], s.nodes[p]);
    }
    SumConst(|cfg|, 0.0, |cfg|);
    SumPrefix(lams, Const(|cfg|, 0.0), |cfg|);
  }

  /** Every value sent in the first `t` rounds at `slot` lies in the coded range. */
  ghost predicate InRange(nodes: seq<Node>, t: nat, slot: nat) {
    forall q, p :: 0 <= q < t && 0 <= p < |nodes| && Sends(nodes[p], q, slot) ==> -300.0 <= At(nodes[p].sent, q, slot) <= 300.0
  }

  ghost function Allowance(t: nat, each: real): real {
    t as real * each
  }

  lemma {:induction false} LostBound(nodes: seq<Node>, t: nat, slot: nat, each: real)
    requires forall q, p :: 0 <= q < t && 0 <= p < |nodes| ==> HasRound(nodes[p], q, slot)
    requires InRange(nodes, t, slot) && each == |nodes| as real * HALF_STEP
    ensures -Allowance(t, each) <= Lost(nodes, t, slot) <= Allowance(t, each)
  {
    if t > 0 {
      hide InRange, Lost, Allowance;
      LostBound(nodes, t - 1, slot, each);
      RoundLost(nodes, t, slot, each);
      OneMore(t, each);
    }
  }

  lemma OneMore(t: nat, each: real)
    requires t > 0
    ensures Allowance(t, each) == Allowance(t - 1, each) + each
  {
  }

  lemma RoundLost(nodes: seq<Node>, t: nat, slot: nat, each: real)
    requires t > 0 && forall q, p :: 0 <= q < t && 0 <= p < |nodes| ==> HasRound(nodes[p], q, slot)
    requires InRange(nodes, t, slot) && each == |nodes| as real * HALF_STEP
    ensures -each <= Lost(nodes, t, slot) - Lost(nodes, t - 1, slot) <= each
  {
    var sent := SentColumn(nodes, t - 1, slot);
    forall p | 0 <= p < |nodes| ensures -300.0 <= sent[p] <= 300.0 {
      assert HasRound(nodes[p], t - 1, slot);
    }
    ReceivedTotal(sent, |nodes|);
  }

  lemma {:induction false} ReceivedTotal(sent: Vec, m: nat)
    requires m <= |sent| && forall p :: 0 <= p < |sent| ==> -300.0 <= sent[p] <= 300.0
    ensures -(m as real * HALF_STEP) <= Sum(sent, m) - Sum(AsReceived(sent), m) <= m as real * HALF_STEP
  {
    if m > 0 {
      ReceivedTotal(sent, m - 1);
      ReceivedNear(sent[m - 1]);
      assert m as real * HALF_STEP == (m - 1) as real * HALF_STEP + HALF_STEP;
    }
  }

  /** In every run with at most three nodes: after `t` updates everywhere the multipliers sum, per
      entry, to at most t rho (n - 1) 150 / 32767 in absolute value. */
  lemma DriftBound(cfg: seq<Config>, states: seq<Sys>, steps: seq<Step>, k: nat, t: nat, slot: nat)
    requires Run(cfg, states, steps) && k < |states| && |cfg| <= 3 && slot < |cfg|
    requires AllUpdated(states[k].nodes, t) && InRange(states[k].nodes, t, slot)
    ensures |states[k].nodes| == |cfg| && forall p :: 0 <= p < |cfg| ==> HasMultiplier(states[k].nodes[p], t, slot)
    ensures var bound := t as real * cfg[0].rho * (|cfg| - 1) as real * (150.0 / 32767.0);
            -bound <= Total(MultiplierColumn(states[k].nodes, t, slot)) <= bound
  {
    hide Holds, Barrier.Inv, Lost;
    RunInv(cfg, states, steps, k);
    var s := states[k];
    DriftExact(cfg, s, t, slot);
    LostBound(s.nodes, t, slot, |cfg| as real * HALF_STEP);
    BoundScale(|cfg|, t as real, cfg[0].rho, Lost(s.nodes, t, slot), Total(MultiplierColumn(s.nodes, t, slot)));
  }

  lemma BoundScale(n: nat, t: real, rho: real, lost: real, lam: real)
    requires 1 <= n <= 3 && rho > 0.0
    requires n as real * lam == rho * ((n - 1) as real * lost)
    requires -(t * (n as real * HALF_STEP)) <= lost <= t * (n as real * HALF_STEP)
    ensures var bound := t * rho * (n - 1) as real * (150.0 / 32767.0); -bound <= lam <= bound
  {
    var h := t * HALF_STEP;
    assert t * (n as real * HALF_STEP) == n as real * h;
    Positive(rho, n as real * h - lost);
    Positive(rho, n as real * h + lost);
    assert rho * (n as real * h - lost) == n as real * (rho * h) - rho * lost;
    assert rho * (n as real * h + lost) == n as real * (rho * h) + rho * lost;
    assert t * rho * (n - 1) as real * HALF_STEP == (n - 1) as real * (rho * h);
    assert rho * ((n - 1) as real * lost) == (n - 1) as real * (rho * lost);
  }

  /** Without quantisation error there is no drift at all. */
  lemma NoDrift(cfg: seq<Config>, states: seq<Sys>, steps: seq<Step>, k: nat, t: nat, slot: nat)
    requires Run(cfg, states, steps) && k < |states| && |cfg| <= 3 && slot < |cfg|
    requires AllUpdated(states[k].nodes, t)
    requires forall q, p :: 0 <= q < t && 0 <= p < |states[k].nodes| && Sends(states[k].nodes[p], q, slot) ==>
               Received(At(states[k].nodes[p].sent, q, slot)) == At(states[k].nodes[p].sent, q, slot)
    ensures |states[k].nodes| == |cfg| && forall p :: 0 <= p < |cfg| ==> HasMultiplier(states[k].nodes[p], t, slot)
    ensures Total(MultiplierColumn(states[k].nodes, t, slot)) == 0.0
  {
    hide Holds, Barrier.Inv;
    RunInv(cfg, states, steps, k);
    var s := states[k];
    DriftExact(cfg, s, t, slot);
    NothingLost(s.nodes, t, slot);
  }

  lemma {:induction false} NothingLost(nodes: seq<Node>, t: nat, slot: nat)
    requires forall q, p :: 0 <= q < t && 0 <= p < |nodes| ==> HasRound(nodes[p], q, slot)
    requires forall q, p :: 0 <= q < t && 0 <= p < |nodes| && Sends(nodes[p], q, slot) ==>
               Received(At(nodes[p].sent, q, slot)) == At(nodes[p].sent, q, slot)
    ensures Lost(nodes, t, slot) == 0.0
  {
    if t > 0 {
      NothingLost(nodes, t - 1, slot);
      assert forall p :: 0 <= p < |nodes| ==> HasRound(nodes[p], t - 1, slot);
      assert ReceivedColumn(nodes, t - 1, slot) == SentColumn(nodes, t - 1, slot);
    }
  }

  // More than three nodes.

  /** A round in which nothing is lost leaves the sum of the multipliers alone exactly when the values
      sent sum to zero or the divisor is the number of nodes. */
  lemma RoundBalance(rho: real, count: nat, sent: Vec, av: Vec, lam: Vec, lam': Vec)
    requires sent != [] && rho > 0.0 && Round(rho, count, sent, sent, av, lam, lam')
    ensures Total(lam') == Total(lam) <==> Total(sent) == 0.0 || count + 1 == |sent|
  {
    hide NewAverage, NewMultiplier, Total;
    var n, total := |sent|, Total(sent);
    var each := total / (count + 1) as real;
    MultiplierTotal(rho, count, sent, sent, av, lam, lam');
    AverageTotal(rho, count, sent, av, lam, lam', each);
    Balance(rho, n, count, total, each);
    SameGap(rho, total, Total(av), n as real * each);
  }

  lemma SameGap(rho: real, total: real, avs: real, product: real)
    requires avs == product
    ensures rho * (total - avs) == rho * (total - product)
  {
  }

  /** The multipliers grow by rho times what the values exceed the averages by. */
  lemma MultiplierTotal(rho: real, count: nat, sent: Vec, rx: Vec, av: Vec, lam: Vec, lam': Vec)
    requires Round(rho, count, sent, rx, av, lam, lam')
    ensures Total(lam') == Total(lam) + rho * (Total(sent) - Total(av))
  {
    hide NewAverage, NewMultiplier, Total;
    var g := Minus(sent, av);
    forall p | 0 <= p < |sent| ensures lam'[p] == lam[p] + Scaled(rho, g)[p] {
      MultiplierMoves(lam[p], rho, sent[p], av[p], g[p]);
    }
    TotalMoves(rho, lam, g, lam');
    TotalGap(sent, av, g);
    SameProduct(rho, Total(g), Total(sent) - Total(av));
  }

  lemma TotalMoves(rho: real, lam: Vec, g: Vec, lam': Vec)
    requires |lam| == |g| == |lam'| && forall p :: 0 <= p < |lam| ==> lam'[p] == lam[p] + Scaled(rho, g)[p]
    ensures Total(lam') == Total(lam) + rho * Total(g)
  {
    hide Scaled;
    SumScaled(rho, g, |g|);
    SumAdd(lam, Scaled(rho, g), lam', |g|);
  }

  lemma TotalGap(sent: Vec, av: Vec, g: Vec)
    requires |sent| == |av| == |g| && forall p :: 0 <= p < |sent| ==> g[p] == sent[p] - av[p]
    ensures Total(g) == Total(sent) - Total(av)
  {
    SumAdd(g, av, sent, |sent|);
  }

  lemma MultiplierMoves(lam: real, rho: real, best: real, av: real, g: real)
    requires g == best - av
    ensures NewMultiplier(lam, rho, best, av) == lam + rho * g
  {
    SameProduct(rho, g, best - av);
  }

  /** Without loss all averages are equal. */
  lemma AverageTotal(rho: real, count: nat, sent: Vec, av: Vec, lam: Vec, lam': Vec, each: real)
    requires Round(rho, count, sent, sent, av, lam, lam') && each == Total(sent) / (count + 1) as real
    ensures Total(av) == |sent| as real * each
  {
    hide NewAverage, NewMultiplier;
    var n := |sent|;
    forall p | 0 <= p < n ensures av[p] == Const(n, each)[p] {
      SameAverage(Total(sent), sent[p], count);
    }
    SumPrefix(av, Const(n, each), n);
    SumConst(n, each, n);
  }

  lemma SameAverage(total: real, own: real, count: nat)
    ensures NewAverage(total - own, own, count) == total / (count + 1) as real
  {
    assert (total - own) + own == total;
  }

  lemma Balance(rho: real, n: nat, count: nat, total: real, each: real)
    requires rho > 0.0 && each == total / (count + 1) as real
    ensures rho * (total - n as real * each) == 0.0 <==> total == 0.0 || count + 1 == n
  {
    var d := (count + 1) as real;
    assert total == d * each;
    assert total - n as real * each == (d - n as real) * each;
    if rho * (total - n as real * each) == 0.0 {
      ZeroProduct(rho, total - n as real * each);
      ZeroProduct(d - n as real, each);
    }
  }

  /** In every run with any number of nodes: an update round whose values all travel unchanged keeps the
      sum of the multipliers exactly when there are at most three nodes or the values sum to zero. */
  lemma BalanceKept(cfg: seq<Config>, states: seq<Sys>, steps: seq<Step>, k: nat, q: nat, slot: nat)
    requires Run(cfg, states, steps) && k < |states| && slot < |cfg| && AllUpdated(states[k].nodes, q + 1)
    requires forall p :: 0 <= p < |states[k].nodes| && Sends(states[k].nodes[p], q, slot) ==>
               Received(At(states[k].nodes[p].sent, q, slot)) == At(states[k].nodes[p].sent, q, slot)
    ensures |states[k].nodes| == |cfg|
    ensures forall p :: 0 <= p < |cfg| ==> HasRound(states[k].nodes[p], q, slot) && HasMultiplier(states[k].nodes[p], q, slot)
    ensures forall p :: 0 <= p < |cfg| ==> HasMultiplier(states[k].nodes[p], q + 1, slot)
    ensures Total(MultiplierColumn(states[k].nodes, q + 1, slot)) == Total(MultiplierColumn(states[k].nodes, q, slot))
            <==> |cfg| <= 3 || Total(SentColumn(states[k].nodes, q, slot)) == 0.0
  {
    hide Holds, Barrier.Inv, Round;
    RunInv(cfg, states, steps, k);
    var nodes := states[k].nodes;
    RoundsExist(cfg, states[k], q + 1, slot);
    RoundOf(cfg, states[k], q, slot);
    assert forall p :: 0 <= p < |nodes| ==> HasRound(nodes[p], q, slot);
    assert ReceivedColumn(nodes, q, slot) == SentColumn(nodes, q, slot);
    RoundBalance(cfg[0].rho, Expected(|cfg|), SentColumn(nodes, q, slot), AverageColumn(nodes, q, slot),
                 MultiplierColumn(nodes, q, slot), MultiplierColumn(nodes, q + 1, slot));
    DivisorIsNodes(|cfg|);
  }

  lemma {:induction false} Everybody(nodes: seq<Node>, j: nat, q: nat, slot: nat, m: nat)
    requires m <= |nodes| && j < |nodes| && forall p :: 0 <= p < |nodes| ==> Sends(nodes[p], q, slot)
    ensures ReceivedFrom(nodes, j, q, slot, m)
         == ReceivedFrom(nodes, |nodes|, q, slot, m) - if j < m then Received(At(nodes[j].sent, q, slot)) else 0.0
  {
    if m > 0 {
      Everybody(nodes, j, q, slot, m - 1);
    }
  }

  /** Any two nodes' averages of the same round differ by at most 300 / (32767 n), as soon as the two
      have them. */
  lemma AveragesNear(cfg: seq<Config>, states: seq<Sys>, steps: seq<Step>, k: nat, q: nat, slot: nat, i: nat, j: nat)
    requires Run(cfg, states, steps) && k < |states| && |cfg| <= 3 && slot < |cfg| && i < |cfg| && j < |cfg|
    requires |states[k].nodes| == |cfg| && q < |states[k].nodes[i].avs| && q < |states[k].nodes[j].avs|
    requires InRange([states[k].nodes[i], states[k].nodes[j]], q + 1, slot)
    ensures HasRound(states[k].nodes[i], q, slot) && HasRound(states[k].nodes[j], q, slot)
    ensures At(states[k].nodes[i].avs, q, slot) - At(states[k].nodes[j].avs, q, slot) <= 300.0 / (32767.0 * |cfg| as real)
  {
    hide Inv, NewMultiplier, NewAverage, Received;
    RunInv(cfg, states, steps, k);
    var nodes := states[k].nodes;
    var pair := [nodes[i], nodes[j]];
    UpdateFacts(cfg, states[k], i, q, slot);
    UpdateFacts(cfg, states[k], j, q, slot);
    Everybody(nodes, i, q, slot, |cfg|);
    Everybody(nodes, j, q, slot, |cfg|);
    DivisorIsNodes(|cfg|);
    assert Sends(pair[0], q, slot) && Sends(pair[1], q, slot);
    ReceivedNear(At(nodes[i].sent, q, slot));
    ReceivedNear(At(nodes[j].sent, q, slot));
    AverageGap(|cfg|, ReceivedFrom(nodes, |cfg|, q, slot, |cfg|), Received(At(nodes[i].sent, q, slot)), At(nodes[i].sent, q, slot),
               Received(At(nodes[j].sent, q, slot)), At(nodes[j].sent, q, slot));
  }

  lemma AverageGap(n: nat, total: real, rxi: real, senti: real, rxj: real, sentj: real)
    requires 1 <= n <= 3 && -HALF_STEP <= rxi - senti <= HALF_STEP && -HALF_STEP <= rxj - sentj <= HALF_STEP
    ensures NewAverage(total - rxi, senti, n - 1) - NewAverage(total - rxj, sentj, n - 1) <= 300.0 / (32767.0 * n as real)
  {
  }
}
