/** Progress and termination of the consensus rounds, the backlog they cause, and the reference each
    node ends with. */
module ConsensusLiveness {
  import opened Vectors
  import opened Solver
  import opened Framing
  import opened ConsensusNode
  import opened ConsensusProtocol
  import opened ConsensusResults
  import Barrier
  import FrameStream

  // Progress.

  lemma HoldsPhase(rxs: seq<seq<Vec>>, c: Config, m: Barrier.Member, nd: Node)
    requires c.Valid() && Holds(rxs, c, m, nd)
    ensures m.round <= MAX_ITER
    ensures nd.local.phase == Off <==> m.round == MAX_ITER
    ensures nd.local.phase == Waiting <==> m.queued
    ensures nd.local.phase == Off || nd.local.phase == Iterate || nd.local.phase == Waiting
    ensures nd.local.numReceived == |m.got|
    ensures m.outbox != {} && m.Latest() > 0 ==> |nd.burst| == NumMessages(c.n)
  {
  }

  /** No deadlock: as long as some node is not off, some move is possible. This includes a single
      node, which expects no message. */
  lemma Progress(cfg: seq<Config>, s: Sys, stale: Payload) returns (step: Step)
    requires Inv(cfg, s) && exists j :: 0 <= j < |cfg| && s.nodes[j].local.phase != Off
    ensures Enabled(cfg, s, step)
  {
    hide Holds, Barrier.Inv, BusInv;
    forall i | 0 <= i < |cfg| ensures Phases(cfg[i], s.bar.members[i], s.nodes[i]) {
      NodeFacts(cfg, s, i);
      HoldsPhase(Rxs(s), cfg[i], s.bar.members[i], s.nodes[i]);
    }
    if j :| 0 <= j < |cfg| && s.bar.members[j].outbox != {} {
      step := AnyTransmit(cfg, s, j);
    } else if j :| 0 <= j < |cfg| && s.nodes[j].local.phase == Iterate {
      step := Main(j, stale);
    } else {
      step := AfterSending(cfg, s, stale);
    }
  }

  ghost predicate Phases(c: Config, m: Barrier.Member, nd: Node)
    requires c.Valid()
  {
    && m.round <= MAX_ITER
    && (nd.local.phase == Off <==> m.round == MAX_ITER)
    && (nd.local.phase == Waiting <==> m.queued)
    && (nd.local.phase == Off || nd.local.phase == Iterate || nd.local.phase == Waiting)
    && nd.local.numReceived == |m.got|
    && (m.outbox != {} && m.Latest() > 0 ==> |nd.burst| == NumMessages(c.n))
  }

  lemma AnyTransmit(cfg: seq<Config>, s: Sys, j: nat) returns (step: Step)
    requires Sized(cfg, s) && Barrier.Inv(s.bar, |cfg|, NumMessages(|cfg|)) && j < |cfg| && s.bar.members[j].outbox != {}
    requires Phases(cfg[j], s.bar.members[j], s.nodes[j])
    ensures Enabled(cfg, s, step)
  {
    var m := s.bar.members[j];
    assert Barrier.Sent(s.bar, NumMessages(|cfg|), j, m);
    var c :| c in m.outbox;
    assert c in Barrier.Chunks(NumMessages(|cfg|));
    step := Transmit(j, c);
  }

  /** Everything queued is on the bus and everybody waits or is off: a node with the least round has
      its count complete or a frame to consume. */
  lemma AfterSending(cfg: seq<Config>, s: Sys, stale: Payload) returns (step: Step)
    requires Sized(cfg, s) && Barrier.Inv(s.bar, |cfg|, NumMessages(|cfg|))
    requires forall i :: 0 <= i < |cfg| ==> Phases(cfg[i], s.bar.members[i], s.nodes[i]) && s.bar.members[i].outbox == {}
    requires forall i :: 0 <= i < |cfg| ==> s.nodes[i].local.phase != Iterate
    requires exists j :: 0 <= j < |cfg| && s.nodes[j].local.phase != Off
    ensures Enabled(cfg, s, step)
  {
    hide Barrier.Inv;
    var n := |cfg|;
    var j := Barrier.Laggard(s.bar.members, n);
    var i :| 0 <= i < n && s.nodes[i].local.phase != Off;
    assert Phases(cfg[i], s.bar.members[i], s.nodes[i]) && Phases(cfg[j], s.bar.members[j], s.nodes[j]);
    assert s.bar.members[j].round <= s.bar.members[i].round < MAX_ITER;
    if Complete(cfg[j], s.nodes[j]) {
      step := Main(j, stale);
    } else {
      Barrier.Undercounted(s.bar, n, NumMessages(n), j);
      Barrier.FrameAhead(s.bar, n, NumMessages(n), j);
      step := Deliver(j);
    }
  }

  // Termination.

  /** Frames of a whole run, per node and over all nodes. */
  ghost function AllFrames(n: nat): nat
    requires 1 <= n
  {
    MAX_ITER * (NumMessages(n) * n)
  }

  /** Moves left for one node, apart from its transmissions. */
  ghost function NodeLeft(n: nat, m: Barrier.Member): int
    requires 1 <= n
  {
    (AllFrames(n) - m.cursor) + (2 * MAX_ITER - m.round - m.Latest())
  }

  ghost function Left(n: nat, members: seq<Barrier.Member>, m: nat): int
    requires 1 <= n && m <= |members|
  {
    if m == 0 then 0 else Left(n, members, m - 1) + NodeLeft(n, members[m - 1])
  }

  /** An upper bound on the moves left in state `s`. */
  ghost function Measure(n: nat, s: Sys): int
    requires 1 <= n
  {
    AllFrames(n) - |s.bar.log| + Left(n, s.bar.members, |s.bar.members|)
  }

  lemma {:induction false} LeftChanges(n: nat, members: seq<Barrier.Member>, j: nat, m': Barrier.Member, m: nat)
    requires 1 <= n && m <= |members| && j < |members|
    ensures Left(n, members[j := m'], m) == Left(n, members, m) + if j < m then NodeLeft(n, m') - NodeLeft(n, members[j]) else 0
  {
    if m > 0 {
      LeftChanges(n, members, j, m', m - 1);
    }
  }

  /** Every move makes the measure smaller. */
  lemma MoveDecreases(cfg: seq<Config>, s: Sys, step: Step)
    requires Inv(cfg, s) && Enabled(cfg, s, step)
    ensures Measure(|cfg|, Next(cfg, s, step)) < Measure(|cfg|, s)
  {
    hide Holds, Barrier.Inv, BusInv;
    var n, s' := |cfg|, Next(cfg, s, step);
    var j := step.j;
    NodeFacts(cfg, s, j);
    HoldsPhase(Rxs(s), cfg[j], s.bar.members[j], s.nodes[j]);
    MemberChanges(cfg, s, step);
    LeftChanges(n, s.bar.members, j, s'.bar.members[j], n);
  }

  lemma MemberChanges(cfg: seq<Config>, s: Sys, step: Step)
    requires Sized(cfg, s) && Enabled(cfg, s, step) && Phases(cfg[step.j], s.bar.members[step.j], s.nodes[step.j])
    ensures var s' := Next(cfg, s, step);
            && s'.bar.members == s.bar.members[step.j := s'.bar.members[step.j]]
            && NodeLeft(|cfg|, s'.bar.members[step.j]) - |s'.bar.log| < NodeLeft(|cfg|, s.bar.members[step.j]) - |s.bar.log|
  {
    hide AllFrames, AfterPass;
    if step.Main? {
      PassParts(cfg[step.j], s.nodes[step.j], step.stale);
      hide MainPass;
    }
  }

  /** The measure never goes below zero. */
  lemma MeasureNonneg(cfg: seq<Config>, s: Sys)
    requires Inv(cfg, s)
    ensures Measure(|cfg|, s) >= 0
  {
    hide Holds, Barrier.Inv, BusInv;
    var n := |cfg|;
    LogBound(cfg, s);
    forall i | 0 <= i < n ensures s.bar.members[i].cursor <= |s.bar.log| <= AllFrames(n) && s.bar.members[i].Latest() <= MAX_ITER {
      NodeFacts(cfg, s, i);
      HoldsPhase(Rxs(s), cfg[i], s.bar.members[i], s.nodes[i]);
      HoldsLatest(Rxs(s), cfg[i], s.bar.members[i], s.nodes[i]);
      CursorBound(s.bar, n, NumMessages(n), i);
    }
    LeftNonneg(n, s.bar.members, n, |s.bar.log|);
  }

  lemma HoldsLatest(rxs: seq<seq<Vec>>, c: Config, m: Barrier.Member, nd: Node)
    requires c.Valid() && Holds(rxs, c, m, nd)
    ensures m.Latest() <= MAX_ITER && |nd.sent| == m.Latest()
  {
  }

  lemma CursorBound(bar: Barrier.State, n: nat, chunks: nat, i: nat)
    requires Barrier.Inv(bar, n, chunks) && i < n
    ensures bar.members[i].cursor <= |bar.log|
  {
    assert Barrier.Consumed(bar, n, chunks, i, bar.members[i]);
  }

  lemma {:induction false} LeftNonneg(n: nat, members: seq<Barrier.Member>, m: nat, len: nat)
    requires 1 <= n && m <= |members| && len <= AllFrames(n)
    requires forall i :: 0 <= i < m ==> members[i].cursor <= len && members[i].Latest() <= MAX_ITER
    ensures Left(n, members, m) >= 0
  {
    if m > 0 {
      LeftNonneg(n, members, m - 1, len);
    }
  }

  /** All frames of the first `rounds` rounds. */
  ghost function Bursts(n: nat, chunks: nat, rounds: nat): (ts: set<Barrier.Tag>)
    ensures forall t :: t in ts <==> Barrier.ValidTag(n, chunks, t) && t.round < rounds
  {
    set i: nat, r: nat, c: nat | i < n && r < rounds && c < chunks :: Barrier.Tag(i, r, c)
  }

  lemma {:induction false} BurstsSize(n: nat, chunks: nat, rounds: nat)
    ensures |Bursts(n, chunks, rounds)| <= rounds * (chunks * n)
  {
    if rounds == 0 {
      assert Bursts(n, chunks, 0) == {};
    } else {
      BurstsSize(n, chunks, rounds - 1);
      OneRoundMore(n, chunks, rounds);
      Barrier.OneMore(chunks * n, rounds);
    }
  }

  lemma OneRoundMore(n: nat, chunks: nat, rounds: nat)
    requires rounds > 0
    ensures |Bursts(n, chunks, rounds)| <= |Bursts(n, chunks, rounds - 1)| + chunks * n
  {
    Barrier.DueSize(n, chunks, n, rounds - 1);
    UnionSize(Bursts(n, chunks, rounds), Bursts(n, chunks, rounds - 1), Barrier.Due(n, chunks, n, rounds - 1));
  }

  lemma UnionSize<T>(u: set<T>, a: set<T>, b: set<T>)
    requires forall x :: x in u ==> x in a || x in b
    ensures |u| <= |a| + |b|
  {
    assert |a + b| <= |a| + |b|;
    Barrier.SubsetSize(u, a + b);
  }

  lemma {:induction false} CountAll(rxs: seq<seq<Vec>>, n: nat, log: seq<Barrier.Slot>, data: seq<Payload>, p: nat)
    requires |log| == |data| && BusInv(rxs, n, log, data) && |rxs| == n && p <= |log|
    ensures Barrier.UnreadCount(log, n, p) == |log| - p
    decreases |log| - p
  {
    if p < |log| {
      CountAll(rxs, n, log, data, p + 1);
      assert SlotInv(rxs, n, log[p], data[p]);
    }
  }

  /** The bus never carries more than the frames of 50 rounds. */
  lemma LogBound(cfg: seq<Config>, s: Sys)
    requires Inv(cfg, s)
    ensures |s.bar.log| <= AllFrames(|cfg|) == 50 * (((|cfg| - 1) / 3 + 1) * |cfg|)
  {
    hide Holds, SlotInv;
    var n, chunks := |cfg|, NumMessages(|cfg|);
    CountAll(Rxs(s), n, s.bar.log, s.data, 0);
    Barrier.UnreadDistinct(s.bar, n, chunks, n, 0);
    var ts := Barrier.Unread(s.bar.log, n, 0);
    forall t | t in ts ensures t in Bursts(n, chunks, MAX_ITER) {
      var q := Barrier.UnreadAt(s.bar.log, n, 0, t);
      assert t in s.bar.at && Barrier.ValidTag(n, chunks, t);
      assert Barrier.Sent(s.bar, chunks, t.sender, s.bar.members[t.sender]);
      NodeFacts(cfg, s, t.sender);
      HoldsLatest(Rxs(s), cfg[t.sender], s.bar.members[t.sender], s.nodes[t.sender]);
    }
    BurstsSize(n, chunks, MAX_ITER);
    Barrier.SubsetSize(ts, Bursts(n, chunks, MAX_ITER));
  }

  /** No run takes more moves than the measure of the start allows. */
  lemma {:induction false} RunsEnd(cfg: seq<Config>, states: seq<Sys>, steps: seq<Step>)
    requires Run(cfg, states, steps)
    ensures |steps| + Measure(|cfg|, states[|steps|]) <= Measure(|cfg|, ConsensusProtocol.Start(|cfg|))
    ensures |steps| <= (|cfg| + 1) * AllFrames(|cfg|) + 100 * |cfg|
  {
    hide Inv, Enabled, Next, Measure;
    RunInv(cfg, states, steps, |steps|);
    MeasureNonneg(cfg, states[|steps|]);
    StartMeasure(|cfg|);
    if |steps| > 0 {
      var k := |steps| - 1;
      assert Moves(cfg, states[k], steps[k], states[k + 1]);
      RunsEnd(cfg, states[..k + 1], steps[..k]);
      RunInv(cfg, states, steps, k);
      MoveDecreases(cfg, states[k], steps[k]);
    }
  }

  lemma StartMeasure(n: nat)
    requires 1 <= n
    ensures Measure(n, ConsensusProtocol.Start(n)) == (n + 1) * AllFrames(n) + 2 * MAX_ITER * n
  {
    StartLeft(n, Barrier.Start(n).members, n);
    assert (n + 1) * AllFrames(n) == n * AllFrames(n) + AllFrames(n);
  }

  lemma {:induction false} StartLeft(n: nat, members: seq<Barrier.Member>, m: nat)
    requires 1 <= n && m <= |members| && forall i :: 0 <= i < |members| ==> members[i] == Barrier.Member(0, false, 0, {}, {})
    ensures Left(n, members, m) == m * AllFrames(n) + 2 * MAX_ITER * m
  {
    if m > 0 {
      StartLeft(n, members, m - 1);
      assert m * AllFrames(n) == (m - 1) * AllFrames(n) + AllFrames(n);
    }
  }

  /** Every run that cannot go on has every node off, after exactly 50 vectors sent, 50 updates and one
      reference set at every node: the illuminance its last vector gives. */
  lemma MaximalRunEnds(cfg: seq<Config>, states: seq<Sys>, steps: seq<Step>)
    requires Run(cfg, states, steps)
    requires Sized(cfg, states[|steps|]) && forall step :: !Enabled(cfg, states[|steps|], step)
    ensures forall j :: 0 <= j < |cfg| ==>
              && Ended(states[|steps|].nodes[j]) && |states[|steps|].nodes[j].sent[49]| == |cfg[j].k|
              && states[|steps|].nodes[j].references == [Dot(states[|steps|].nodes[j].sent[49], cfg[j].k) + cfg[j].residual]
  {
    hide Holds, Barrier.Inv, BusInv, Enabled, Dot;
    var s := states[|steps|];
    RunInv(cfg, states, steps, |steps|);
    forall j | 0 <= j < |cfg|
      ensures Ended(s.nodes[j]) && |s.nodes[j].sent[49]| == |cfg[j].k|
      ensures s.nodes[j].references == [Dot(s.nodes[j].sent[49], cfg[j].k) + cfg[j].residual]
    {
      if s.nodes[j].local.phase != Off {
        var step := Progress(cfg, s, [0, 0, 0, 0, 0, 0, 0, 0]);
      }
      NodeFacts(cfg, s, j);
      HoldsOff(Rxs(s), cfg[j], s.bar.members[j], s.nodes[j]);
    }
  }

  ghost predicate Ended(nd: Node) {
    nd.local.phase == Off && |nd.sent| == |nd.avs| == 50 && |nd.references| == 1
  }

  lemma HoldsOff(rxs: seq<seq<Vec>>, c: Config, m: Barrier.Member, nd: Node)
    requires c.Valid() && Holds(rxs, c, m, nd) && nd.local.phase == Off
    ensures Ended(nd) && |nd.lams| == MAX_ITER + 1 && |AvAt(c.n, nd, MAX_ITER - 1)| == |nd.lams[MAX_ITER - 1]| == c.n
    ensures var p := c.ProblemAt(AvAt(c.n, nd, MAX_ITER - 1), nd.lams[MAX_ITER - 1]);
            nd.references == [Reference(c, Solve(p).best)] && |Solve(p).best| == c.n
    ensures |nd.sent[49]| == c.n && nd.references == [Dot(nd.sent[49], c.k) + c.residual]
  {
    assert Answered(c, nd, MAX_ITER - 1);
  }

  /** Every run can be completed. */
  lemma Completed(cfg: seq<Config>, states: seq<Sys>, steps: seq<Step>) returns (states': seq<Sys>, steps': seq<Step>)
    requires Run(cfg, states, steps)
    ensures Run(cfg, states', steps') && states <= states' && steps <= steps'
    ensures |states'[|steps'|].nodes| == |cfg| && forall j :: 0 <= j < |cfg| ==> Ended(states'[|steps'|].nodes[j])
    decreases Measure(|cfg|, ConsensusProtocol.Start(|cfg|)) - |steps|
  {
    hide Holds, Barrier.Inv, BusInv, Enabled, Next, Measure, Ended;
    var s := states[|steps|];
    RunInv(cfg, states, steps, |steps|);
    if exists j :: 0 <= j < |cfg| && s.nodes[j].local.phase != Off {
      var step := Progress(cfg, s, [0, 0, 0, 0, 0, 0, 0, 0]);
      Extended(cfg, states, steps, step);
      var longer := states + [Next(cfg, s, step)];
      RunsEnd(cfg, longer, steps + [step]);
      RunInv(cfg, longer, steps + [step], |steps| + 1);
      MeasureNonneg(cfg, longer[|steps| + 1]);
      states', steps' := Completed(cfg, longer, steps + [step]);
    } else {
      states', steps' := states, steps;
      forall j | 0 <= j < |cfg| ensures Ended(s.nodes[j]) {
        OffEnded(cfg, s, j);
      }
    }
  }

  lemma Extended(cfg: seq<Config>, states: seq<Sys>, steps: seq<Step>, step: Step)
    requires Run(cfg, states, steps) && Sized(cfg, states[|steps|]) && Enabled(cfg, states[|steps|], step)
    ensures Possible(cfg, states[|steps|], step)
    ensures Run(cfg, states + [Next(cfg, states[|steps|], step)], steps + [step])
  {
    EnabledPossible(cfg, states[|steps|], step);
    hide Sized, Enabled, Next, Possible;
    var states', steps' := states + [Next(cfg, states[|steps|], step)], steps + [step];
    forall k | 0 <= k < |steps'| ensures Moves(cfg, states'[k], steps'[k], states'[k + 1]) {
      if k < |steps| {
        assert Moves(cfg, states[k], steps[k], states[k + 1]);
      }
    }
  }

  lemma OffEnded(cfg: seq<Config>, s: Sys, j: nat)
    requires Inv(cfg, s) && j < |cfg| && s.nodes[j].local.phase == Off
    ensures Ended(s.nodes[j])
  {
    hide Holds, Barrier.Inv, BusInv;
    NodeFacts(cfg, s, j);
    HoldsOff(Rxs(s), cfg[j], s.bar.members[j], s.nodes[j]);
  }

  // Backlog.

  /** In every reachable state the consensus frames on the bus that node `j` has not consumed yet number
      at most two bursts per other node: with at most three nodes fewer than the ring buffer holds. */
  lemma Backlog(cfg: seq<Config>, states: seq<Sys>, steps: seq<Step>, k: nat, j: nat)
    requires Run(cfg, states, steps) && k < |states| && j < |cfg|
    ensures |states[k].bar.members| == |cfg| && states[k].bar.members[j].cursor <= |states[k].bar.log|
    ensures var unread := Barrier.UnreadCount(states[k].bar.log, j, states[k].bar.members[j].cursor);
            && unread <= 2 * Expected(|cfg|)
            && (|cfg| <= 3 ==> unread < 10)
  {
    hide Holds, Barrier.Inv, BusInv;
    RunInv(cfg, states, steps, k);
    NodeFacts(cfg, states[k], j);
    Barrier.UnreadBound(states[k].bar, |cfg|, NumMessages(|cfg|), j);
    DivisorIsNodes(|cfg|);
  }

  // The reference.

  /** In every reachable state the reference an ended node has handed to its luminaire is the illuminance
      its last vector gives by its own gains and residual, whatever it was asked for. */
  lemma ReferenceIs(cfg: seq<Config>, states: seq<Sys>, steps: seq<Step>, k: nat, j: nat)
    requires Run(cfg, states, steps) && k < |states| && j < |cfg| == |states[k].nodes|
    ensures var nd := states[k].nodes[j];
            if nd.local.phase == Off
            then |nd.sent| == 50 && |nd.sent[49]| == |cfg[j].k| && nd.references == [Dot(nd.sent[49], cfg[j].k) + cfg[j].residual]
            else nd.references == []
  {
    hide Holds, Barrier.Inv, BusInv, Dot;
    var s := states[k];
    RunInv(cfg, states, steps, k);
    NodeFacts(cfg, s, j);
    if s.nodes[j].local.phase == Off {
      HoldsOff(Rxs(s), cfg[j], s.bar.members[j], s.nodes[j]);
    } else {
      HoldsOn(Rxs(s), cfg[j], s.bar.members[j], s.nodes[j]);
    }
  }

  lemma HoldsOn(rxs: seq<seq<Vec>>, c: Config, m: Barrier.Member, nd: Node)
    requires c.Valid() && Holds(rxs, c, m, nd) && nd.local.phase != Off
    ensures nd.references == []
  {
  }

  /** When a node is off, its one reference is within the tolerance of what it was asked for exactly
      when its last solve found a candidate, or the vector of -1s it then sends happens to be bright
      enough. */
  lemma ReferenceMet(cfg: seq<Config>, states: seq<Sys>, steps: seq<Step>, k: nat, j: nat)
    requires Run(cfg, states, steps) && k < |states| && j < |cfg| == |states[k].nodes|
    requires states[k].nodes[j].local.phase == Off
    ensures Ended(states[k].nodes[j]) && LastProblem(cfg[j], states[k].nodes[j]).Valid()
    ensures var p := LastProblem(cfg[j], states[k].nodes[j]);
            && |Solve(p).best| == |cfg[j].k| == |cfg|
            && (states[k].nodes[j].references[0] >= cfg[j].liRef - 0.01
                <==> (exists i :: 0 <= i < |cfg| && Solve(p).best[i] != -1.0)
                     || Dot(Const(|cfg|, -1.0), cfg[j].k) >= cfg[j].liRef - cfg[j].residual - 0.01)
  {
    hide Holds, Barrier.Inv, BusInv, Solve, Dot;
    var s := states[k];
    RunInv(cfg, states, steps, k);
    NodeFacts(cfg, s, j);
    HoldsOff(Rxs(s), cfg[j], s.bar.members[j], s.nodes[j]);
    var p := LastProblem(cfg[j], s.nodes[j]);
    SolveWithinLimits(p);
    if forall i :: 0 <= i < |cfg| ==> Solve(p).best[i] == -1.0 {
      assert Solve(p).best == Const(|cfg|, -1.0);
    }
  }

  /** So any exactly feasible vector costing less than the initial bound at the last solve is enough. */
  lemma ReferenceMetIfFeasible(cfg: seq<Config>, states: seq<Sys>, steps: seq<Step>, k: nat, j: nat, d: Vec)
    requires Run(cfg, states, steps) && k < |states| && j < |cfg| == |states[k].nodes|
    requires states[k].nodes[j].local.phase == Off
    requires LastProblem(cfg[j], states[k].nodes[j]).Valid() && |d| == |cfg[j].k| == |cfg|
    requires LastProblem(cfg[j], states[k].nodes[j]).Cost(d) < 100000.0
    requires 0.0 <= d[j] <= 100.0 && Dot(d, cfg[j].k) >= cfg[j].liRef - cfg[j].residual
    ensures |states[k].nodes[j].references| == 1 && states[k].nodes[j].references[0] >= cfg[j].liRef - 0.01
  {
    hide Holds, Barrier.Inv, BusInv, Solve, Dot, Problem.Cost;
    var s := states[k];
    RunInv(cfg, states, steps, k);
    NodeFacts(cfg, s, j);
    HoldsOff(Rxs(s), cfg[j], s.bar.members[j], s.nodes[j]);
    SolveIsOptimal(LastProblem(cfg[j], s.nodes[j]), d);
  }

  /** What the node's last consensus_iterate read. */
  ghost function LastProblem(c: Config, nd: Node): Problem {
    if |nd.avs| == 50 && |nd.lams| == 51
    then Problem(c.idx, c.rho, c.cost, nd.avs[48], nd.lams[49], c.k, c.liRef, c.residual)
    else Problem(c.idx, c.rho, c.cost, nd.local.av, nd.local.lambda, c.k, c.liRef, c.residual)
  }
}
