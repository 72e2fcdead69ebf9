/** What holds of every calibration run: agreement on the phase, one announcer per phase, one gain
    matrix at the end, exactly when residuals arrive, progress and termination. */
module CalibrationResults {
  import opened Globals
  import opened CalibrationNode
  import opened CalibrationProtocol
  import Barrier

  ghost predicate Run(n: nat, states: seq<Sys>, steps: seq<Step>) {
    && 1 <= n <= MAX_NUM_NODES
    && |states| == |steps| + 1 && states[0] == CalibrationProtocol.Start(n)
    && forall k :: 0 <= k < |steps| ==> Moves(n, states[k], steps[k], states[k + 1])
  }

  ghost predicate Moves(n: nat, s: Sys, step: Step, s': Sys) {
    Sized(n, s) && Enabled(n, s, step) && s' == Next(n, s, step)
  }

  lemma {:induction false} RunInv(n: nat, states: seq<Sys>, steps: seq<Step>, k: nat)
    requires Run(n, states, steps) && k < |states|
    ensures Inv(n, states[k])
  {
    hide Inv, Enabled, Next;
    if k == 0 {
      StartInv(n);
    } else {
      RunInv(n, states, steps, k - 1);
      assert Moves(n, states[k - 1], steps[k - 1], states[k]);
      StepInv(n, states[k - 1], steps[k - 1]);
    }
  }

  lemma NodeHolds(n: nat, s: Sys, j: nat)
    requires Inv(n, s) && j < n
    ensures |s.nodes| == |s.bar.members| == n && Barrier.Inv(s.bar, n, 1) && LedInv(n, s)
    ensures Holds(Readys(s), s.ledAt, Place(n, j), s.bar.members[j], s.nodes[j])
  {
  }

  // Phases.

  predicate InPhase(v: Calib) { v.state == WaitLedOn || v.state == WaitTransient }

  lemma ShapeOf(rs: seq<seq<real>>, ledAt: map<nat, nat>, p: Place, m: Barrier.Member, nd: Node)
    requires p.Valid() && |rs| == p.n && Holds(rs, ledAt, p, m, nd)
    ensures Shape(p, m, nd)
  {
  }

  lemma PhaseOfRound(p: Place, m: Barrier.Member, nd: Node)
    requires p.Valid() && Shape(p, m, nd)
    ensures InPhase(nd.local) ==> !m.queued && 1 <= m.round < Rounds(p.n) && nd.local.nodeLedOn == Owner(m.round) && nd.local.luxReadNum == Reading(m.round)
    ensures nd.ledPending ==> InPhase(nd.local) && nd.local.nodeLedOn == p.idx
    ensures nd.local.state == WaitLedOn ==> nd.local.nodeLedOn != p.idx
  {
  }

  /** Two nodes that wait for an LED or for its transient wait for the same LED and the same reading. */
  lemma SamePhase(n: nat, states: seq<Sys>, steps: seq<Step>, k: nat, i: nat, j: nat)
    requires Run(n, states, steps) && k < |states| && i < n && j < n && |states[k].nodes| == n
    requires InPhase(states[k].nodes[i].local) && InPhase(states[k].nodes[j].local)
    ensures states[k].nodes[i].local.nodeLedOn == states[k].nodes[j].local.nodeLedOn
    ensures states[k].nodes[i].local.luxReadNum == states[k].nodes[j].local.luxReadNum
  {
    hide Holds, Barrier.Inv, LedInv, BusInv, InPhase, Shape;
    var s := states[k];
    RunInv(n, states, steps, k);
    forall a | a in {i, j} ensures Shape(Place(n, a), s.bar.members[a], s.nodes[a]) {
      ShapeOf(Readys(s), s.ledAt, Place(n, a), s.bar.members[a], s.nodes[a]);
    }
    PhaseOfRound(Place(n, i), s.bar.members[i], s.nodes[i]);
    PhaseOfRound(Place(n, j), s.bar.members[j], s.nodes[j]);
    Barrier.Lockstep(s.bar, n, 1, i, j);
    Barrier.Lockstep(s.bar, n, 1, j, i);
  }

  /** Whoever has an LED frame to announce is the node whose LED everybody in a phase waits for. */
  lemma OnlyOwnerAnnounces(n: nat, states: seq<Sys>, steps: seq<Step>, k: nat, i: nat, j: nat)
    requires Run(n, states, steps) && k < |states| && i < n && j < n && |states[k].nodes| == n
    requires states[k].nodes[j].ledPending
    ensures InPhase(states[k].nodes[j].local) && states[k].nodes[j].local.nodeLedOn == j
    ensures InPhase(states[k].nodes[i].local) ==> states[k].nodes[i].local.nodeLedOn == j
  {
    hide Holds, Barrier.Inv, LedInv, BusInv, InPhase, Shape;
    var s := states[k];
    RunInv(n, states, steps, k);
    ShapeOf(Readys(s), s.ledAt, Place(n, j), s.bar.members[j], s.nodes[j]);
    PhaseOfRound(Place(n, j), s.bar.members[j], s.nodes[j]);
    if InPhase(s.nodes[i].local) {
      SamePhase(n, states, steps, k, i, j);
    }
  }

  /** Among the first `cursor` frames is the announcement of node `owner` for phase `phase`. */
  ghost predicate Heard(s: Sys, cursor: nat, owner: int, phase: int) {
    exists at: nat :: at < cursor && at < |s.data| && s.data[at].LedFrame? && s.data[at].sender == owner && s.data[at].phase == phase
  }

  /** A node leaves WaitLedOn only on the announcement of its own phase's owner for its own reading,
      although the frame says neither. */
  lemma LedOnIsOwnPhases(n: nat, states: seq<Sys>, steps: seq<Step>, k: nat, j: nat)
    requires Run(n, states, steps) && k < |states| && j < n && |states[k].nodes| == |states[k].bar.members| == n
    requires states[k].nodes[j].local.state == WaitLedOn
    ensures var v := states[k].nodes[j].local;
            && 0 <= v.nodeLedOn < n && v.nodeLedOn != j
            && (v.otherLedOn <==> Heard(states[k], states[k].bar.members[j].cursor, v.nodeLedOn, 2 * v.nodeLedOn + v.luxReadNum + 1))
  {
    hide Holds, Barrier.Inv, BusInv, LedInv, Heard, Shape;
    var s := states[k];
    RunInv(n, states, steps, k);
    NodeHolds(n, s, j);
    LedFlag(n, s, Place(n, j), s.bar.members[j], s.nodes[j]);
    HeardOnce(n, s, s.bar.members[j], j, s.bar.members[j].round);
  }

  lemma LedFlag(n: nat, s: Sys, p: Place, m: Barrier.Member, nd: Node)
    requires p.Valid() && |s.nodes| == p.n && Holds(Readys(s), s.ledAt, p, m, nd) && nd.local.state == WaitLedOn
    ensures 1 <= m.round < Rounds(p.n) && nd.local.nodeLedOn == Owner(m.round) != p.idx && nd.local.luxReadNum == Reading(m.round)
    ensures Owner(m.round) < p.n && m.round == 2 * Owner(m.round) + Reading(m.round) + 1
    ensures nd.local.otherLedOn <==> LedHeard(s.ledAt, m, p.idx, m.round)
  {
    hide Tables, History, LedHeard;
  }

  lemma HeardOnce(n: nat, s: Sys, m: Barrier.Member, idx: nat, q: nat)
    requires |s.nodes| == |s.bar.members| == n && LedInv(n, s) && q >= 1 && Owner(q) != idx
    ensures LedHeard(s.ledAt, m, idx, q) <==> Heard(s, m.cursor, Owner(q), q)
  {
    if LedHeard(s.ledAt, m, idx, q) {
      assert s.data[s.ledAt[q]] == LedFrame(Owner(q), q);
    }
  }

  // The end.

  /** The gain a node measured while node `k` owned the LED phase, from its first and its second reading. */
  ghost function MeasuredGain(nd: Node, k: nat): real
    requires 2 * k + 1 < |nd.lux|
  {
    (nd.lux[2 * k + 1] - nd.lux[2 * k]) / 220.0
  }

  /** Reading number `2 k` or `2 k + 1` of a node's history was taken while the node held the phase of node
      `k`'s LED: the index of the next reading is given by nodeLedOn and luxReadNum. */
  lemma ReadingOfPhase(n: nat, states: seq<Sys>, steps: seq<Step>, k: nat, j: nat, lux: real)
    requires Run(n, states, steps) && k < |steps| && steps[k] == Main(j, lux) && j < n
    requires |states[k].nodes| == n && states[k].nodes[j].local.state == WaitTransient
    ensures var v := states[k].nodes[j].local;
            0 <= v.nodeLedOn < n && v.luxReadNum < 2 && |states[k].nodes[j].lux| == 2 * v.nodeLedOn + v.luxReadNum
    ensures |states[k + 1].nodes| == n && states[k + 1].nodes[j].lux == states[k].nodes[j].lux + [lux]
  {
    hide Barrier.Inv, BusInv, LedInv, Tables, Flags, Passed, Broadcast;
    var s := states[k];
    RunInv(n, states, steps, k);
    NodeHolds(n, s, j);
    assert Moves(n, s, steps[k], states[k + 1]);
    var q := s.bar.members[j].round;
    assert q == 2 * Owner(q) + Reading(q) + 1;
  }

  ghost predicate AllDone(s: Sys) {
    forall j :: 0 <= j < |s.nodes| ==> s.nodes[j].local.done
  }

  /** A node that is done sent 2n + 1 READY frames and two LED frames, and took 2n readings. */
  lemma DoneCounts(n: nat, states: seq<Sys>, steps: seq<Step>, k: nat, j: nat)
    requires Run(n, states, steps) && k < |states| && j < n && |states[k].nodes| == n && states[k].nodes[j].local.done
    ensures |states[k].nodes[j].ready| == 2 * n + 1 && states[k].nodes[j].leds == 2 && |states[k].nodes[j].lux| == 2 * n
  {
    RunInv(n, states, steps, k);
    DoneHistory(n, states[k], j);
  }

  lemma DoneHistory(n: nat, s: Sys, j: nat)
    requires Inv(n, s) && j < n && s.nodes[j].local.done
    ensures |s.nodes[j].ready| == 2 * n + 1 && s.nodes[j].leds == 2 && |s.nodes[j].lux| == 2 * n
    ensures s.bar.members[j].round == Rounds(n)
    ensures forall k :: 0 <= k < n ==> s.nodes[j].ready[2 * k + 2] == MeasuredGain(s.nodes[j], k)
  {
    hide Barrier.Inv, BusInv, LedInv, Tables, Flags, Gain;
    NodeHolds(n, s, j);
    forall k | 0 <= k < n ensures s.nodes[j].ready[2 * k + 2] == MeasuredGain(s.nodes[j], k) {
      GainIs(s.nodes[j].lux[2 * k], s.nodes[j].lux[2 * k + 1]);
    }
  }

  /** What stands in the tables of node `a` at the end, for every row and column. */
  lemma FinalTables(n: nat, s: Sys, a: nat, i: nat, k: nat)
    requires Inv(n, s) && AllDone(s) && a < n && i < n && k < n
    ensures |s.nodes| == n && 2 * k + 1 < |s.nodes[i].lux| && 0 < |s.nodes[i].ready| && s.nodes[a].local.Sized()
    ensures var g, residual := MeasuredGain(s.nodes[i], k), s.nodes[i].ready[0];
            && s.nodes[a].local.gains[i][k] ==
                 (if a == i || g >= 0.0 then g else if k == 0 && i in s.nodes[a].early && residual >= 0.0 then residual else 0.0)
            && s.nodes[a].local.residuals[i] == (if a == i || (residual >= 0.0 && i !in s.nodes[a].early) then residual else 0.0)
  {
    hide Barrier.Inv, BusInv, LedInv, Flags, Shape, History, Gain;
    DoneHistory(n, s, i);
    DoneHistory(n, s, a);
    NodeHolds(n, s, a);
    var p, m := Place(n, a), s.bar.members[a];
    assert s.nodes[a].local.gains[i][k] == GainEntry(Readys(s), p, m, s.nodes[a].early, i, k);
    assert s.nodes[a].local.residuals[i] == ResidualEntry(Readys(s), p, m, s.nodes[a].early, i);
  }

  /** Agreement: with several nodes, all of them end with the same entry for row `i` and column `k`
      exactly when node `i`'s second reading there was not below its first, and then the entry is their
      difference over 220 PWM units. */
  lemma GainsAgree(n: nat, states: seq<Sys>, steps: seq<Step>, i: nat, k: nat)
    requires Run(n, states, steps) && AllDone(states[|steps|]) && 2 <= n && i < n && k < n
    ensures var s := states[|steps|];
            && |s.nodes| == n && 2 * k + 1 < |s.nodes[i].lux|
            && (forall a :: 0 <= a < n ==> s.nodes[a].local.Sized())
            && ((forall a, b :: 0 <= a < n && 0 <= b < n ==> s.nodes[a].local.gains[i][k] == s.nodes[b].local.gains[i][k])
                <==> s.nodes[i].lux[2 * k + 1] >= s.nodes[i].lux[2 * k])
            && (s.nodes[i].lux[2 * k + 1] >= s.nodes[i].lux[2 * k] ==>
                  forall a :: 0 <= a < n ==> s.nodes[a].local.gains[i][k] * 220.0 == s.nodes[i].lux[2 * k + 1] - s.nodes[i].lux[2 * k])
  {
    hide Barrier.Inv, BusInv, LedInv, Holds;
    var s := states[|steps|];
    RunInv(n, states, steps, |steps|);
    forall a | 0 <= a < n
      ensures |s.nodes| == n && 2 * k + 1 < |s.nodes[i].lux| && s.nodes[a].local.Sized()
      ensures MeasuredGain(s.nodes[i], k) >= 0.0 || a == i ==> s.nodes[a].local.gains[i][k] == MeasuredGain(s.nodes[i], k)
      ensures MeasuredGain(s.nodes[i], k) < 0.0 && a != i ==> s.nodes[a].local.gains[i][k] >= 0.0
    {
      FinalTables(n, s, a, i, k);
    }
    var b: nat := if i == 0 then 1 else 0;
    assert MeasuredGain(s.nodes[i], k) < 0.0 ==> s.nodes[b].local.gains[i][k] != s.nodes[i].local.gains[i][k];
  }

  /** The second reading node `nd` took in the phases of node `k` is not below the first. */
  ghost predicate NotNegative(nd: Node, k: nat) {
    2 * k + 1 < |nd.lux| ==> nd.lux[2 * k + 1] >= nd.lux[2 * k]
  }

  /** Node `a` has, at row `i` and column `k`, the gain of that node, `ndi`: the difference of its two
      readings over 220 PWM units. */
  ghost predicate HoldsGain(nda: Node, ndi: Node, i: nat, k: nat) {
    && nda.local.Sized() && i < MAX_NUM_NODES && k < MAX_NUM_NODES && 2 * k + 1 < |ndi.lux|
    && nda.local.gains[i][k] * 220.0 == ndi.lux[2 * k + 1] - ndi.lux[2 * k]
  }

  /** If no second reading was below its first, all nodes end with one gain matrix: entry [i][k] times
      220 is what node `i` read more at the second than at the first reading while node `k` owned the
      LED phase. */
  lemma OneGainMatrix(n: nat, states: seq<Sys>, steps: seq<Step>, a: nat)
    requires Run(n, states, steps) && AllDone(states[|steps|]) && a < n == |states[|steps|].nodes|
    requires forall i, k :: 0 <= i < n && 0 <= k < n ==> NotNegative(states[|steps|].nodes[i], k)
    ensures forall i, k :: 0 <= i < n && 0 <= k < n ==> HoldsGain(states[|steps|].nodes[a], states[|steps|].nodes[i], i, k)
  {
    hide Inv;
    var s := states[|steps|];
    RunInv(n, states, steps, |steps|);
    forall i, k | 0 <= i < n && 0 <= k < n
      ensures HoldsGain(s.nodes[a], s.nodes[i], i, k)
    {
      assert NotNegative(s.nodes[i], k);
      FinalTables(n, s, a, i, k);
    }
  }

  /** If node `i`'s light grows with slope `g` in the level of node `k`'s LED and it took its two readings
      there at the levels 20 and 240, every node ends with exactly `g` at row `i` and column `k`, whatever
      the offset; node `i` itself even with a negative slope. */
  lemma SlopesAreFound(n: nat, states: seq<Sys>, steps: seq<Step>, a: nat, i: nat, k: nat, o: real, g: real)
    requires Run(n, states, steps) && AllDone(states[|steps|]) && a < n == |states[|steps|].nodes| && i < n && k < n
    requires 2 * k + 1 < |states[|steps|].nodes[i].lux|
    requires states[|steps|].nodes[i].lux[2 * k] == o + 20.0 * g && states[|steps|].nodes[i].lux[2 * k + 1] == o + 240.0 * g
    requires g >= 0.0 || a == i
    ensures states[|steps|].nodes[a].local.Sized() && states[|steps|].nodes[a].local.gains[i][k] == g
  {
    hide Inv;
    RunInv(n, states, steps, |steps|);
    FinalTables(n, states[|steps|], a, i, k);
    assert MeasuredGain(states[|steps|].nodes[i], k) == g;
  }

  /** Node `a` ends with node `i`'s residual exactly when it is its own, or zero, or positive and did not
      arrive before node `a` had entered calibration. */
  lemma ResidualArrives(n: nat, states: seq<Sys>, steps: seq<Step>, a: nat, i: nat)
    requires Run(n, states, steps) && AllDone(states[|steps|]) && a < n && i < n
    ensures var s := states[|steps|];
            && |s.nodes| == n && 0 < |s.nodes[i].ready| && s.nodes[a].local.Sized()
            && (s.nodes[a].local.residuals[i] == s.nodes[i].ready[0]
                <==> a == i || s.nodes[i].ready[0] == 0.0 || (s.nodes[i].ready[0] > 0.0 && i !in s.nodes[a].early))
  {
    hide Barrier.Inv, BusInv, LedInv, Holds, Gain;
    RunInv(n, states, steps, |steps|);
    FinalTables(n, states[|steps|], a, i, 0);
  }

  // An early residual is lost for good.

  lemma {:induction false} EarlyStays(n: nat, states: seq<Sys>, steps: seq<Step>, k: nat, a: nat, i: nat)
    requires Run(n, states, steps) && k < |states| && a < n
    requires |states[k].nodes| == n && i in states[k].nodes[a].early
    ensures |states[|steps|].nodes| == n && i in states[|steps|].nodes[a].early
    decreases |steps| - k
  {
    hide Sized, Enabled, Next;
    if k < |steps| {
      assert Moves(n, states[k], steps[k], states[k + 1]);
      EarlyKept(n, states[k], steps[k], a, i);
      EarlyStays(n, states, steps, k + 1, a, i);
    }
  }

  lemma EarlyKept(n: nat, s: Sys, step: Step, a: nat, i: nat)
    requires Sized(n, s) && Enabled(n, s, step) && a < n && i in s.nodes[a].early
    ensures |Next(n, s, step).nodes| == n && i in Next(n, s, step).nodes[a].early
  {
    hide Passed, Broadcast, ReceivedReady;
  }

  /** Three moves of a two-node run after which node 1 can only end with a wrong residual for node 0:
      node 0 measures a residual of 1 and its frame reaches node 1 before node 1's first pass. */
  lemma EarlyResidualIsLost(states: seq<Sys>, steps: seq<Step>)
    requires Run(2, states, steps) && |steps| >= 3
    requires steps[0] == Main(0, 1.0) && steps[1] == TransmitReady(0) && steps[2] == Deliver(1)
    requires AllDone(states[|steps|])
    ensures |states[|steps|].nodes| == 2 && states[|steps|].nodes[0].local.Sized() && states[|steps|].nodes[1].local.Sized()
    ensures states[|steps|].nodes[1].local.residuals[0] != states[|steps|].nodes[0].local.residuals[0]
  {
    hide Barrier.Inv, BusInv, LedInv, Holds;
    assert Moves(2, states[0], steps[0], states[1]) && Moves(2, states[1], steps[1], states[2]) && Moves(2, states[2], steps[2], states[3]);
    FirstMoves(states[0], states[1], states[2], states[3]);
    EarlyStays(2, states, steps, 3, 1, 0);
    ReadyStays(2, states, steps, 1, 0);
    RunInv(2, states, steps, |steps|);
    FinalTables(2, states[|steps|], 1, 0, 0);
    FinalTables(2, states[|steps|], 0, 0, 0);
  }

  lemma FirstMoves(s0: Sys, s1: Sys, s2: Sys, s3: Sys)
    requires s0 == CalibrationProtocol.Start(2)
    requires Moves(2, s0, Main(0, 1.0), s1) && Moves(2, s1, TransmitReady(0), s2) && Moves(2, s2, Deliver(1), s3)
    ensures |s1.nodes| == 2 && s1.nodes[0].ready == [1.0]
    ensures |s3.nodes| == 2 && 0 in s3.nodes[1].early
  {
    assert s1.bar.members[0] == Barrier.Member(0, true, 0, Barrier.Chunks(1), {});
    assert s2.bar.log == [Barrier.Burst(Barrier.Tag(0, 0, 0))] && s2.data == [ReadyFrame(1.0)];
  }

  lemma {:induction false} ReadyStays(n: nat, states: seq<Sys>, steps: seq<Step>, k: nat, a: nat)
    requires Run(n, states, steps) && k < |states| && a < n
    requires |states[k].nodes| == n
    ensures |states[|steps|].nodes| == n && states[k].nodes[a].ready <= states[|steps|].nodes[a].ready
    decreases |steps| - k
  {
    hide Sized, Enabled, Next;
    if k < |steps| {
      assert Moves(n, states[k], steps[k], states[k + 1]);
      ReadyKept(n, states[k], steps[k], a);
      ReadyStays(n, states, steps, k + 1, a);
    }
  }

  lemma ReadyKept(n: nat, s: Sys, step: Step, a: nat)
    requires Sized(n, s) && Enabled(n, s, step) && a < n
    ensures |Next(n, s, step).nodes| == n && s.nodes[a].ready <= Next(n, s, step).nodes[a].ready
  {
    hide Passed, Broadcast, ReceivedReady;
  }
}
