/** Calibration never gets stuck and always ends. */
module CalibrationLiveness {
  import opened Globals
  import opened CalibrationNode
  import opened CalibrationProtocol
  import opened CalibrationResults
  import Barrier

  /** What progress needs to know of a node. */
  ghost predicate Ready(p: Place, m: Barrier.Member, nd: Node)
    requires p.Valid()
  {
    Shape(p, m, nd) && |nd.ready| == m.Latest() && (nd.local.state != WaitReady || m.queued ==> nd.local.InBounds())
  }

  lemma HoldsReady(rs: seq<seq<real>>, ledAt: map<nat, nat>, p: Place, m: Barrier.Member, nd: Node)
    requires p.Valid() && |rs| == p.n && Holds(rs, ledAt, p, m, nd)
    ensures Ready(p, m, nd) && nd.leds <= 2
  {
  }

  lemma AllAreReady(n: nat, s: Sys)
    requires Inv(n, s)
    ensures |s.nodes| == |s.bar.members| == n && forall j :: 0 <= j < n ==> Ready(Place(n, j), s.bar.members[j], s.nodes[j]) && s.nodes[j].leds <= 2
  {
    hide Holds, Barrier.Inv, LedInv, BusInv, Ready;
    forall j | 0 <= j < n ensures Ready(Place(n, j), s.bar.members[j], s.nodes[j]) && s.nodes[j].leds <= 2 {
      NodeHolds(n, s, j);
      HoldsReady(Readys(s), s.ledAt, Place(n, j), s.bar.members[j], s.nodes[j]);
    }
  }

  /** No deadlock: as long as some node is not done, some move is possible. */
  lemma Progress(n: nat, s: Sys, lux: real) returns (step: Step)
    requires Inv(n, s) && !AllDone(s)
    ensures Enabled(n, s, step)
  {
    hide Holds, Barrier.Inv, LedInv, BusInv, Ready;
    AllAreReady(n, s);
    if j :| 0 <= j < n && s.bar.members[j].outbox != {} {
      OutboxFull(n, s, j);
      step := TransmitReady(j);
    } else if j :| 0 <= j < n && s.nodes[j].ledPending {
      step := TransmitLed(j);
    } else if j :| 0 <= j < n && (s.nodes[j].local.state == CalibInit || s.nodes[j].local.state == WaitTransient) {
      ActsFreely(Place(n, j), s.bar.members[j], s.nodes[j]);
      step := Main(j, lux);
    } else {
      forall j | 0 <= j < n ensures Quiet(Place(n, j), s.bar.members[j], s.nodes[j]) {
        ReadyQuiet(Place(n, j), s.bar.members[j], s.nodes[j]);
      }
      step := AfterSending(n, s, lux);
    }
  }

  lemma ReadyQuiet(p: Place, m: Barrier.Member, nd: Node)
    requires p.Valid() && Ready(p, m, nd) && m.outbox == {} && !nd.ledPending
    requires nd.local.state != CalibInit && nd.local.state != WaitTransient
    ensures Quiet(p, m, nd)
  {
  }

  lemma OutboxFull(n: nat, s: Sys, j: nat)
    requires Inv(n, s) && j < n && s.bar.members[j].outbox != {} && Ready(Place(n, j), s.bar.members[j], s.nodes[j])
    ensures Enabled(n, s, TransmitReady(j))
  {
    hide Holds, LedInv, BusInv;
    assert Barrier.Sent(s.bar, 1, j, s.bar.members[j]);
    OneChunk();
    var c :| c in s.bar.members[j].outbox;
    assert c == 0;
  }

  lemma ActsFreely(p: Place, m: Barrier.Member, nd: Node)
    requires p.Valid() && Ready(p, m, nd) && (nd.local.state == CalibInit || nd.local.state == WaitTransient)
    ensures nd.local.InBounds() && Acts(p, nd.local)
  {
  }

  /** Everything queued is on the bus and everybody waits for frames or is done. */
  lemma AfterSending(n: nat, s: Sys, lux: real) returns (step: Step)
    requires Inv(n, s) && !AllDone(s)
    requires forall j :: 0 <= j < n ==> Quiet(Place(n, j), s.bar.members[j], s.nodes[j])
    ensures Enabled(n, s, step)
  {
    hide Holds, Barrier.Inv, LedInv, BusInv, Ready, Quiet;
    AllAreReady(n, s);
    var d :| 0 <= d < n && !s.nodes[d].local.done;
    var least := Barrier.Laggard(s.bar.members, n);
    NotLast(Place(n, d), s.bar.members[d], s.nodes[d]);
    if j :| 0 <= j < n && s.bar.members[j].round == s.bar.members[least].round && !s.bar.members[j].queued {
      step := WaitsForLed(n, s, j, lux);
    } else {
      step := WaitsForReady(n, s, least, lux);
    }
  }

  ghost predicate Quiet(p: Place, m: Barrier.Member, nd: Node)
    requires p.Valid()
  {
    && Shape(p, m, nd) && m.outbox == {} && !nd.ledPending
    && nd.local.state != CalibInit && nd.local.state != WaitTransient
  }

  lemma NotLast(p: Place, m: Barrier.Member, nd: Node)
    requires p.Valid() && Ready(p, m, nd)
    ensures m.round <= Rounds(p.n) && (m.round < Rounds(p.n) <==> !nd.local.done)
  {
  }

  /** A least-round node waiting for an LED: the LED frame is on the bus. */
  lemma WaitsForLed(n: nat, s: Sys, j: nat, lux: real) returns (step: Step)
    requires Inv(n, s) && j < n && !s.bar.members[j].queued && s.bar.members[j].round < Rounds(n)
    requires forall i :: 0 <= i < n ==> Quiet(Place(n, i), s.bar.members[i], s.nodes[i])
    requires forall i :: 0 <= i < n ==> s.bar.members[j].round <= s.bar.members[i].round
    ensures Enabled(n, s, step)
  {
    hide Holds, Barrier.Inv, BusInv, LedInv, Ready, Quiet;
    AllAreReady(n, s);
    var p, m, nd := Place(n, j), s.bar.members[j], s.nodes[j];
    WaitingForLed(p, m, nd);
    LedFlag(n, s, p, m, nd);
    OwnerQuiet(Place(n, Owner(m.round)), s.bar.members[Owner(m.round)], s.nodes[Owner(m.round)]);
    LedOut(n, s, m, j, m.round);
    if nd.local.otherLedOn {
      step := Main(j, lux);
    } else {
      StillCounting(s.bar, p, nd);
      FrameShape(n, s, j);
      step := Deliver(j);
    }
  }

  lemma OwnerQuiet(p: Place, m: Barrier.Member, nd: Node)
    requires p.Valid() && Quiet(p, m, nd)
    ensures !nd.ledPending && m.outbox == {}
  {
  }

  /** The LED frame of a phase its owner has entered is on the bus: heard, or still ahead. */
  lemma LedOut(n: nat, s: Sys, m: Barrier.Member, idx: nat, q: nat)
    requires |s.nodes| == |s.bar.members| == n && LedInv(n, s) && 1 <= q < Rounds(n) && Owner(q) < n && Owner(q) != idx
    requires s.bar.members[Owner(q)].round >= q && !s.nodes[Owner(q)].ledPending
    ensures LedHeard(s.ledAt, m, idx, q) || m.cursor < |s.data|
  {
    assert LedSent(s, q);
  }

  lemma StillCounting(bar: Barrier.State, p: Place, nd: Node)
    requires p.Valid() && |bar.members| == p.n && Barrier.Inv(bar, p.n, 1) && Ready(p, bar.members[p.idx], nd)
    requires !bar.members[p.idx].queued
    ensures nd.local.numReady < p.n
  {
    hide Barrier.Inv, Shape;
    CountOf(p, bar.members[p.idx], nd);
    Barrier.CountIsEnough(bar, p.n, 1, p.idx);
  }

  lemma WaitingForLed(p: Place, m: Barrier.Member, nd: Node)
    requires p.Valid() && Quiet(p, m, nd) && Ready(p, m, nd) && !m.queued && m.round < Rounds(p.n)
    ensures nd.local.state == WaitLedOn && 1 <= m.round && Owner(m.round) < p.n && nd.local.InBounds()
    ensures m.outbox == {} && !nd.ledPending
  {
  }

  lemma FrameShape(n: nat, s: Sys, j: nat)
    requires Inv(n, s) && j < n && s.bar.members[j].cursor < |s.bar.log|
    ensures var c := s.bar.members[j].cursor;
            s.data[c].LedFrame? || (s.bar.log[c].Burst? && s.bar.log[c].tag.sender < n)
  {
    hide Holds, Barrier.Inv, LedInv;
    assert SlotInv(Readys(s), s.bar.log[s.bar.members[j].cursor], s.data[s.bar.members[j].cursor]);
  }

  /** All least-round nodes have sent READY: one of them has everybody's, or a frame is there. */
  lemma WaitsForReady(n: nat, s: Sys, j: nat, lux: real) returns (step: Step)
    requires Inv(n, s) && j < n && s.bar.members[j].queued
    requires forall i :: 0 <= i < n ==> Quiet(Place(n, i), s.bar.members[i], s.nodes[i])
    requires forall i :: 0 <= i < n ==> s.bar.members[j].round <= s.bar.members[i].round
    requires forall i :: 0 <= i < n && s.bar.members[i].round == s.bar.members[j].round ==> s.bar.members[i].queued
    ensures Enabled(n, s, step)
  {
    hide Holds, Barrier.Inv, BusInv, LedInv, Ready;
    AllAreReady(n, s);
    var m, nd := s.bar.members[j], s.nodes[j];
    assert Quiet(Place(n, j), m, nd);
    WaitingForReady(Place(n, j), m, nd);
    if AllReady(Place(n, j), nd.local) {
      step := Main(j, lux);
    } else {
      StillWaits(s.bar, Place(n, j), nd);
      Barrier.FrameAhead(s.bar, n, 1, j);
      step := Deliver(j);
      FrameShape(n, s, j);
    }
  }

  lemma WaitingForReady(p: Place, m: Barrier.Member, nd: Node)
    requires p.Valid() && Ready(p, m, nd) && m.queued
    ensures nd.local.state == WaitReady && nd.local.InBounds()
  {
  }

  // Termination.

  /** How far a node is: four steps a round. */
  ghost function Stage(m: Barrier.Member, state: State): nat {
    4 * m.round + if m.queued then 3 else if state == WaitTransient then 2 else if state == WaitLedOn then 1 else 0
  }

  ghost function NodeLeft(n: nat, m: Barrier.Member, nd: Node): int {
    ToSend(n, m, nd) + (AllFrames(n) - m.cursor) + (4 * Rounds(n) - Stage(m, nd.local.state))
  }

  /** An upper bound on the moves left. */
  ghost function Left(n: nat, members: seq<Barrier.Member>, nodes: seq<Node>, k: nat): int
    requires k <= |members| == |nodes|
  {
    if k == 0 then 0 else Left(n, members, nodes, k - 1) + NodeLeft(n, members[k - 1], nodes[k - 1])
  }

  ghost function Measure(n: nat, s: Sys): int
    requires |s.nodes| == |s.bar.members|
  {
    Left(n, s.bar.members, s.nodes, |s.nodes|)
  }

  lemma {:induction false} LeftChanges(n: nat, members: seq<Barrier.Member>, nodes: seq<Node>, j: nat, m': Barrier.Member, nd': Node, k: nat)
    requires k <= |members| == |nodes| && j < |nodes|
    ensures Left(n, members[j := m'], nodes[j := nd'], k)
         == Left(n, members, nodes, k) + if j < k then NodeLeft(n, m', nd') - NodeLeft(n, members[j], nodes[j]) else 0
  {
    if k > 0 {
      LeftChanges(n, members, nodes, j, m', nd', k - 1);
    }
  }

  lemma MoveDecreases(n: nat, s: Sys, step: Step)
    requires Inv(n, s) && Enabled(n, s, step)
    ensures |Next(n, s, step).nodes| == |Next(n, s, step).bar.members| == n
    ensures Measure(n, Next(n, s, step)) < Measure(n, s)
  {
    hide Holds, Barrier.Inv, LedInv, BusInv, Enabled, Next, NodeLeft, Ready;
    var j, s' := step.j, Next(n, s, step);
    AllAreReady(n, s);
    EnabledIndex(n, s, step);
    NodeMoves(n, s, step);
    LeftChanges(n, s.bar.members, s.nodes, j, s'.bar.members[j], s'.nodes[j], n);
  }

  lemma EnabledIndex(n: nat, s: Sys, step: Step)
    requires Sized(n, s) && Enabled(n, s, step)
    ensures step.j < n
  {
  }

  /** The moving node's own share goes down. */
  lemma NodeMoves(n: nat, s: Sys, step: Step)
    requires Sized(n, s) && Enabled(n, s, step) && step.j < n && Ready(Place(n, step.j), s.bar.members[step.j], s.nodes[step.j])
    ensures var s' := Next(n, s, step);
            && OnlyNode(s, s', step.j)
            && NodeLeft(n, s'.bar.members[step.j], s'.nodes[step.j]) < NodeLeft(n, s.bar.members[step.j], s.nodes[step.j])
  {
    hide AllFrames, Ready;
    match step
    case TransmitReady(j) =>
    case TransmitLed(j) =>
      assert Barrier.Put(s.bar).members == s.bar.members;
      assert s.bar.members == s.bar.members[j := s.bar.members[j]];
    case Deliver(j) =>
      hide ReceivedReady;
    case Main(j, lux) =>
      MainMoves(n, s, j, lux);
  }

  lemma MainMoves(n: nat, s: Sys, j: nat, lux: real)
    requires Sized(n, s) && Enabled(n, s, Main(j, lux)) && Ready(Place(n, j), s.bar.members[j], s.nodes[j])
    ensures var s' := AfterMain(n, s, j, lux);
            && OnlyNode(s, s', j)
            && NodeLeft(n, s'.bar.members[j], s'.nodes[j]) < NodeLeft(n, s.bar.members[j], s.nodes[j])
  {
    hide AllFrames, Passed, AfterPass, Initialised, Measured;
    var s' := AfterMain(n, s, j, lux);
    PassCases(Place(n, j), s.nodes[j], lux);
    PassStates(Place(n, j), s.nodes[j], lux);
    OneChunk();
    assert s.bar.members == s.bar.members[j := s.bar.members[j]];
  }

  lemma PassStates(p: Place, nd: Node, lux: real)
    requires p.Valid() && nd.local.Sized() && nd.local.InBounds() && Acts(p, nd.local)
    ensures nd.local.state == CalibInit ==> AfterPass(p, nd, lux).local.state == WaitReady
    ensures nd.local.state == WaitTransient ==> AfterPass(p, nd, lux).local.state == WaitReady
    ensures nd.local.state == WaitLedOn ==> AfterPass(p, nd, lux).local.state == WaitTransient
  {
  }

  lemma MeasureNonneg(n: nat, s: Sys)
    requires Inv(n, s)
    ensures Measure(n, s) >= 0
  {
    hide Holds, Barrier.Inv, LedInv, BusInv;
    AllAreReady(n, s);
    UnsentNonneg(n, s.bar.members, s.nodes, n);
    forall i | 0 <= i < n ensures s.bar.members[i].cursor <= AllFrames(n) {
      CursorBound(s.bar, n, i);
    }
    LeftNonneg(n, s.bar.members, s.nodes, n);
  }

  lemma {:induction false} UnsentNonneg(n: nat, members: seq<Barrier.Member>, nodes: seq<Node>, k: nat)
    requires 1 <= n <= MAX_NUM_NODES && k <= |members| == |nodes| == n
    requires forall j :: 0 <= j < n ==> Ready(Place(n, j), members[j], nodes[j]) && nodes[j].leds <= 2
    ensures Unsent(n, members, nodes, k) >= 0
  {
    if k > 0 {
      UnsentNonneg(n, members, nodes, k - 1);
      SendNonneg(Place(n, k - 1), members[k - 1], nodes[k - 1]);
    }
  }

  lemma SendNonneg(p: Place, m: Barrier.Member, nd: Node)
    requires p.Valid() && Ready(p, m, nd) && nd.leds <= 2
    ensures ToSend(p.n, m, nd) >= 0 && Stage(m, nd.local.state) <= 4 * Rounds(p.n)
  {
  }

  lemma {:induction false} LeftNonneg(n: nat, members: seq<Barrier.Member>, nodes: seq<Node>, k: nat)
    requires 1 <= n <= MAX_NUM_NODES && k <= |members| == |nodes| == n
    requires forall j :: 0 <= j < n ==> Ready(Place(n, j), members[j], nodes[j]) && nodes[j].leds <= 2 && members[j].cursor <= AllFrames(n)
    ensures Left(n, members, nodes, k) >= 0
  {
    if k > 0 {
      LeftNonneg(n, members, nodes, k - 1);
      SendNonneg(Place(n, k - 1), members[k - 1], nodes[k - 1]);
    }
  }

  /** No run is longer than the measure of the start. */
  lemma {:induction false} RunsEnd(n: nat, states: seq<Sys>, steps: seq<Step>)
    requires Run(n, states, steps)
    ensures |states[|steps|].nodes| == |states[|steps|].bar.members|
    ensures |steps| + Measure(n, states[|steps|]) <= Measure(n, CalibrationProtocol.Start(n))
    ensures |steps| <= Measure(n, CalibrationProtocol.Start(n))
  {
    hide Holds, Barrier.Inv, LedInv, BusInv, Enabled, Next, Measure;
    RunInv(n, states, steps, |steps|);
    MeasureNonneg(n, states[|steps|]);
    if |steps| > 0 {
      var k := |steps| - 1;
      assert Moves(n, states[k], steps[k], states[k + 1]);
      RunsEnd(n, states[..k + 1], steps[..k]);
      RunInv(n, states, steps, k);
      MoveDecreases(n, states[k], steps[k]);
    }
  }

  /** Every run that cannot go on has every node done, each having sent exactly 2n + 1 READY and two LED
      frames, all of which are on the bus. */
  lemma MaximalRunEnds(n: nat, states: seq<Sys>, steps: seq<Step>)
    requires Run(n, states, steps)
    requires Sized(n, states[|steps|]) && forall step :: !Enabled(n, states[|steps|], step)
    ensures AllDone(states[|steps|])
    ensures forall j :: 0 <= j < n ==> |states[|steps|].nodes[j].ready| == 2 * n + 1 && states[|steps|].nodes[j].leds == 2
    ensures |states[|steps|].bar.log| == n * (2 * n + 1) + n * 2
  {
    hide Holds, Barrier.Inv, LedInv, BusInv, Enabled, Ready;
    var s := states[|steps|];
    RunInv(n, states, steps, |steps|);
    if !AllDone(s) {
      var step := Progress(n, s, 0.0);
    }
    forall j | 0 <= j < n ensures |s.nodes[j].ready| == 2 * n + 1 && s.nodes[j].leds == 2 {
      DoneHistory(n, s, j);
    }
    AllAreReady(n, s);
    forall j | 0 <= j < n ensures ToSend(n, s.bar.members[j], s.nodes[j]) == 0 {
      DoneHistory(n, s, j);
      SentAll(n, s, j);
    }
    NothingUnsent(n, s.bar.members, s.nodes, n);
    assert AllFrames(n) == n * (2 * n + 1) + n * 2;
  }

  lemma SentAll(n: nat, s: Sys, j: nat)
    requires Sized(n, s) && j < n && forall step :: !Enabled(n, s, step)
    requires Inv(n, s) && s.bar.members[j].round == Rounds(n) && s.nodes[j].leds == 2
    requires Ready(Place(n, j), s.bar.members[j], s.nodes[j])
    ensures ToSend(n, s.bar.members[j], s.nodes[j]) == 0
  {
    hide Holds, Barrier.Inv, LedInv, BusInv, Enabled;
    if s.bar.members[j].outbox != {} {
      OutboxFull(n, s, j);
    }
  }

  lemma {:induction false} NothingUnsent(n: nat, members: seq<Barrier.Member>, nodes: seq<Node>, k: nat)
    requires k <= |members| == |nodes| == n && forall j :: 0 <= j < n ==> ToSend(n, members[j], nodes[j]) == 0
    ensures Unsent(n, members, nodes, k) == 0
  {
    if k > 0 {
      NothingUnsent(n, members, nodes, k - 1);
    }
  }

  /** Node `j` measures `reading(j, i)` when it sends its READY frame number `i`. */
  type Readings = (nat, nat) -> real

  ghost predicate Follows(s: Sys, reading: Readings) {
    forall j :: 0 <= j < |s.nodes| ==> NodeFollows(s.nodes[j], j, reading)
  }

  ghost predicate NodeFollows(nd: Node, j: nat, reading: Readings) {
    && (nd.ready != [] ==> nd.ready[0] == reading(j, 0))
    && forall i :: 0 <= i < |nd.lux| ==> nd.lux[i] == reading(j, i + 1)
  }

  /** Every run can be completed, whatever the sensors read from then on. */
  lemma Completed(n: nat, states: seq<Sys>, steps: seq<Step>, reading: Readings) returns (states': seq<Sys>, steps': seq<Step>)
    requires Run(n, states, steps)
    ensures Run(n, states', steps') && states <= states' && steps <= steps' && AllDone(states'[|steps'|])
    ensures Follows(states[|steps|], reading) ==> Follows(states'[|steps'|], reading)
    decreases Measure(n, CalibrationProtocol.Start(n)) - |steps|
  {
    hide Holds, Barrier.Inv, LedInv, BusInv, Enabled, Next, Measure, Follows;
    var s := states[|steps|];
    RunsEnd(n, states, steps);
    if AllDone(s) {
      states', steps' := states, steps;
    } else {
      RunInv(n, states, steps, |steps|);
      var step := ReadingStep(n, s, reading);
      Extended(n, states, steps, step);
      RunsEnd(n, states + [Next(n, s, step)], steps + [step]);
      states', steps' := Completed(n, states + [Next(n, s, step)], steps + [step], reading);
    }
  }

  /** A possible move in which a measuring node reads what it should. */
  lemma ReadingStep(n: nat, s: Sys, reading: Readings) returns (step: Step)
    requires Inv(n, s) && !AllDone(s)
    ensures Sized(n, s) && Enabled(n, s, step)
    ensures Follows(s, reading) ==> Follows(Next(n, s, step), reading)
  {
    hide Holds, Barrier.Inv, LedInv, BusInv, Enabled, Next, Follows, AllDone;
    var any := Progress(n, s, 0.0);
    step := if any.Main? && any.j < n then Main(any.j, reading(any.j, |s.nodes[any.j].ready|)) else any;
    ReadingFree(n, s, any, step);
    EnabledIndex(n, s, step);
    AllAreReady(n, s);
    HistoryOf(n, s, step.j);
    if Follows(s, reading) {
      KeepsFollowing(n, s, step, reading);
    }
  }

  lemma HistoryOf(n: nat, s: Sys, j: nat)
    requires Inv(n, s) && j < n
    ensures History(Place(n, j), s.bar.members[j], s.nodes[j])
  {
    hide Barrier.Inv, LedInv, BusInv, Shape, Tables, Flags, History;
    NodeHolds(n, s, j);
  }

  /** Which moves are possible does not depend on the readings. */
  lemma ReadingFree(n: nat, s: Sys, any: Step, step: Step)
    requires Sized(n, s) && Enabled(n, s, any)
    requires step == any || (any.Main? && step.Main? && step.j == any.j)
    ensures Enabled(n, s, step) && step.j < n
  {
  }

  lemma KeepsFollowing(n: nat, s: Sys, step: Step, reading: Readings)
    requires Sized(n, s) && Enabled(n, s, step) && step.j < n && Follows(s, reading)
    requires Ready(Place(n, step.j), s.bar.members[step.j], s.nodes[step.j])
    requires History(Place(n, step.j), s.bar.members[step.j], s.nodes[step.j])
    requires step.Main? ==> step.lux == reading(step.j, |s.nodes[step.j].ready|)
    ensures Follows(Next(n, s, step), reading)
  {
    hide Ready;
    var nd := s.nodes[step.j];
    assert NodeFollows(nd, step.j, reading);
    match step
    case TransmitReady(j) =>
    case TransmitLed(j) =>
    case Deliver(j) =>
      hide ReceivedReady;
    case Main(j, lux) =>
      hide Passed, AfterPass, History;
      PassCases(Place(n, j), nd, lux);
      Measuring(Place(n, j), s.bar.members[j], nd);
  }

  /** The readings taken so far are one fewer than the READY frames sent. */
  lemma Measuring(p: Place, m: Barrier.Member, nd: Node)
    requires p.Valid() && Ready(p, m, nd) && History(p, m, nd)
    ensures nd.local.state == CalibInit ==> nd.ready == [] && nd.lux == []
    ensures nd.local.state == WaitTransient ==> |nd.ready| == |nd.lux| + 1
  {
  }

  lemma Extended(n: nat, states: seq<Sys>, steps: seq<Step>, step: Step)
    requires Run(n, states, steps) && Sized(n, states[|steps|]) && Enabled(n, states[|steps|], step)
    ensures Run(n, states + [Next(n, states[|steps|], step)], steps + [step])
  {
    hide Sized, Enabled, Next;
    var states', steps' := states + [Next(n, states[|steps|], step)], steps + [step];
    forall k | 0 <= k < |steps'| ensures Moves(n, states'[k], steps'[k], states'[k + 1]) {
      if k < |steps| {
        assert Moves(n, states[k], steps[k], states[k + 1]);
      }
    }
  }

  /** So there is a complete two-node run that ends with node 1 holding a wrong residual for node 0. */
  lemma EarlyResidualHappens() returns (states: seq<Sys>, steps: seq<Step>)
    ensures Run(2, states, steps) && AllDone(states[|steps|]) && |states[|steps|].nodes| == 2
    ensures states[|steps|].nodes[0].local.Sized() && states[|steps|].nodes[1].local.Sized()
    ensures states[|steps|].nodes[1].local.residuals[0] != states[|steps|].nodes[0].local.residuals[0]
  {
    hide Next, AllDone, Inv;
    var first := [CalibrationProtocol.Start(2)];
    assert Run(2, first, []);
    var s0 := first[0];
    assert Enabled(2, s0, Main(0, 1.0));
    Extended(2, first, [], Main(0, 1.0));
    var s1 := Next(2, s0, Main(0, 1.0));
    FirstMove(s0);
    Extended(2, [s0, s1], [Main(0, 1.0)], TransmitReady(0));
    var s2 := Next(2, s1, TransmitReady(0));
    SecondMove(s0, s1);
    Extended(2, [s0, s1, s2], [Main(0, 1.0), TransmitReady(0)], Deliver(1));
    var s3 := Next(2, s2, Deliver(1));
    var begun := [Main(0, 1.0), TransmitReady(0), Deliver(1)];
    assert [s0, s1] + [s2] == [s0, s1, s2] && [s0, s1, s2] + [s3] == [s0, s1, s2, s3];
    assert [] + [Main(0, 1.0)] == [Main(0, 1.0)] && first + [s1] == [s0, s1];
    states, steps := Completed(2, [s0, s1, s2, s3], begun, (j, i) => 0.0);
    assert steps[0] == begun[0] && steps[1] == begun[1] && steps[2] == begun[2];
    EarlyResidualIsLost(states, steps);
  }

  lemma FirstMove(s0: Sys)
    requires s0 == CalibrationProtocol.Start(2) && Sized(2, s0) && Enabled(2, s0, Main(0, 1.0))
    ensures Sized(2, Next(2, s0, Main(0, 1.0))) && Enabled(2, Next(2, s0, Main(0, 1.0)), TransmitReady(0))
  {
    OneChunk();
  }

  lemma SecondMove(s0: Sys, s1: Sys)
    requires s0 == CalibrationProtocol.Start(2) && Sized(2, s0) && Enabled(2, s0, Main(0, 1.0)) && s1 == Next(2, s0, Main(0, 1.0))
    requires Sized(2, s1) && Enabled(2, s1, TransmitReady(0))
    ensures Sized(2, Next(2, s1, TransmitReady(0))) && Enabled(2, Next(2, s1, TransmitReady(0)), Deliver(1))
  {
    OneChunk();
  }

  /** And there is a complete two-node run in which both nodes measure a negative gain everywhere (a first
      reading of 10, a second of 5) and end with different gain matrices. */
  lemma NegativeGainHappens() returns (states: seq<Sys>, steps: seq<Step>)
    ensures Run(2, states, steps) && AllDone(states[|steps|]) && |states[|steps|].nodes| == 2
    ensures states[|steps|].nodes[0].local.Sized() && states[|steps|].nodes[1].local.Sized()
    ensures 1 < |states[|steps|].nodes[1].lux| && MeasuredGain(states[|steps|].nodes[1], 0) < 0.0
    ensures states[|steps|].nodes[1].local.gains[1][0] == MeasuredGain(states[|steps|].nodes[1], 0)
    ensures states[|steps|].nodes[0].local.gains[1][0] != states[|steps|].nodes[1].local.gains[1][0]
  {
    hide Next, Inv, AllDone;
    var reading: Readings := (j, i) => if i == 1 then 10.0 else 5.0;
    states, steps := Completed(2, [CalibrationProtocol.Start(2)], [], reading);
    var s := states[|steps|];
    RunInv(2, states, steps, |steps|);
    FinalTables(2, s, 0, 1, 0);
    FinalTables(2, s, 1, 1, 0);
    assert NodeFollows(s.nodes[1], 1, reading);
    assert s.nodes[1].lux[0] == reading(1, 1) && s.nodes[1].lux[1] == reading(1, 2);
  }
}
