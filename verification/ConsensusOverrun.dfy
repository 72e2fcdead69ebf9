/** What the scheduling rule is for. In a free run a node may consume any frame at any time, as the
    firmware's loop does when it empties the receive buffer before its next pass. A node is overrun when it
    consumes another node's frame although its count is complete. The file proves that this is the only way
    a count can pass its target, that an overrun node is stuck for good, and that it happens. */
module ConsensusOverrun {
  import opened Vectors
  import opened Framing
  import opened ConsensusNode
  import opened ConsensusProtocol
  import opened ConsensusResults
  import opened ConsensusLiveness
  import Barrier

  // One node alone.

  /** What may reach a waiting node: a frame, or a main-loop pass. */
  datatype Event = Frame(data: Payload) | Pass

  function Fed(c: Config, l: Local, events: seq<Event>): (l': Local)
    requires c.Valid() && l.Sized(c.n)
    ensures l'.Sized(c.n)
  {
    if events == [] then l
    else
      var before := Fed(c, l, events[..|events| - 1]);
      match events[|events| - 1]
      case Frame(data) => Receive(c, before, data)
      case Pass => MainPass(c, before).local
  }

  /** A node that consumes one frame more than it expects before its next pass is stuck: the test is for
      equality, and nothing lowers the count. */
  lemma {:induction false} OverrunSticks(c: Config, l: Local, events: seq<Event>)
    requires c.Valid() && l.Sized(c.n) && l.phase == Waiting && l.numReceived > Expected(c.n)
    ensures Fed(c, l, events).phase == Waiting && Fed(c, l, events).numReceived > Expected(c.n)
    ensures Fed(c, l, events).av == l.av && Fed(c, l, events).numIter == l.numIter
  {
    if events != [] {
      OverrunSticks(c, l, events[..|events| - 1]);
    }
  }

  // Free runs.

  ghost predicate FreeRun(cfg: seq<Config>, states: seq<Sys>, steps: seq<Step>) {
    && ValidConfigs(cfg)
    && |states| == |steps| + 1 && states[0] == ConsensusProtocol.Start(|cfg|)
    && forall k :: 0 <= k < |steps| ==> FreeMoves(cfg, states[k], steps[k], states[k + 1])
  }

  ghost predicate FreeMoves(cfg: seq<Config>, s: Sys, step: Step, s': Sys) {
    Sized(cfg, s) && Possible(cfg, s, step) && s' == Next(cfg, s, step)
  }

  lemma FreeShape(cfg: seq<Config>, states: seq<Sys>, steps: seq<Step>)
    requires FreeRun(cfg, states, steps)
    ensures |states| == |steps| + 1
  {
  }

  /** A move that overruns node `j`. */
  ghost predicate Overran(cfg: seq<Config>, s: Sys, step: Step, j: nat) {
    Sized(cfg, s) && Possible(cfg, s, step) && Overruns(cfg, s, step) && step.j == j
  }

  /** Node `j` was overrun among the first `k` moves. */
  ghost predicate OverrunBefore(cfg: seq<Config>, states: seq<Sys>, steps: seq<Step>, k: nat, j: nat)
    requires k <= |steps| <= |states|
  {
    exists i :: 0 <= i < k && Overran(cfg, states[i], steps[i], j)
  }

  /** Waiting with more frames counted than expected. */
  ghost predicate Stuck(n: nat, nd: Node)
    requires 1 <= n
  {
    nd.local.phase == Waiting && nd.local.numReceived > Expected(n)
  }

  /** How an overrun node compares with one that stopped consuming just before it was overrun: they differ
      only in what was received since. */
  ghost predicate Stopped(n: nat, m: Barrier.Member, nd: Node, m': Barrier.Member, nd': Node)
    requires 1 <= n
  {
    && Stuck(n, nd) && nd'.local.phase == Waiting
    && nd == nd'.(local := nd.local)
    && m == m'.(cursor := m.cursor, got := m.got)
  }

  /** `r` is a state of a run that keeps the rule, in which the overrun nodes have stopped consuming and
      everything else is as in `s`. */
  ghost predicate Shadows(cfg: seq<Config>, s: Sys, r: Sys, dead: set<nat>) {
    && Sized(cfg, s) && Inv(cfg, r)
    && s.bar.log == r.bar.log && s.bar.at == r.bar.at && s.data == r.data
    && forall j :: 0 <= j < |cfg| ==>
         if j in dead then Stopped(|cfg|, s.bar.members[j], s.nodes[j], r.bar.members[j], r.nodes[j])
         else s.nodes[j] == r.nodes[j] && s.bar.members[j] == r.bar.members[j]
  }

  /** Every move of a free run is either the same move of the shadow, or a frame consumed by a node that is
      or gets overrun, at which the shadow stays. */
  lemma ShadowStep(cfg: seq<Config>, s: Sys, r: Sys, dead: set<nat>, step: Step) returns (r': Sys, dead': set<nat>)
    requires Shadows(cfg, s, r, dead) && Possible(cfg, s, step)
    ensures Shadows(cfg, Next(cfg, s, step), r', dead')
    ensures dead' == if Overruns(cfg, s, step) then dead + {step.j} else dead
  {
    hide Inv, Barrier.Inv;
    NextSized(cfg, s, step);
    InvSized(cfg, r);
    if step.Deliver? && (step.j in dead || Overruns(cfg, s, step)) {
      r', dead' := r, if Overruns(cfg, s, step) then dead + {step.j} else dead;
      DeadDelivers(cfg, s, r, dead, step);
    } else {
      r', dead' := Next(cfg, r, step), dead;
      SameMove(cfg, s, r, dead, step);
      StepInv(cfg, r, step);
    }
  }

  lemma InvSized(cfg: seq<Config>, r: Sys)
    requires Inv(cfg, r)
    ensures Sized(cfg, r)
  {
  }

  lemma DeadDelivers(cfg: seq<Config>, s: Sys, r: Sys, dead: set<nat>, step: Step)
    requires Shadows(cfg, s, r, dead) && Possible(cfg, s, step) && step.Deliver? && (step.j in dead || Overruns(cfg, s, step))
    ensures Sized(cfg, Next(cfg, s, step)) ==> Shadows(cfg, Next(cfg, s, step), r, dead + {step.j})
    ensures step.j in dead ==> !Overruns(cfg, s, step)
  {
    hide Inv, Barrier.Inv, AddFrame;
  }

  lemma SameMove(cfg: seq<Config>, s: Sys, r: Sys, dead: set<nat>, step: Step)
    requires Shadows(cfg, s, r, dead) && Sized(cfg, r) && Possible(cfg, s, step)
    requires !(step.Deliver? && (step.j in dead || Overruns(cfg, s, step)))
    ensures Enabled(cfg, r, step) && !Overruns(cfg, s, step)
    ensures Sized(cfg, Next(cfg, s, step)) && Inv(cfg, Next(cfg, r, step)) ==> Shadows(cfg, Next(cfg, s, step), Next(cfg, r, step), dead)
  {
    hide Inv, Barrier.Inv, MainPass, AfterPass, Receive;
    match step
    case Transmit(j, c) =>
    case Deliver(j) =>
    case Main(j, stale) =>
      assert j !in dead;
  }

  /** Every state of a free run has a shadow, with exactly the nodes overrun so far stopped. */
  lemma {:induction false} Shadowed(cfg: seq<Config>, states: seq<Sys>, steps: seq<Step>, k: nat) returns (r: Sys, dead: set<nat>)
    requires FreeRun(cfg, states, steps) && k <= |steps|
    ensures Shadows(cfg, states[k], r, dead)
    ensures forall j :: j in dead <==> OverrunBefore(cfg, states, steps, k, j)
  {
    hide Shadows, Possible, Overruns, Next, Sized;
    if k == 0 {
      r, dead := states[0], {};
      StartShadow(cfg);
    } else {
      r, dead := Shadowed(cfg, states, steps, k - 1);
      var before := dead;
      assert FreeMoves(cfg, states[k - 1], steps[k - 1], states[k]);
      r, dead := ShadowStep(cfg, states[k - 1], r, before, steps[k - 1]);
      forall j ensures j in dead <==> OverrunBefore(cfg, states, steps, k, j) {
        OneMoveMore(cfg, states, steps, k, j);
      }
    }
  }

  lemma StartShadow(cfg: seq<Config>)
    requires ValidConfigs(cfg)
    ensures Shadows(cfg, ConsensusProtocol.Start(|cfg|), ConsensusProtocol.Start(|cfg|), {})
  {
    hide Barrier.Inv, BusInv, Holds;
    StartInv(cfg);
  }

  lemma OneMoveMore(cfg: seq<Config>, states: seq<Sys>, steps: seq<Step>, k: nat, j: nat)
    requires 0 < k <= |steps| <= |states|
    ensures OverrunBefore(cfg, states, steps, k, j)
            <==> OverrunBefore(cfg, states, steps, k - 1, j) || Overran(cfg, states[k - 1], steps[k - 1], j)
  {
    hide Overran;
  }

  // The results.

  /** In every free run and for every node: its count passes the number of frames expected exactly when the
      node was overrun, and from then on it waits. */
  lemma CountPassesIff(cfg: seq<Config>, states: seq<Sys>, steps: seq<Step>, k: nat, j: nat)
    requires FreeRun(cfg, states, steps) && k <= |steps| && j < |cfg|
    ensures |states[k].nodes| == |cfg|
    ensures states[k].nodes[j].local.numReceived > Expected(|cfg|) <==> OverrunBefore(cfg, states, steps, k, j)
    ensures OverrunBefore(cfg, states, steps, k, j) ==> Stuck(|cfg|, states[k].nodes[j])
  {
    hide Inv, OverrunBefore, FreeRun;
    var r, dead := Shadowed(cfg, states, steps, k);
    if j !in dead {
      CountBound(cfg, r, j);
    }
  }

  lemma CountBound(cfg: seq<Config>, r: Sys, j: nat)
    requires Inv(cfg, r) && j < |cfg|
    ensures r.nodes[j].local.numReceived <= Expected(|cfg|)
  {
    hide Holds, Barrier.Inv, BusInv;
    NodeFacts(cfg, r, j);
    HoldsCount(Rxs(r), cfg[j], r.bar.members[j], r.nodes[j]);
    Barrier.CountIsEnough(r.bar, |cfg|, NumMessages(|cfg|), j);
  }

  /** A free run that cannot go on has every node off exactly when no node was overrun; so the scheduling
      rule is what termination needs and no more. */
  lemma MaximalFreeRunEndsIff(cfg: seq<Config>, states: seq<Sys>, steps: seq<Step>)
    requires FreeRun(cfg, states, steps)
    requires Sized(cfg, states[|steps|]) && forall step :: !Possible(cfg, states[|steps|], step)
    ensures (forall j :: 0 <= j < |cfg| ==> states[|steps|].nodes[j].local.phase == Off)
            <==> forall j: nat :: j < |cfg| ==> !OverrunBefore(cfg, states, steps, |steps|, j)
  {
    hide Inv, OverrunBefore, FreeRun, Possible;
    FreeShape(cfg, states, steps);
    var k := |steps|;
    var r, dead := Shadowed(cfg, states, steps, k);
    if j: nat :| j < |cfg| && OverrunBefore(cfg, states, steps, k, j) {
      CountPassesIff(cfg, states, steps, k, j);
    } else {
      InvSized(cfg, r);
      NoneStopped(cfg, states[k], r, dead);
      if exists j :: 0 <= j < |cfg| && r.nodes[j].local.phase != Off {
        var step := Progress(cfg, r, [0, 0, 0, 0, 0, 0, 0, 0]);
      }
    }
  }

  lemma NoneStopped(cfg: seq<Config>, s: Sys, r: Sys, dead: set<nat>)
    requires Shadows(cfg, s, r, dead) && Sized(cfg, r) && forall j: nat :: j < |cfg| ==> j !in dead
    ensures s == r
  {
    hide Inv;
    assert s.bar.members == r.bar.members && s.nodes == r.nodes;
  }

  // It happens.

  /** A state reached by a free run, with its bus and members as given. */
  ghost predicate Reaches(cfg: seq<Config>, states: seq<Sys>, steps: seq<Step>, bar: Barrier.State) {
    FreeRun(cfg, states, steps) && Inv(cfg, states[|steps|]) && states[|steps|].bar == bar
  }

  lemma FreeExtended(cfg: seq<Config>, states: seq<Sys>, steps: seq<Step>, step: Step)
    requires FreeRun(cfg, states, steps) && Sized(cfg, states[|steps|]) && Possible(cfg, states[|steps|], step)
    ensures FreeRun(cfg, states + [Next(cfg, states[|steps|], step)], steps + [step])
  {
    hide Sized, Possible, Next;
    var states', steps' := states + [Next(cfg, states[|steps|], step)], steps + [step];
    forall k | 0 <= k < |steps'| ensures FreeMoves(cfg, states'[k], steps'[k], states'[k + 1]) {
      if k < |steps| {
        assert FreeMoves(cfg, states[k], steps[k], states[k + 1]);
      }
    }
  }

  lemma Go(cfg: seq<Config>, states: seq<Sys>, steps: seq<Step>, step: Step, bar: Barrier.State)
    returns (states': seq<Sys>, steps': seq<Step>)
    requires FreeRun(cfg, states, steps) && Inv(cfg, states[|steps|]) && Sized(cfg, states[|steps|])
    requires Enabled(cfg, states[|steps|], step) && Next(cfg, states[|steps|], step).bar == bar
    ensures Reaches(cfg, states', steps', bar)
  {
    hide Inv, Enabled, Next, FreeRun;
    FreeShape(cfg, states, steps);
    assert Possible(cfg, states[|steps|], step) by { EnabledPossible(cfg, states[|steps|], step); }
    StepInv(cfg, states[|steps|], step);
    FreeExtended(cfg, states, steps, step);
    states', steps' := states + [Next(cfg, states[|steps|], step)], steps + [step];
  }

  lemma NodePhase(cfg: seq<Config>, s: Sys, j: nat)
    requires Inv(cfg, s) && j < |cfg|
    ensures Sized(cfg, s)
    ensures var m, nd := s.bar.members[j], s.nodes[j];
            && m.round <= MAX_ITER && (nd.local.phase == Off <==> m.round == MAX_ITER) && (nd.local.phase == Waiting <==> m.queued)
            && (nd.local.phase == Off || nd.local.phase == Iterate || nd.local.phase == Waiting)
            && nd.local.numReceived == |m.got|
            && (m.outbox != {} && m.Latest() > 0 ==> |nd.burst| == NumMessages(|cfg|))
  {
    hide Holds, Barrier.Inv, BusInv;
    NodeFacts(cfg, s, j);
    HoldsPhase(Rxs(s), cfg[j], s.bar.members[j], s.nodes[j]);
  }

  lemma GoTransmit(cfg: seq<Config>, states: seq<Sys>, steps: seq<Step>, bar: Barrier.State, j: nat)
    returns (states': seq<Sys>, steps': seq<Step>)
    requires |cfg| == 2 && j < 2 && Reaches(cfg, states, steps, bar) && |bar.members| == 2
    requires bar.members[j].outbox == {0} && bar.members[j].Latest() > 0
    ensures Reaches(cfg, states', steps', Barrier.Transmit(bar, j, 0))
  {
    hide Inv;
    NodePhase(cfg, states[|steps|], j);
    states', steps' := Go(cfg, states, steps, Transmit(j, 0), Barrier.Transmit(bar, j, 0));
  }

  lemma GoDeliver(cfg: seq<Config>, states: seq<Sys>, steps: seq<Step>, bar: Barrier.State, j: nat)
    returns (states': seq<Sys>, steps': seq<Step>)
    requires |cfg| == 2 && j < 2 && Reaches(cfg, states, steps, bar) && |bar.members| == 2
    requires bar.members[j].cursor < |bar.log| && |bar.members[j].got| == 0
    ensures Reaches(cfg, states', steps', Barrier.Deliver(bar, j))
  {
    hide Inv;
    NodePhase(cfg, states[|steps|], j);
    states', steps' := Go(cfg, states, steps, Deliver(j), Barrier.Deliver(bar, j));
  }

  lemma GoSkip(cfg: seq<Config>, states: seq<Sys>, steps: seq<Step>, bar: Barrier.State, j: nat)
    returns (states': seq<Sys>, steps': seq<Step>)
    requires |cfg| == 2 && j < 2 && Reaches(cfg, states, steps, bar) && |bar.members| == 2
    requires bar.members[j].cursor < |bar.log| && OwnFrame(bar, j)
    ensures Reaches(cfg, states', steps', Barrier.Deliver(bar, j))
  {
    hide Inv;
    NodePhase(cfg, states[|steps|], j);
    states', steps' := Go(cfg, states, steps, Deliver(j), Barrier.Deliver(bar, j));
  }

  lemma GoSend(cfg: seq<Config>, states: seq<Sys>, steps: seq<Step>, bar: Barrier.State, j: nat)
    returns (states': seq<Sys>, steps': seq<Step>)
    requires |cfg| == 2 && j < 2 && Reaches(cfg, states, steps, bar) && |bar.members| == 2
    requires !bar.members[j].queued && bar.members[j].round < MAX_ITER && bar.members[j].outbox == {} && |bar.members[j].got| == 0
    ensures Reaches(cfg, states', steps', Barrier.Queue(bar, 1, j))
  {
    hide Inv, Next;
    var s := states[|steps|];
    NodePhase(cfg, s, j);
    MainCases(cfg, s, j, [0, 0, 0, 0, 0, 0, 0, 0]);
    states', steps' := Go(cfg, states, steps, Main(j, [0, 0, 0, 0, 0, 0, 0, 0]), Barrier.Queue(bar, 1, j));
  }

  lemma GoUpdate(cfg: seq<Config>, states: seq<Sys>, steps: seq<Step>, bar: Barrier.State, j: nat)
    returns (states': seq<Sys>, steps': seq<Step>)
    requires |cfg| == 2 && j < 2 && Reaches(cfg, states, steps, bar) && |bar.members| == 2
    requires bar.members[j].queued && |bar.members[j].got| == 1
    ensures Reaches(cfg, states', steps', Barrier.Pass(bar, j))
  {
    hide Inv, Next;
    var s := states[|steps|];
    NodePhase(cfg, s, j);
    MainCases(cfg, s, j, [0, 0, 0, 0, 0, 0, 0, 0]);
    states', steps' := Go(cfg, states, steps, Main(j, [0, 0, 0, 0, 0, 0, 0, 0]), Barrier.Pass(bar, j));
  }

  /** Any two nodes: node 0 completes its round and sends the next vector before node 1 empties its receive
      buffer, which then holds both of node 0's frames. Consuming both before its next pass overruns
      node 1. */
  lemma OverrunHappens(cfg: seq<Config>) returns (states: seq<Sys>, steps: seq<Step>)
    requires ValidConfigs(cfg) && |cfg| == 2
    ensures FreeRun(cfg, states, steps) && OverrunBefore(cfg, states, steps, |steps|, 1)
  {
    hide Inv, FreeRun, Next, Possible, Overruns, ValidConfigs, Sized;
    var bar := Barrier.Start(2);
    states, steps := [ConsensusProtocol.Start(2)], [];
    assert Reaches(cfg, states, steps, bar) by { StartReached(cfg); }
    states, steps := GoSend(cfg, states, steps, bar, 0);
    bar := Barrier.Queue(bar, 1, 0);
    states, steps := GoSend(cfg, states, steps, bar, 1);
    bar := Barrier.Queue(bar, 1, 1);
    OneChunk();
    states, steps := GoTransmit(cfg, states, steps, bar, 0);
    bar := Barrier.Transmit(bar, 0, 0);
    states, steps := GoTransmit(cfg, states, steps, bar, 1);
    bar := Barrier.Transmit(bar, 1, 0);
    states, steps := GoSkip(cfg, states, steps, bar, 0);
    bar := Barrier.Deliver(bar, 0);
    states, steps := GoDeliver(cfg, states, steps, bar, 0);
    bar := Barrier.Deliver(bar, 0);
    assert bar.members[0].got == {Barrier.Tag(1, 0, 0)};
    states, steps := GoUpdate(cfg, states, steps, bar, 0);
    bar := Barrier.Pass(bar, 0);
    states, steps := GoSend(cfg, states, steps, bar, 0);
    bar := Barrier.Queue(bar, 1, 0);
    states, steps := GoTransmit(cfg, states, steps, bar, 0);
    bar := Barrier.Transmit(bar, 0, 0);
    states, steps := GoDeliver(cfg, states, steps, bar, 1);
    bar := Barrier.Deliver(bar, 1);
    states, steps := GoSkip(cfg, states, steps, bar, 1);
    bar := Barrier.Deliver(bar, 1);
    assert bar.members[1].got == {Barrier.Tag(0, 0, 0)};
    FreeShape(cfg, states, steps);
    LastMove(cfg, states, steps, bar);
    states, steps := states + [Next(cfg, states[|steps|], Deliver(1))], steps + [Deliver(1)];
  }

  lemma OneChunk()
    ensures Barrier.Chunks(1) == {0}
  {
  }

  lemma StartReached(cfg: seq<Config>)
    requires ValidConfigs(cfg) && |cfg| == 2
    ensures Reaches(cfg, [ConsensusProtocol.Start(2)], [], Barrier.Start(2))
  {
    hide Inv;
    StartInv(cfg);
  }

  /** Node 1 waits with its count complete and the next frame is node 0's. */
  lemma LastMove(cfg: seq<Config>, states: seq<Sys>, steps: seq<Step>, bar: Barrier.State)
    requires |cfg| == 2 && Reaches(cfg, states, steps, bar) && |bar.members| == 2
    requires bar.members[1].queued && |bar.members[1].got| == 1
    requires bar.members[1].cursor < |bar.log| && !OwnFrame(bar, 1)
    ensures Sized(cfg, states[|steps|]) && Possible(cfg, states[|steps|], Deliver(1))
    ensures var states', steps' := states + [Next(cfg, states[|steps|], Deliver(1))], steps + [Deliver(1)];
            FreeRun(cfg, states', steps') && OverrunBefore(cfg, states', steps', |steps'|, 1)
  {
    hide Inv, FreeRun, Next;
    FreeShape(cfg, states, steps);
    var s := states[|steps|];
    NodePhase(cfg, s, 1);
    FreeExtended(cfg, states, steps, Deliver(1));
    var states', steps' := states + [Next(cfg, s, Deliver(1))], steps + [Deliver(1)];
    assert states'[|steps|] == s && steps'[|steps|] == Deliver(1);
    assert Overran(cfg, states'[|steps|], steps'[|steps|], 1);
  }
}
