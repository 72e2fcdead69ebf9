/** One node's consensus object: what it holds between two calls, what one pass of the main loop and
    one received frame do to it, and the firmware's class with its arrays updated in place. */
module ConsensusNode {
  import opened Globals
  import opened Vectors
  import opened Solver
  import opened FixedPoint
  import opened Framing

  const MAX_ITER: nat := 50

  /** consensusState. */
  datatype Phase = Off | Iterate | Sending | Waiting | Update

  /** What init() fixes for a whole run: numTotalNodes, nodeIdx, ki, LiRef, and the globals the solver
      reads. */
  datatype Config = Config(n: nat, idx: nat, rho: real, cost: real, k: Vec, liRef: real, residual: real) {
    ghost predicate Valid() {
      1 <= n < MAX_NUM_NODES && idx < n && |k| == n && rho > 0.0
    }

    function ProblemAt(av: Vec, lambda: Vec): Problem {
      Problem(idx, rho, cost, av, lambda, k, liRef, residual)
    }
  }

  /** The fields that change during a run. `received` has room for every node; the others are the
      first numTotalNodes entries. */
  datatype Local = Local(phase: Phase, numIter: nat, numReceived: nat, received: Vec,
                         best: Vec, av: Vec, lambda: Vec)
  {
    ghost predicate Sized(n: nat) {
      |received| == MAX_NUM_NODES && |best| == |av| == |lambda| == n
    }
  }

  /** numberOfMsgExpected. */
  function Expected(n: nat): nat
    requires 1 <= n
  {
    NumMessages(n) * (n - 1)
  }

  function Initial(n: nat): Local {
    Local(Iterate, 0, 0, Const(MAX_NUM_NODES, 0.0), Const(n, 0.0), Const(n, 0.0), Const(n, 0.0))
  }

  function NewAverage(received: real, best: real, count: nat): real {
    (received + best) / (count + 1) as real
  }

  function NewMultiplier(lambda: real, rho: real, best: real, av: real): real {
    lambda + rho * (best - av)
  }

  /** The new averages of the UPDATE state: the code divides by the number of messages plus one. */
  function Averages(c: Config, l: Local): (av: Vec)
    requires c.Valid() && l.Sized(c.n)
    ensures |av| == c.n
  {
    seq(c.n, j requires 0 <= j < c.n => NewAverage(l.received[j], l.best[j], l.numReceived))
  }

  function Multipliers(c: Config, l: Local, av: Vec): (lambda: Vec)
    requires c.Valid() && l.Sized(c.n) && |av| == c.n
    ensures |lambda| == c.n
  {
    seq(c.n, j requires 0 <= j < c.n => NewMultiplier(l.lambda[j], c.rho, l.best[j], av[j]))
  }

  /** The ITERATE state: the solver's vector replaces the last one. */
  function Solved(c: Config, l: Local): (l': Local)
    requires c.Valid() && l.Sized(c.n)
    ensures l'.Sized(c.n)
  {
    SolveSized(c.ProblemAt(l.av, l.lambda));
    l.(phase := Sending, best := Solve(c.ProblemAt(l.av, l.lambda)).best)
  }

  lemma SolveSized(p: Problem)
    requires p.Valid()
    ensures |Solve(p).best| == |p.k|
  {
    SolveIsCheapest(p);
  }

  /** The UPDATE state. */
  function Updated(c: Config, l: Local): (l': Local)
    requires c.Valid() && l.Sized(c.n)
    ensures l'.Sized(c.n)
  {
    var av := Averages(c, l);
    var last := l.numIter + 1 == MAX_ITER;
    Local(if last then Off else Iterate, if last then 0 else l.numIter + 1, 0,
          Const(c.n, 0.0) + l.received[c.n..], l.best, av, Multipliers(c, l, av))
  }

  /** The UPDATE state, entry by entry: the average of what was received and the own vector over the
      number of frames plus one, the multiplier moved by rho times the own distance from it, the
      accumulator cleared, and the node off after its 50th update. */
  lemma UpdatedIs(c: Config, l: Local, j: nat)
    requires c.Valid() && l.Sized(c.n) && j < c.n
    ensures var l' := Updated(c, l);
            && l'.av[j] == (l.received[j] + l.best[j]) / (l.numReceived + 1) as real
            && l'.lambda[j] == l.lambda[j] + c.rho * (l.best[j] - l'.av[j])
            && l'.received[j] == 0.0 && l'.best == l.best && l'.numReceived == 0
            && l'.phase == (if l.numIter == 49 then Off else Iterate)
            && l'.numIter == (if l.numIter == 49 then 0 else l.numIter + 1)
  {
  }

  /** The reference handed to the luminaire when the run ends. */
  function Reference(c: Config, best: Vec): real
    requires |best| == |c.k|
  {
    Dot(best, c.k) + c.residual
  }

  /** What one call of consensus_main does: the new fields, whether `best` was sent, whether the UPDATE
      state ran, and whether the run ended with a new lux reference. */
  datatype Pass = Pass(local: Local, sent: bool, updated: bool, ended: bool)

  /** The chain of states consensus_main runs through in one call. */
  function MainPass(c: Config, l: Local): (p: Pass)
    requires c.Valid() && l.Sized(c.n)
    ensures p.local.Sized(c.n)
  {
    var sent := SentOn(Iterated(c, l));
    var settled := Settled(c, sent);
    Pass(settled, Iterated(c, l).phase == Sending, Updates(c, sent), sent.phase != Off && settled.phase == Off)
  }

  function SentOn(l: Local): Local {
    if l.phase == Sending then l.(phase := Waiting) else l
  }

  /** Up to and including the ITERATE state. */
  function Iterated(c: Config, l: Local): (l': Local)
    requires c.Valid() && l.Sized(c.n)
    ensures l'.Sized(c.n)
  {
    if l.phase == Iterate then Solved(c, l) else l
  }

  /** From the WAITING state on. */
  function Settled(c: Config, l: Local): (l': Local)
    requires c.Valid() && l.Sized(c.n)
    ensures l'.Sized(c.n)
  {
    var waited := if l.phase == Waiting && l.numReceived == Expected(c.n) then l.(phase := Update) else l;
    if waited.phase == Update then Updated(c, waited) else waited
  }

  predicate Updates(c: Config, l: Local)
    requires c.Valid()
  {
    l.phase == Update || (l.phase == Waiting && l.numReceived == Expected(c.n))
  }

  /** The CAN_CONSENSUS branch of `received`. */
  function Receive(c: Config, l: Local, data: Payload): Local
    requires c.Valid() && l.Sized(c.n)
  {
    l.(received := AddFrame(c.n, l.received, data), numReceived := l.numReceived + 1)
  }

  /** The firmware's object. The globals it reads (numTotalNodes, the luminaire's cost, this node's
      residual) are fields; `references` records the calls of setLuxRefAfterConsensus. */
  class Consensus {
    const dutyCycleAv: array<real>
    const lagrangeMultipliers: array<real>
    const ki: array<real>
    const dutyCycleBest: array<real>
    const receivedDutyCycle: array<real>
    var kiNorm: real
    var kinormKiiDiff: real
    var liRef: real
    var rho: real
    var nodeIdx: nat
    var numIter: nat
    var numberOfMsgExpected: nat
    var numberOfMsgReceived: nat
    var consensusState: Phase
    var numTotalNodes: nat
    var cost: real
    var residual: real
    var references: seq<real>

    ghost predicate Shaped()
      reads this
    {
      && dutyCycleAv.Length == lagrangeMultipliers.Length == ki.Length == MAX_NUM_NODES
      && dutyCycleBest.Length == receivedDutyCycle.Length == MAX_NUM_NODES
      && dutyCycleAv != lagrangeMultipliers && dutyCycleAv != ki && dutyCycleAv != dutyCycleBest
      && dutyCycleAv != receivedDutyCycle && lagrangeMultipliers != ki && lagrangeMultipliers != dutyCycleBest
      && lagrangeMultipliers != receivedDutyCycle && ki != dutyCycleBest && ki != receivedDutyCycle
      && dutyCycleBest != receivedDutyCycle
    }

    ghost predicate Valid()
      reads this, ki
    {
      && Shaped()
      && 1 <= numTotalNodes < MAX_NUM_NODES && nodeIdx < numTotalNodes && rho > 0.0
      && kiNorm == Dot(ki[..numTotalNodes], ki[..numTotalNodes])
      && kinormKiiDiff == NormWithout(ki[..numTotalNodes], nodeIdx)
      && numberOfMsgExpected == Expected(numTotalNodes)
    }

    ghost function Conf(): (c: Config)
      requires Valid()
      reads this, ki
      ensures c.Valid()
    {
      Config(numTotalNodes, nodeIdx, rho, cost, ki[..numTotalNodes], liRef, residual)
    }

    ghost function Fields(): (l: Local)
      requires Valid()
      reads this, ki, receivedDutyCycle, dutyCycleBest, dutyCycleAv, lagrangeMultipliers
      ensures l.Sized(numTotalNodes)
    {
      var n := numTotalNodes;
      Local(consensusState, numIter, numberOfMsgReceived, receivedDutyCycle[..],
            dutyCycleBest[..n], dutyCycleAv[..n], lagrangeMultipliers[..n])
    }

    /** The members consensus_iterate reads. */
    function CurrentProblem(): (p: Problem)
      requires Valid()
      reads this, ki, dutyCycleAv, lagrangeMultipliers
      ensures p.Valid() && p == Conf().ProblemAt(dutyCycleAv[..numTotalNodes], lagrangeMultipliers[..numTotalNodes])
    {
      var n := numTotalNodes;
      Problem(nodeIdx, rho, cost, dutyCycleAv[..n], lagrangeMultipliers[..n], ki[..n], liRef, residual)
    }

    /** consensus_iterate. Candidates whose formula divides by zero are passed over; see Solve. */
    method ConsensusIterate()
      requires Valid()
      modifies dutyCycleBest
      ensures dutyCycleBest[..numTotalNodes] == Solved(Conf(), old(Fields())).best
      ensures dutyCycleBest[numTotalNodes..] == old(dutyCycleBest[numTotalNodes..])
    {
      var n := numTotalNodes;
      var p := CurrentProblem();
      for i := 0 to n
        invariant dutyCycleBest[..i] == Const(n, -1.0)[..i] && dutyCycleBest[n..] == old(dutyCycleBest[n..])
      {
        dutyCycleBest[i] := -1.0;
      }
      assert dutyCycleBest[..n] == Const(n, -1.0);
      TryAll(p, dutyCycleBest, kiNorm, kinormKiiDiff);
    }

    /** The UPDATE state. */
    method UpdateState()
      requires Valid() && consensusState == Update
      modifies this`numberOfMsgReceived, this`consensusState, this`numIter, this`references
      modifies dutyCycleAv, lagrangeMultipliers, receivedDutyCycle
      ensures Valid() && Conf() == old(Conf()) && Fields() == Updated(old(Conf()), old(Fields()))
      ensures consensusState == Off <==> old(numIter) + 1 == 50
      ensures references == old(references) +
                (if consensusState == Off then [Dot(dutyCycleBest[..numTotalNodes], ki[..numTotalNodes]) + residual] else [])
    {
      hide Dot, Expected, NormWithout, Averages, Multipliers;
      UpdateVectors();
      var n := numTotalNodes;
      numberOfMsgReceived := 0;
      consensusState := Iterate;
      numIter := numIter + 1;
      ClearReceived();
      if numIter == MAX_ITER {
        consensusState := Off;
        numIter := 0;
        numberOfMsgReceived := 0;
        var newLuxRef := MultiplyTwoArrays(dutyCycleBest[..n], ki[..n]);
        newLuxRef := newLuxRef + residual;
        references := references + [newLuxRef];
      }
    }

    method ClearReceived()
      requires numTotalNodes <= receivedDutyCycle.Length
      modifies receivedDutyCycle
      ensures receivedDutyCycle[..] == Const(numTotalNodes, 0.0) + old(receivedDutyCycle[..])[numTotalNodes..]
    {
      ghost var received := receivedDutyCycle[..];
      for i := 0 to numTotalNodes
        invariant receivedDutyCycle[..] == Const(i, 0.0) + received[i..]
      {
        receivedDutyCycle[i] := 0.0;
      }
    }

    /** The loop of the UPDATE state over averages and multipliers. */
    method UpdateVectors()
      requires Valid()
      modifies dutyCycleAv, lagrangeMultipliers
      ensures dutyCycleAv[..numTotalNodes] == Averages(Conf(), old(Fields()))
      ensures lagrangeMultipliers[..numTotalNodes] == Multipliers(Conf(), old(Fields()), dutyCycleAv[..numTotalNodes])
    {
      var n := numTotalNodes;
      ghost var c, l := Conf(), Fields();
      ghost var av := Averages(c, l);
      ghost var lam := Multipliers(c, l, av);
      for j := 0 to n
        invariant dutyCycleAv[..j] == av[..j]
        invariant lagrangeMultipliers[..j] == lam[..j]
        invariant forall i :: j <= i < n ==> lagrangeMultipliers[i] == l.lambda[i]
      {
        dutyCycleAv[j] := NewAverage(receivedDutyCycle[j], dutyCycleBest[j], numberOfMsgReceived);
        lagrangeMultipliers[j] := NewMultiplier(lagrangeMultipliers[j], rho, dutyCycleBest[j], dutyCycleAv[j]);
      }
    }

    /** consensus_main: at most one vector is sent and at most one reference set per call. */
    method ConsensusMain(comm: Communication, nodeId: bv8)
      requires Valid() && comm.Valid()
      modifies this`numberOfMsgReceived, this`consensusState, this`numIter, this`references
      modifies dutyCycleBest, dutyCycleAv, lagrangeMultipliers, receivedDutyCycle, comm`bus, comm.sendingData
      ensures Valid() && Conf() == old(Conf())
      ensures var p := MainPass(old(Conf()), old(Fields()));
              && Fields() == p.local
              && references == old(references) +
                   (if p.ended then [Dot(dutyCycleBest[..numTotalNodes], ki[..numTotalNodes]) + residual] else [])
              && comm.bus == old(comm.bus) + if p.sent then
                   Frames(nodeId, Burst(numTotalNodes, p.local.best, old(comm.sendingData[..]), NumMessages(numTotalNodes))) else []
    {
      IterateAndSend(comm, nodeId);
      WaitAndUpdate();
    }

    /** The ITERATE and SENDING states. */
    method IterateAndSend(comm: Communication, nodeId: bv8)
      requires Valid() && comm.Valid()
      modifies this`consensusState, dutyCycleBest, comm`bus, comm.sendingData
      ensures Valid() && Conf() == old(Conf()) && Fields() == SentOn(Iterated(old(Conf()), old(Fields())))
      ensures comm.bus == old(comm.bus) + if Iterated(old(Conf()), old(Fields())).phase == Sending then
                Frames(nodeId, Burst(numTotalNodes, Fields().best, old(comm.sendingData[..]), NumMessages(numTotalNodes))) else []
    {
      IterateState();
      if consensusState == Sending {
        comm.SendConsensusDutyCycle(nodeId, numTotalNodes, dutyCycleBest);
        consensusState := Waiting;
      }
    }

    method IterateState()
      requires Valid()
      modifies this`consensusState, dutyCycleBest
      ensures Valid() && Conf() == old(Conf()) && Fields() == Iterated(old(Conf()), old(Fields()))
    {
      if consensusState == Iterate {
        ghost var c, l := Conf(), Fields();
        ConsensusIterate();
        consensusState := Sending;
        assert Conf() == c && Fields() == l.(phase := Sending, best := Solved(c, l).best);
      }
    }

    /** The WAITING and UPDATE states. */
    method WaitAndUpdate()
      requires Valid()
      modifies this`numberOfMsgReceived, this`consensusState, this`numIter, this`references
      modifies dutyCycleAv, lagrangeMultipliers, receivedDutyCycle
      ensures Valid() && Conf() == old(Conf()) && Fields() == Settled(old(Conf()), old(Fields()))
      ensures references == old(references) +
                (if old(consensusState) != Off && consensusState == Off
                 then [Dot(dutyCycleBest[..numTotalNodes], ki[..numTotalNodes]) + residual] else [])
    {
      hide Updated, Dot, Expected;
      if consensusState == Waiting {
        if numberOfMsgReceived == numberOfMsgExpected {
          consensusState := Update;
        }
      }
      if consensusState == Update {
        UpdateState();
      }
    }

    /** The CAN_CONSENSUS branch of `received`. */
    method ReceivedConsensus(data: Payload)
      requires Valid()
      modifies this`numberOfMsgReceived, receivedDutyCycle
      ensures Valid() && Conf() == old(Conf()) && Fields() == Receive(Conf(), old(Fields()), data)
    {
      ghost var acc: Vec := receivedDutyCycle[..];
      var i := 0;
      while i < 3
        invariant 0 <= i <= 3 && numberOfMsgReceived == old(numberOfMsgReceived)
        invariant receivedDutyCycle[..] == AddSlots(numTotalNodes, acc, data, i)
      {
        ReceivedSlot(data, i);
        i := i + 1;
      }
      assert receivedDutyCycle[..] == AddFrame(numTotalNodes, acc, data);
      numberOfMsgReceived := numberOfMsgReceived + 1;
    }

    method ReceivedSlot(data: Payload, i: nat)
      requires numTotalNodes < receivedDutyCycle.Length && i < 3
      modifies receivedDutyCycle
      ensures receivedDutyCycle[..] == AddSlot(numTotalNodes, old(receivedDutyCycle[..]), data, i)
    {
      var posInVector := (data[6] * 3 + i) % 0x100;
      if posInVector <= numTotalNodes {
        var value := Dequantise(Join(data[i * 2], data[i * 2 + 1]));
        receivedDutyCycle[posInVector] := receivedDutyCycle[posInVector] + value;
      }
    }

    /** init(), with the node's index, its row of the gain matrix and its lux reference. Gains turn
        from lux per PWM unit to lux per percent. */
    method Init(gainRow: seq<real>, idx: nat, luxRef: real)
      requires Shaped() && 1 <= numTotalNodes < MAX_NUM_NODES && idx < numTotalNodes <= |gainRow| && rho > 0.0
      modifies this, ki, dutyCycleBest, dutyCycleAv, lagrangeMultipliers, receivedDutyCycle
      ensures Valid() && numTotalNodes == old(numTotalNodes)
      ensures Conf() == Config(numTotalNodes, idx, old(rho), old(cost), Percent(gainRow[..numTotalNodes]), luxRef, old(residual))
      ensures Fields() == Initial(numTotalNodes).(received := Const(numTotalNodes, 0.0) + old(receivedDutyCycle[..])[numTotalNodes..])
      ensures forall i :: 0 <= i < numTotalNodes ==> ki[i] * 100.0 == gainRow[i] * 255.0
      ensures forall d: Vec :: |d| == numTotalNodes ==> Dot(d, ki[..numTotalNodes]) == PwmLight(gainRow, d, numTotalNodes)
    {
      hide Percent, Dot, NormWithout, PwmLight;
      var n := numTotalNodes;
      numberOfMsgExpected := ((n - 1) / 3 + 1) * (n - 1);
      nodeIdx := idx;
      consensusState := Iterate;
      numIter := 0;
      numberOfMsgReceived := 0;
      liRef := luxRef;
      LoadGains(gainRow);
      ClearVectors();
    }

    method LoadGains(gainRow: seq<real>)
      requires Shaped() && nodeIdx < numTotalNodes < MAX_NUM_NODES && numTotalNodes <= |gainRow|
      modifies this`kiNorm, this`kinormKiiDiff, ki
      ensures ki[..numTotalNodes] == Percent(gainRow[..numTotalNodes])
      ensures forall i :: 0 <= i < numTotalNodes ==> ki[i] * 100.0 == gainRow[i] * 255.0
      ensures forall d: Vec :: |d| == numTotalNodes ==> Dot(d, ki[..numTotalNodes]) == PwmLight(gainRow, d, numTotalNodes)
      ensures kiNorm == Dot(ki[..numTotalNodes], ki[..numTotalNodes])
      ensures kinormKiiDiff == NormWithout(ki[..numTotalNodes], nodeIdx)
    {
      hide Percent, Dot, PwmLight;
      kiNorm := ScaleGains(gainRow);
      kinormKiiDiff := kiNorm - ki[nodeIdx] * ki[nodeIdx];
      forall d: Vec | |d| == numTotalNodes ensures Dot(d, ki[..numTotalNodes]) == PwmLight(gainRow, d, numTotalNodes) {
        LightIsPwmLight(gainRow, ki[..numTotalNodes], d);
      }
    }

    /** init's loop, the vectors' part. */
    method ClearVectors()
      requires Shaped() && numTotalNodes < MAX_NUM_NODES
      modifies dutyCycleBest, dutyCycleAv, lagrangeMultipliers, receivedDutyCycle
      ensures dutyCycleBest[..numTotalNodes] == dutyCycleAv[..numTotalNodes] == Const(numTotalNodes, 0.0)
      ensures lagrangeMultipliers[..numTotalNodes] == Const(numTotalNodes, 0.0)
      ensures receivedDutyCycle[..] == Const(numTotalNodes, 0.0) + old(receivedDutyCycle[..])[numTotalNodes..]
    {
      ClearVector(dutyCycleBest);
      ClearVector(dutyCycleAv);
      ClearVector(lagrangeMultipliers);
      ClearReceived();
    }

    /** init's loop, the gains' part. */
    method ScaleGains(gainRow: seq<real>) returns (norm: real)
      requires numTotalNodes <= ki.Length && numTotalNodes <= |gainRow|
      modifies ki
      ensures ki[..numTotalNodes] == Percent(gainRow[..numTotalNodes])
      ensures forall i :: 0 <= i < numTotalNodes ==> ki[i] * 100.0 == gainRow[i] * 255.0
      ensures norm == Dot(ki[..numTotalNodes], ki[..numTotalNodes])
    {
      norm := 0.0;
      ghost var k := Percent(gainRow[..numTotalNodes]);
      for i := 0 to numTotalNodes
        invariant ki[..i] == k[..i]
        invariant forall j :: 0 <= j < i ==> ki[j] * 100.0 == gainRow[j] * 255.0
        invariant norm == Sum(Times(k, k), i)
      {
        ki[i] := gainRow[i] * 255.0 / 100.0;
        norm := norm + ki[i] * ki[i];
      }
      assert ki[..numTotalNodes] == k;
    }

    /** init's loop, for one of the vectors it zeroes. */
    method ClearVector(v: array<real>)
      requires numTotalNodes <= v.Length
      modifies v
      ensures v[..numTotalNodes] == Const(numTotalNodes, 0.0)
    {
      for i := 0 to numTotalNodes
        invariant v[..i] == Const(i, 0.0)
      {
        v[i] := 0.0;
      }
    }
  }

  function Percent(gains: Vec): (k: Vec)
    ensures |k| == |gains|
  {
    seq(|gains|, i requires 0 <= i < |gains| => gains[i] * 255.0 / 100.0)
  }

  /** The light of the first `m` luminaires: every gain, in lux per PWM unit, times the duty cycle,
      given in per cent, as a PWM level. */
  ghost function PwmLight(gains: seq<real>, d: Vec, m: nat): real
    requires m <= |gains| && m <= |d|
  {
    if m == 0 then 0.0 else PwmLight(gains, d, m - 1) + gains[m - 1] * (d[m - 1] * 255.0 / 100.0)
  }

  /** Scaling the gains to lux per per cent is scaling the duty cycles to PWM levels. */
  lemma LightIsPwmLight(gains: seq<real>, k: Vec, d: Vec)
    requires |d| == |k| <= |gains|
    requires forall i :: 0 <= i < |k| ==> k[i] * 100.0 == gains[i] * 255.0
    ensures Dot(d, k) == PwmLight(gains, d, |k|)
  {
    LightSoFar(gains, k, d, |k|);
  }

  lemma {:induction false} LightSoFar(gains: seq<real>, k: Vec, d: Vec, m: nat)
    requires m <= |d| == |k| <= |gains|
    requires forall i :: 0 <= i < |k| ==> k[i] * 100.0 == gains[i] * 255.0
    ensures Sum(Times(d, k), m) == PwmLight(gains, d, m)
  {
    if m > 0 {
      LightSoFar(gains, k, d, m - 1);
      ScaleOver(d[m - 1], k[m - 1], gains[m - 1]);
    }
  }

  lemma ScaleOver(d: real, k: real, gain: real)
    requires k * 100.0 == gain * 255.0
    ensures d * k == gain * (d * 255.0 / 100.0)
  {
    assert k == gain * 255.0 / 100.0;
  }
}
