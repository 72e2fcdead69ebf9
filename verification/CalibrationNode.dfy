/** One node's calibration state machine: what one pass of the loop and one received frame do to its
    fields, and the firmware's class that updates them in place. */
module CalibrationNode {
  import opened Globals
  import Registry

  const PWM_LOW: real := 20.0
  const PWM_HIGH: real := 240.0

  datatype State = CalibInit | WaitReady | WaitLedOn | WaitTransient

  /** What a pass may broadcast: ready, with the value the frame carries, or LED on. */
  datatype Message = Ready(value: real) | LedOn

  /** The number of nodes and the index of this one. */
  datatype Place = Place(n: nat, idx: nat) {
    ghost predicate Valid() { 1 <= n <= MAX_NUM_NODES && idx < n }
  }

  type Matrix = seq<seq<real>>

  ghost predicate IsSquare(m: Matrix) {
    |m| == MAX_NUM_NODES && forall i :: 0 <= i < MAX_NUM_NODES ==> |m[i]| == MAX_NUM_NODES
  }

  /** The fields of the object. */
  datatype Calib = Calib(state: State, nodeLedOn: int, luxReadNum: nat, luxReads: seq<real>, numReady: nat,
                         otherLedOn: bool, gains: Matrix, residuals: seq<real>, done: bool)
  {
    ghost predicate Sized() {
      IsSquare(gains) && |residuals| == MAX_NUM_NODES && |luxReads| == 2
    }

    /** The row, column or reading about to be written exists. */
    ghost predicate InBounds() {
      && -1 <= nodeLedOn < MAX_NUM_NODES
      && (state == WaitTransient ==> 0 <= nodeLedOn && luxReadNum < 2)
    }
  }

  /** Static storage before anything runs: everything is zero, nodeLedOn included. */
  function Booted(): (v: Calib)
    ensures v.Sized() && v.InBounds()
  {
    Calib(CalibInit, 0, 0, [0.0, 0.0], 0, false, ZeroMatrix(), seq(MAX_NUM_NODES, _ => 0.0), false)
  }

  function ZeroMatrix(): (m: Matrix)
    ensures IsSquare(m) && forall i, j :: 0 <= i < MAX_NUM_NODES && 0 <= j < MAX_NUM_NODES ==> m[i][j] == 0.0
  {
    seq(MAX_NUM_NODES, _ => seq(MAX_NUM_NODES, _ => 0.0))
  }

  // One pass.

  /** runStateInit. */
  function Initialised(p: Place, v: Calib, reading: real): Calib
    requires p.Valid() && v.Sized()
  {
    v.(residuals := v.residuals[p.idx := reading], numReady := v.numReady + 1, nodeLedOn := -1, state := WaitReady)
  }

  predicate AllReady(p: Place, v: Calib) { v.numReady == p.n }

  /** nodeLedOn and luxReadNum after runStateWaitReady has found everybody ready. */
  function NextLed(v: Calib): int { if v.nodeLedOn == -1 || v.luxReadNum == 2 then v.nodeLedOn + 1 else v.nodeLedOn }
  function NextRead(v: Calib): nat { if v.nodeLedOn == -1 || v.luxReadNum == 2 then 0 else v.luxReadNum }

  /** runStateWaitReady. */
  function Advanced(p: Place, v: Calib): Calib {
    if !AllReady(p, v) then v
    else
      var led := NextLed(v);
      v.(numReady := 0, nodeLedOn := led, luxReadNum := NextRead(v), done := v.done || led >= p.n,
         state := if led >= p.n then WaitReady else if led == p.idx then WaitTransient else WaitLedOn)
  }

  /** runStateWaitLedOn. */
  function LitUp(v: Calib): Calib {
    if v.otherLedOn then v.(otherLedOn := false, state := WaitTransient) else v
  }

  /** The gain between two readings. */
  function Gain(low: real, high: real): real { (high - low) / (PWM_HIGH - PWM_LOW) }

  /** The gain is what 220 PWM units more of light add, per unit. */
  lemma GainIs(low: real, high: real)
    ensures Gain(low, high) * 220.0 == high - low
  {
  }

  /** The value sent after a measurement: the gain after the second reading, else -1. */
  function Outcome(v: Calib, lux: real): real
    requires |v.luxReads| == 2
  {
    if v.luxReadNum == 1 then Gain(v.luxReads[0], lux) else -1.0
  }

  /** runStateWaitTransient, once the transient is over; `lux` is the reading less its offset. */
  function Measured(p: Place, v: Calib, lux: real): Calib
    requires p.Valid() && v.Sized() && v.InBounds() && v.state == WaitTransient
  {
    v.(luxReads := v.luxReads[v.luxReadNum := lux], luxReadNum := v.luxReadNum + 1, numReady := v.numReady + 1,
       gains := if v.luxReadNum == 1 then WithGain(v.gains, p.idx, v.nodeLedOn, Outcome(v, lux)) else v.gains,
       state := WaitReady)
  }

  /** If the light grows linearly with the LED's level, offset `o` and slope `g`, and the two readings are
      those at the levels 20 and 240, the second pass sends and stores exactly the slope. */
  lemma SlopeIsMeasured(p: Place, v: Calib, o: real, g: real)
    requires p.Valid() && v.Sized() && v.InBounds() && v.state == WaitTransient && v.luxReadNum == 1
    requires v.luxReads[0] == o + 20.0 * g
    ensures Broadcast(p, v, true, o + 240.0 * g) == Some(Ready(g))
    ensures Passed(p, v, true, o + 240.0 * g).gains[p.idx][v.nodeLedOn] == g
  {
    GainIs(v.luxReads[0], o + 240.0 * g);
  }

  /** setGain. */
  function WithGain(gains: Matrix, i: nat, j: nat, gain: real): (m: Matrix)
    requires IsSquare(gains) && i < MAX_NUM_NODES && j < MAX_NUM_NODES
    ensures IsSquare(m)
    ensures forall a, b :: 0 <= a < MAX_NUM_NODES && 0 <= b < MAX_NUM_NODES ==>
              m[a][b] == if a == i && b == j then gain else gains[a][b]
  {
    gains[i := gains[i][j := gain]]
  }

  /** loop: one pass. `timeUp` says whether the transient is over, `lux` is the sensor's reading. */
  function Passed(p: Place, v: Calib, timeUp: bool, lux: real): (v': Calib)
    requires p.Valid() && v.Sized() && v.InBounds()
    ensures v'.Sized()
  {
    match v.state
    case CalibInit => Initialised(p, v, lux)
    case WaitReady => Advanced(p, v)
    case WaitLedOn => LitUp(v)
    case WaitTransient => if timeUp then Measured(p, v, lux) else v
  }

  /** What the pass broadcasts. */
  function Broadcast(p: Place, v: Calib, timeUp: bool, lux: real): Option<Message>
    requires p.Valid() && v.Sized() && v.InBounds()
  {
    match v.state
    case CalibInit => Some(Ready(lux))
    case WaitReady => if AllReady(p, v) && NextLed(v) == p.idx then Some(LedOn) else None
    case WaitLedOn => None
    case WaitTransient => if timeUp then Some(Ready(Outcome(v, lux))) else None
  }

  // One received frame.

  /** receivedGainOrResidual: the value is filed under the receiver's own nodeLedOn. */
  function Filed(v: Calib, sender: nat, value: real): (v': Calib)
    requires v.Sized() && -1 <= v.nodeLedOn < MAX_NUM_NODES && sender < MAX_NUM_NODES
    ensures v'.Sized()
  {
    if v.nodeLedOn == -1 then v.(residuals := v.residuals[sender := value])
    else v.(gains := WithGain(v.gains, sender, v.nodeLedOn, value))
  }

  /** The CAN_CALIB_READY branch of `received`: negative values are not filed. */
  function ReceivedReady(v: Calib, sender: nat, value: real): (v': Calib)
    requires v.Sized() && -1 <= v.nodeLedOn < MAX_NUM_NODES && sender < MAX_NUM_NODES
    ensures v'.Sized()
  {
    var v1 := if value >= 0.0 then Filed(v, sender, value) else v;
    v1.(numReady := v1.numReady + 1)
  }

  /** The firmware's object; `registry` holds the globals nodesList, nodeId and the index table. */
  class CalibrationFSM {
    var state: State
    var nodeLedOn: int
    var luxReadNum: nat
    var numNodesReady: nat
    var otherNodeLedOn: bool
    var done: bool
    const pwm: array<real>
    const luxReads: array<real>
    const gainMatrix: array2<real>
    const residualArray: array<real>
    const registry: Registry.Registry

    /** The registry knows distinct ids, this node's among them. */
    ghost predicate Valid()
      reads this, pwm, registry, registry.nodesList, registry.nodeIndexOnGainMatrix
    {
      && pwm.Length == luxReads.Length == 2 && pwm[0] == PWM_LOW && pwm[1] == PWM_HIGH
      && gainMatrix.Length0 == gainMatrix.Length1 == residualArray.Length == MAX_NUM_NODES
      && pwm != luxReads && pwm != residualArray && luxReads != residualArray
      && registry.Valid() && Registry.StrictlyAscending(registry.Known()) && registry.nodeId in registry.Known()
    }

    ghost function Here(): (p: Place)
      requires Valid()
      reads this, pwm, registry, registry.nodesList, registry.nodeIndexOnGainMatrix
      ensures p.Valid()
    {
      Place(registry.numTotalNodes, Index(registry.nodeId))
    }

    /** The table's entry for an id: its place in the list, or zero if it is not listed. */
    function Index(id: nat): (i: nat)
      requires Valid() && id <= Registry.MAX_NODE_ID
      reads this, pwm, registry, registry.nodesList, registry.nodeIndexOnGainMatrix
      ensures i < MAX_NUM_NODES
      ensures id in registry.Known() ==> i < registry.numTotalNodes && registry.Known()[i] == id
      ensures id !in registry.Known() ==> i == 0
    {
      registry.nodeIndexOnGainMatrix[id]
    }

    /** Only the own place in the list holds the own id. */
    lemma OwnPlace(led: nat)
      requires Valid() && led < registry.numTotalNodes
      ensures registry.nodesList[led] == registry.nodeId <==> led == Here().idx
    {
      assert registry.Known()[led] == registry.nodesList[led];
    }

    ghost function Gains(): (m: Matrix)
      requires gainMatrix.Length0 == gainMatrix.Length1 == MAX_NUM_NODES
      reads gainMatrix
      ensures IsSquare(m)
      ensures forall i, j :: 0 <= i < MAX_NUM_NODES && 0 <= j < MAX_NUM_NODES ==> m[i][j] == gainMatrix[i, j]
    {
      seq(MAX_NUM_NODES, i requires 0 <= i < MAX_NUM_NODES reads gainMatrix =>
        seq(MAX_NUM_NODES, j requires 0 <= j < MAX_NUM_NODES reads gainMatrix => gainMatrix[i, j]))
    }

    ghost function Fields(): (v: Calib)
      requires Valid()
      reads this, pwm, luxReads, gainMatrix, residualArray, registry, registry.nodesList, registry.nodeIndexOnGainMatrix
      ensures v.Sized()
    {
      Calib(state, nodeLedOn, luxReadNum, luxReads[..], numNodesReady, otherNodeLedOn, Gains(), residualArray[..], done)
    }

    /** Construction, over static storage that starts as zeros. */
    constructor (registry: Registry.Registry)
      requires registry.Valid() && Registry.StrictlyAscending(registry.Known()) && registry.nodeId in registry.Known()
      ensures Valid() && this.registry == registry && Fields() == Booted()
      ensures fresh(pwm) && fresh(luxReads) && fresh(gainMatrix) && fresh(residualArray)
    {
      this.registry := registry;
      state, nodeLedOn, luxReadNum, numNodesReady, otherNodeLedOn, done := CalibInit, 0, 0, 0, false, false;
      pwm := new real[2](i => if i == 0 then PWM_LOW else PWM_HIGH);
      luxReads := new real[2](_ => 0.0);
      gainMatrix := new real[MAX_NUM_NODES, MAX_NUM_NODES]((_, _) => 0.0);
      residualArray := new real[MAX_NUM_NODES](_ => 0.0);
      new;
      forall i | 0 <= i < MAX_NUM_NODES ensures Gains()[i] == ZeroMatrix()[i] {
        assert |Gains()[i]| == |ZeroMatrix()[i]|;
        assert forall j :: 0 <= j < MAX_NUM_NODES ==> Gains()[i][j] == ZeroMatrix()[i][j];
      }
    }

    method SetGain(i: nat, j: nat, gain: real)
      requires gainMatrix.Length0 == gainMatrix.Length1 == MAX_NUM_NODES && i < MAX_NUM_NODES && j < MAX_NUM_NODES
      modifies gainMatrix
      ensures Gains() == WithGain(old(Gains()), i, j, gain) && gainMatrix[i, j] == gain
    {
      ghost var before := WithGain(Gains(), i, j, gain);
      gainMatrix[i, j] := gain;
      forall a | 0 <= a < MAX_NUM_NODES ensures Gains()[a] == before[a] {
        assert |Gains()[a]| == |before[a]|;
        assert forall b :: 0 <= b < MAX_NUM_NODES ==> Gains()[a][b] == before[a][b];
      }
    }

    method IncrementNodesReady()
      requires Valid()
      modifies this`numNodesReady
      ensures Valid() && Fields() == old(Fields()).(numReady := old(Fields()).numReady + 1)
    {
      numNodesReady := numNodesReady + 1;
    }

    method RunStateInit(residualReading: real) returns (sent: Option<Message>)
      requires Valid() && state == CalibInit
      modifies this`numNodesReady, this`nodeLedOn, this`state, residualArray
      ensures Valid() && Here() == old(Here()) && Fields() == Initialised(Here(), old(Fields()), residualReading)
      ensures sent == Some(Ready(residualReading))
    {
      residualArray[Index(registry.nodeId)] := residualReading;
      sent := Some(Ready(residualReading));
      IncrementNodesReady();
      nodeLedOn := -1;
      state := WaitReady;
    }

    method RunStateWaitReady() returns (sent: Option<Message>)
      requires Valid() && state == WaitReady && -1 <= nodeLedOn
      modifies this`numNodesReady, this`nodeLedOn, this`luxReadNum, this`done, this`state
      ensures Valid() && Here() == old(Here()) && Fields() == Advanced(Here(), old(Fields()))
      ensures sent == if AllReady(Here(), old(Fields())) && NextLed(old(Fields())) == Here().idx then Some(LedOn) else None
    {
      hide Registry.IndexOf, Registry.StrictlyAscending, Registry.Ascending;
      sent := None;
      if numNodesReady == registry.numTotalNodes {
        numNodesReady := 0;
        StepCounters();
        if nodeLedOn >= registry.numTotalNodes {
          done := true;
        } else if OwnsLed() {
          sent := Some(LedOn);
          state := WaitTransient;
        } else {
          state := WaitLedOn;
        }
      }
    }

    method RunStateWaitLedOn()
      requires Valid() && state == WaitLedOn
      modifies this`otherNodeLedOn, this`state
      ensures Valid() && Here() == old(Here()) && Fields() == LitUp(old(Fields()))
    {
      if otherNodeLedOn {
        otherNodeLedOn := false;
        state := WaitTransient;
      }
    }

    method RunStateWaitTransient(timeSinceLastTransition: nat, lux: real) returns (sent: Option<Message>)
      requires Valid() && state == WaitTransient && Fields().InBounds()
      modifies this`luxReadNum, this`numNodesReady, this`state, luxReads, gainMatrix
      ensures Valid() && Here() == old(Here())
      ensures Fields() == if timeSinceLastTransition > 1000000 then Measured(Here(), old(Fields()), lux) else old(Fields())
      ensures sent == if timeSinceLastTransition > 1000000 then Some(Ready(Outcome(old(Fields()), lux))) else None
      ensures timeSinceLastTransition > 1000000 && old(luxReadNum) == 0 ==> sent == Some(Ready(-1.0)) && luxReads[0] == lux
      ensures timeSinceLastTransition > 1000000 && old(luxReadNum) == 1 ==>
                && gainMatrix[Here().idx, nodeLedOn] * 220.0 == lux - old(luxReads[0])
                && sent == Some(Ready(gainMatrix[Here().idx, nodeLedOn]))
    {
      sent := None;
      if timeSinceLastTransition > 1000000 {
        var gain := StoreReading(lux);
        GainIs(old(luxReads[0]), lux);
        sent := Some(Ready(gain));
        IncrementNodesReady();
        state := WaitReady;
      }
    }

    /** The reading, and after the second one the gain, are stored. */
    method StoreReading(lux: real) returns (gain: real)
      requires Valid() && state == WaitTransient && Fields().InBounds()
      modifies this`luxReadNum, luxReads, gainMatrix
      ensures Valid() && Here() == old(Here()) && gain == Outcome(old(Fields()), lux)
      ensures Fields() == Measured(Here(), old(Fields()), lux).(numReady := numNodesReady, state := WaitTransient)
      ensures luxReads[old(luxReadNum)] == lux
      ensures old(luxReadNum) == 1 ==> gainMatrix[Here().idx, nodeLedOn] == gain == Gain(old(luxReads[0]), lux)
    {
      hide WithGain;
      luxReads[luxReadNum] := lux;
      luxReadNum := luxReadNum + 1;
      gain := -1.0;
      if luxReadNum == 2 {
        gain := (luxReads[1] - luxReads[0]) / (pwm[1] - pwm[0]);
        SetGain(Index(registry.nodeId), nodeLedOn, gain);
      }
    }

    /** The next LED after the second reading, the second reading after the first. */
    method StepCounters()
      requires Valid()
      modifies this`nodeLedOn, this`luxReadNum
      ensures Valid() && Here() == old(Here())
      ensures Fields() == old(Fields()).(nodeLedOn := NextLed(old(Fields())), luxReadNum := NextRead(old(Fields())))
    {
      if nodeLedOn == -1 || luxReadNum == 2 {
        nodeLedOn := nodeLedOn + 1;
        luxReadNum := 0;
      }
    }

    /** nodesList[nodeLedOn] == nodeId. */
    predicate OwnsLed()
      requires Valid() && 0 <= nodeLedOn < registry.numTotalNodes
      reads this, pwm, registry, registry.nodesList, registry.nodeIndexOnGainMatrix
      ensures OwnsLed() <==> nodeLedOn == Here().idx
    {
      OwnPlace(nodeLedOn);
      registry.nodesList[nodeLedOn] == registry.nodeId
    }

    /** loop(). */
    method Loop(timeSinceLastTransition: nat, lux: real) returns (sent: Option<Message>)
      requires Valid() && Fields().InBounds()
      modifies this`state, this`nodeLedOn, this`luxReadNum, this`numNodesReady, this`otherNodeLedOn, this`done
      modifies luxReads, gainMatrix, residualArray
      ensures Valid() && Here() == old(Here())
      ensures Fields() == Passed(Here(), old(Fields()), timeSinceLastTransition > 1000000, lux)
      ensures sent == Broadcast(Here(), old(Fields()), timeSinceLastTransition > 1000000, lux)
    {
      match state
      case CalibInit =>
        sent := RunStateInit(lux);
      case WaitReady =>
        sent := RunStateWaitReady();
      case WaitLedOn =>
        sent := None;
        RunStateWaitLedOn();
      case WaitTransient =>
        sent := RunStateWaitTransient(timeSinceLastTransition, lux);
    }

    method ReceivedGainOrResidual(sender: nat, value: real)
      requires Valid() && sender <= Registry.MAX_NODE_ID && -1 <= nodeLedOn < MAX_NUM_NODES
      modifies gainMatrix, residualArray
      ensures Valid() && Fields() == Filed(old(Fields()), Index(sender), value)
    {
      if nodeLedOn == -1 {
        residualArray[Index(sender)] := value;
      } else {
        SetGain(Index(sender), nodeLedOn, value);
      }
    }

    /** The CAN_CALIB_READY branch of `received`. */
    method OnReady(sender: nat, gainValue: real)
      requires Valid() && sender <= Registry.MAX_NODE_ID && -1 <= nodeLedOn < MAX_NUM_NODES
      modifies this`numNodesReady, gainMatrix, residualArray
      ensures Valid() && Fields() == ReceivedReady(old(Fields()), Index(sender), gainValue)
    {
      hide Registry.IndexOf, Registry.StrictlyAscending, Registry.Ascending;
      if gainValue >= 0.0 {
        ReceivedGainOrResidual(sender, gainValue);
      }
      IncrementNodesReady();
    }

    /** The CAN_CALIB_LED_ON branch of `received`. */
    method OnLedOn()
      requires Valid()
      modifies this`otherNodeLedOn
      ensures Valid() && Fields() == old(Fields()).(otherLedOn := true)
    {
      otherNodeLedOn := true;
    }
  }
}
