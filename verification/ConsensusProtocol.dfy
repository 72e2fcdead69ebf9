/** `n` nodes running the consensus rounds over one totally ordered broadcast bus. Every node runs the
    code of ConsensusNode; the barrier component and the histories are ghost knowledge about the run. */
module ConsensusProtocol {
  import opened Globals
  import opened Vectors
  import opened Solver
  import opened FixedPoint
  import opened Framing
  import opened ConsensusNode
  import Barrier

  /** A node: its consensus object, the payloads of its latest burst, and what it did so far: the
      vectors it sent, those vectors as received, its averages and multipliers after each update
      (`lams` starts with the initial zeros), and the lux references it set. */
  datatype Node = Node(local: Local, burst: seq<Payload>, sent: seq<Vec>, rx: seq<Vec>,
                       avs: seq<Vec>, lams: seq<Vec>, references: seq<real>)

  /** `data[p]` is the payload of the frame at bus position `p`. */
  datatype Sys = Sys(bar: Barrier.State, data: seq<Payload>, nodes: seq<Node>)

  /** All nodes agree on their number and on rho, and node `j` has index `j`. */
  ghost predicate ValidConfigs(cfg: seq<Config>) {
    && 1 <= |cfg| < MAX_NUM_NODES
    && forall j :: 0 <= j < |cfg| ==> cfg[j].Valid() && cfg[j].n == |cfg| && cfg[j].idx == j && cfg[j].rho == cfg[0].rho
  }

  /** All nodes have called init() and nothing has been sent. */
  function Start(n: nat): Sys {
    Sys(Barrier.Start(n), [], seq(n, _ => Node(Initial(n), [], [], [], [], [Const(n, 0.0)], [])))
  }

  /** One move: a waiting frame wins the bus; a node consumes the next frame on the bus; a node makes a
      main-loop pass, with `stale` whatever its frame buffer held before. */
  datatype Step = Transmit(j: nat, c: nat) | Deliver(j: nat) | Main(j: nat, stale: Payload)

  ghost predicate Sized(cfg: seq<Config>, s: Sys) {
    && ValidConfigs(cfg)
    && |s.nodes| == |s.bar.members| == |cfg|
    && |s.data| == |s.bar.log|
    && forall j :: 0 <= j < |cfg| ==> s.nodes[j].local.Sized(|cfg|)
  }

  /** The next frame for `j` is one of its own: the controller does not receive those. */
  predicate OwnFrame(bar: Barrier.State, j: nat)
    requires j < |bar.members| && bar.members[j].cursor < |bar.log|
  {
    match bar.log[bar.members[j].cursor] case Burst(t) => t.sender == j case Other => false
  }

  /** The moves possible in `s`. Two assumptions are made explicit here: a node queues a vector only when
      its previous frames have left, and no frame is lost. Passes that change nothing are left out. */
  ghost predicate Possible(cfg: seq<Config>, s: Sys, step: Step)
    requires Sized(cfg, s)
  {
    match step
    case Transmit(j, c) =>
      j < |cfg| && c in s.bar.members[j].outbox && c < |s.nodes[j].burst| && s.bar.members[j].Latest() > 0
    case Deliver(j) => j < |cfg| && s.bar.members[j].cursor < |s.bar.log|
    case Main(j, stale) =>
      && j < |cfg|
      && match s.nodes[j].local.phase
         case Off => false
         case Iterate => s.bar.members[j].outbox == {}
         case Sending => s.bar.members[j].outbox == {}
         case Waiting => s.nodes[j].local.numReceived == Expected(|cfg|)
         case Update => true
  }

  /** The move consumes another node's frame although the count is complete and waits for the next pass. */
  ghost predicate Overruns(cfg: seq<Config>, s: Sys, step: Step)
    requires Sized(cfg, s) && Possible(cfg, s, step)
  {
    && step.Deliver? && !OwnFrame(s.bar, step.j)
    && s.nodes[step.j].local.phase == Waiting && s.nodes[step.j].local.numReceived == Expected(|cfg|)
  }

  /** The moves of a run that keeps the scheduling rule: no node overruns. */
  ghost predicate Enabled(cfg: seq<Config>, s: Sys, step: Step)
    requires Sized(cfg, s)
  {
    Possible(cfg, s, step) && !Overruns(cfg, s, step)
  }

  lemma EnabledPossible(cfg: seq<Config>, s: Sys, step: Step)
    requires Sized(cfg, s) && Enabled(cfg, s, step)
    ensures Possible(cfg, s, step)
  {
  }

  ghost function Next(cfg: seq<Config>, s: Sys, step: Step): (s': Sys)
    requires Sized(cfg, s) && Possible(cfg, s, step)
  {
    match step
    case Transmit(j, c) => s.(bar := Barrier.Transmit(s.bar, j, c), data := s.data + [s.nodes[j].burst[c]])
    case Deliver(j) => AfterDeliver(cfg, s, j)
    case Main(j, stale) => AfterMain(cfg, s, j, stale)
  }

  ghost function AfterDeliver(cfg: seq<Config>, s: Sys, j: nat): Sys
    requires Sized(cfg, s) && j < |cfg| && s.bar.members[j].cursor < |s.bar.log|
  {
    var nd := s.nodes[j];
    var local := if OwnFrame(s.bar, j) then nd.local else Receive(cfg[j], nd.local, s.data[s.bar.members[j].cursor]);
    s.(bar := Barrier.Deliver(s.bar, j), nodes := s.nodes[j := nd.(local := local)])
  }

  ghost function AfterMain(cfg: seq<Config>, s: Sys, j: nat, stale: Payload): Sys
    requires Sized(cfg, s) && j < |cfg|
  {
    var p := MainPass(cfg[j], s.nodes[j].local);
    var queued := if p.sent then Barrier.Queue(s.bar, NumMessages(|cfg|), j) else s.bar;
    var passed := if p.updated then Barrier.Pass(queued, j) else queued;
    s.(bar := passed, nodes := s.nodes[j := AfterPass(cfg[j], s.nodes[j], p, stale)])
  }

  /** The node's own part of a main-loop pass. */
  ghost function AfterPass(c: Config, nd: Node, p: Pass, stale: Payload): Node
    requires c.Valid() && p.local.Sized(c.n)
  {
    var best := p.local.best;
    Node(p.local,
         if p.sent then Burst(c.n, best, stale, NumMessages(c.n)) else nd.burst,
         if p.sent then nd.sent + [best] else nd.sent,
         if p.sent then nd.rx + [AsReceived(best)] else nd.rx,
         if p.updated then nd.avs + [p.local.av] else nd.avs,
         if p.updated then nd.lams + [p.local.lambda] else nd.lams,
         if p.ended then nd.references + [Reference(c, best)] else nd.references)
  }

  lemma NextSized(cfg: seq<Config>, s: Sys, step: Step)
    requires Sized(cfg, s) && Possible(cfg, s, step)
    ensures Sized(cfg, Next(cfg, s, step))
  {
    hide MainPass;
  }

  // The invariant.

  ghost function Rxs(s: Sys): (rxs: seq<seq<Vec>>)
    ensures |rxs| == |s.nodes| && forall i :: 0 <= i < |rxs| ==> rxs[i] == s.nodes[i].rx
  {
    seq(|s.nodes|, i requires 0 <= i < |s.nodes| => s.nodes[i].rx)
  }

  /** Entry `slot` of the round-`q` vector of sender `i`, if there is one. */
  ghost function Entry(rxs: seq<seq<Vec>>, i: nat, q: nat, slot: nat): real {
    if i < |rxs| && q < |rxs[i]| && slot < |rxs[i][q]| then rxs[i][q][slot] else 0.0
  }

  /** The sum of entry `slot` over the frames of round `q` in `got`, by sender. */
  ghost function Heard(rxs: seq<seq<Vec>>, got: set<Barrier.Tag>, q: nat, slot: nat, m: nat): real {
    if m == 0 then 0.0
    else Heard(rxs, got, q, slot, m - 1) + if Barrier.Tag(m - 1, q, slot / 3) in got then Entry(rxs, m - 1, q, slot) else 0.0
  }

  /** The sum of entry `slot` over the round-`q` vectors of everybody but `j`. */
  ghost function Others(rxs: seq<seq<Vec>>, j: nat, q: nat, slot: nat, m: nat): real {
    if m == 0 then 0.0
    else Others(rxs, j, q, slot, m - 1) + if m - 1 != j then Entry(rxs, m - 1, q, slot) else 0.0
  }

  /** The averages with which the vector of round `q` was computed. */
  ghost function AvAt(n: nat, nd: Node, q: nat): Vec
    requires q <= |nd.avs|
  {
    if q == 0 then Const(n, 0.0) else nd.avs[q - 1]
  }

  /** What concerns a node alone: its fields agree with the ghost round and with its history, and every
      vector it sent is the solver's answer to the averages and multipliers it then held. */
  ghost predicate NodeInv(c: Config, m: Barrier.Member, nd: Node)
    requires c.Valid()
  {
    var l := nd.local;
    && l.Sized(c.n)
    && m.round <= MAX_ITER && (m.round == MAX_ITER ==> !m.queued)
    && l.phase == (if m.queued then Waiting else if m.round == MAX_ITER then Off else Iterate)
    && l.numIter == (if m.round == MAX_ITER then 0 else m.round)
    && l.numReceived == |m.got|
    && |nd.sent| == |nd.rx| == m.Latest()
    && |nd.avs| == m.round && |nd.lams| == m.round + 1
    && nd.lams[0] == Const(c.n, 0.0)
    && l.av == AvAt(c.n, nd, m.round) && l.lambda == nd.lams[m.round]
    && (m.Latest() > 0 ==> l.best == nd.sent[m.Latest() - 1])
    && nd.references == (if m.round == MAX_ITER then [Reference(c, l.best)] else [])
    && VectorsSized(c.n, nd)
    && (forall q :: 0 <= q < |nd.sent| ==> nd.rx[q] == AsReceived(nd.sent[q]))
    && (forall q :: 0 <= q < |nd.sent| ==> Answered(c, nd, q))
    && (m.outbox != {} && m.Latest() > 0 ==> BurstOf(c.n, nd.burst, nd.rx[m.Latest() - 1]))
  }

  ghost predicate VectorsSized(n: nat, nd: Node) {
    && (forall q :: 0 <= q < |nd.sent| ==> |nd.sent[q]| == n)
    && (forall q :: 0 <= q < |nd.rx| ==> |nd.rx[q]| == n)
    && (forall q :: 0 <= q < |nd.avs| ==> |nd.avs[q]| == n)
    && (forall q :: 0 <= q < |nd.lams| ==> |nd.lams[q]| == n)
  }

  ghost predicate Answered(c: Config, nd: Node, q: nat)
    requires c.Valid() && q < |nd.sent|
  {
    && q <= |nd.avs| && q < |nd.lams| && |AvAt(c.n, nd, q)| == |nd.lams[q]| == c.n
    && nd.sent[q] == Solve(c.ProblemAt(AvAt(c.n, nd, q), nd.lams[q])).best
  }

  ghost predicate BurstOf(n: nat, burst: seq<Payload>, rx: Vec)
    requires n >= 1
  {
    && |rx| == n && |burst| == NumMessages(n)
    && forall c :: 0 <= c < |burst| ==> Carries(n, burst[c], c, rx)
  }

  /** What a node has received: the accumulator holds exactly the frames of the round consumed so far,
      and every past update used exactly the round's vectors of all others, once each. */
  ghost predicate FlowInv(rxs: seq<seq<Vec>>, c: Config, m: Barrier.Member, nd: Node)
    requires c.Valid() && nd.local.Sized(c.n)
  {
    && Known(rxs, c.idx, m)
    && (forall slot :: 0 <= slot < c.n ==> nd.local.received[slot] == Heard(rxs, m.got, m.round, slot, c.n))
    && (forall q :: 0 <= q < m.round ==> UpdateInv(rxs, c, nd, q))
  }

  /** The vectors a node's sums range over exist. */
  ghost predicate Known(rxs: seq<seq<Vec>>, j: nat, m: Barrier.Member) {
    && (forall t :: t in m.got ==> t.sender < |rxs| && t.round < |rxs[t.sender]|)
    && (forall i :: 0 <= i < |rxs| && i != j ==> m.round <= |rxs[i]|)
  }

  ghost predicate UpdateInv(rxs: seq<seq<Vec>>, c: Config, nd: Node, q: nat)
    requires c.Valid()
  {
    && q < |nd.sent| && q < |nd.avs| && q + 1 < |nd.lams| && VectorsSized(c.n, nd)
    && forall slot :: 0 <= slot < c.n ==>
         && nd.avs[q][slot] == NewAverage(Others(rxs, c.idx, q, slot, c.n), nd.sent[q][slot], Expected(c.n))
         && nd.lams[q + 1][slot] == NewMultiplier(nd.lams[q][slot], c.rho, nd.sent[q][slot], nd.avs[q][slot])
  }

  /** Every frame on the bus carries its chunk of its sender's vector of its round. */
  ghost predicate BusInv(rxs: seq<seq<Vec>>, n: nat, log: seq<Barrier.Slot>, data: seq<Payload>)
    requires |log| == |data|
  {
    forall p :: 0 <= p < |log| ==> SlotInv(rxs, n, log[p], data[p])
  }

  ghost predicate SlotInv(rxs: seq<seq<Vec>>, n: nat, e: Barrier.Slot, data: Payload) {
    && e.Burst?
    && e.tag.sender < |rxs| && e.tag.round < |rxs[e.tag.sender]| && |rxs[e.tag.sender][e.tag.round]| == n
    && Carries(n, data, e.tag.chunk, rxs[e.tag.sender][e.tag.round])
  }

  ghost predicate Inv(cfg: seq<Config>, s: Sys) {
    && Sized(cfg, s)
    && Barrier.Inv(s.bar, |cfg|, NumMessages(|cfg|))
    && BusInv(Rxs(s), |cfg|, s.bar.log, s.data)
    && forall j :: 0 <= j < |cfg| ==> Holds(Rxs(s), cfg[j], s.bar.members[j], s.nodes[j])
  }

  ghost predicate Holds(rxs: seq<seq<Vec>>, c: Config, m: Barrier.Member, nd: Node)
    requires c.Valid()
  {
    NodeInv(c, m, nd) && FlowInv(rxs, c, m, nd)
  }

  // Growing histories leave past sums alone.

  ghost predicate Grows(rxs: seq<seq<Vec>>, rxs': seq<seq<Vec>>) {
    |rxs| == |rxs'| && forall i :: 0 <= i < |rxs| ==> rxs[i] <= rxs'[i]
  }

  lemma {:induction false} HeardGrows(rxs: seq<seq<Vec>>, rxs': seq<seq<Vec>>, got: set<Barrier.Tag>, q: nat, slot: nat, m: nat)
    requires Grows(rxs, rxs') && m <= |rxs|
    requires forall t :: t in got ==> t.sender < |rxs| && t.round < |rxs[t.sender]|
    ensures Heard(rxs', got, q, slot, m) == Heard(rxs, got, q, slot, m)
  {
    if m > 0 {
      HeardGrows(rxs, rxs', got, q, slot, m - 1);
      assert rxs[m - 1] <= rxs'[m - 1];
    }
  }

  lemma {:induction false} OthersGrows(rxs: seq<seq<Vec>>, rxs': seq<seq<Vec>>, j: nat, q: nat, slot: nat, m: nat)
    requires Grows(rxs, rxs') && m <= |rxs|
    requires forall i :: 0 <= i < |rxs| && i != j ==> q < |rxs[i]|
    ensures Others(rxs', j, q, slot, m) == Others(rxs, j, q, slot, m)
  {
    if m > 0 {
      OthersGrows(rxs, rxs', j, q, slot, m - 1);
      assert rxs[m - 1] <= rxs'[m - 1];
    }
  }

  lemma FlowGrows(rxs: seq<seq<Vec>>, rxs': seq<seq<Vec>>, c: Config, m: Barrier.Member, nd: Node)
    requires c.Valid() && |rxs| == c.n && nd.local.Sized(c.n) && Grows(rxs, rxs') && FlowInv(rxs, c, m, nd)
    ensures FlowInv(rxs', c, m, nd)
  {
    assert forall i :: 0 <= i < |rxs| ==> rxs[i] <= rxs'[i];
    forall slot | 0 <= slot < c.n ensures nd.local.received[slot] == Heard(rxs', m.got, m.round, slot, c.n) {
      HeardGrows(rxs, rxs', m.got, m.round, slot, c.n);
    }
    forall q | 0 <= q < m.round ensures UpdateInv(rxs', c, nd, q) {
      assert UpdateInv(rxs, c, nd, q);
      forall slot | 0 <= slot < c.n ensures Others(rxs', c.idx, q, slot, c.n) == Others(rxs, c.idx, q, slot, c.n) {
        OthersGrows(rxs, rxs', c.idx, q, slot, c.n);
      }
    }
  }

  lemma BusGrows(rxs: seq<seq<Vec>>, rxs': seq<seq<Vec>>, n: nat, log: seq<Barrier.Slot>, data: seq<Payload>)
    requires |log| == |data| && Grows(rxs, rxs') && BusInv(rxs, n, log, data)
    ensures BusInv(rxs', n, log, data)
  {
    forall p | 0 <= p < |log| ensures SlotInv(rxs', n, log[p], data[p]) {
      assert SlotInv(rxs, n, log[p], data[p]);
      var t := log[p].tag;
      assert rxs[t.sender] <= rxs'[t.sender];
    }
  }

  // Every move keeps the invariant. A move changes one node; the others only see histories grow.

  lemma Assemble(cfg: seq<Config>, s: Sys, s': Sys, j: nat)
    requires Inv(cfg, s) && j < |cfg|
    requires Sized(cfg, s') && Barrier.Inv(s'.bar, |cfg|, NumMessages(|cfg|)) && BusInv(Rxs(s'), |cfg|, s'.bar.log, s'.data)
    requires Grows(Rxs(s), Rxs(s'))
    requires forall i :: 0 <= i < |cfg| && i != j ==> s'.nodes[i] == s.nodes[i] && s'.bar.members[i] == s.bar.members[i]
    requires Holds(Rxs(s'), cfg[j], s'.bar.members[j], s'.nodes[j])
    ensures Inv(cfg, s')
  {
    forall i | 0 <= i < |cfg| ensures Holds(Rxs(s'), cfg[i], s'.bar.members[i], s'.nodes[i]) {
      if i != j {
        HoldsGrows(Rxs(s), Rxs(s'), cfg[i], s.bar.members[i], s.nodes[i]);
      }
    }
  }

  lemma HoldsGrows(rxs: seq<seq<Vec>>, rxs': seq<seq<Vec>>, c: Config, m: Barrier.Member, nd: Node)
    requires c.Valid() && |rxs| == c.n && Grows(rxs, rxs') && Holds(rxs, c, m, nd)
    ensures Holds(rxs', c, m, nd)
  {
    FlowGrows(rxs, rxs', c, m, nd);
  }

  // The start.

  lemma StartInv(cfg: seq<Config>)
    requires ValidConfigs(cfg)
    ensures Inv(cfg, Start(|cfg|))
  {
    var n := |cfg|;
    var s := Start(n);
    Barrier.StartInv(n, NumMessages(n));
    forall j | 0 <= j < n ensures Holds(Rxs(s), cfg[j], s.bar.members[j], s.nodes[j]) {
      StartHolds(cfg[j], Rxs(s));
    }
  }

  lemma StartHolds(c: Config, rxs: seq<seq<Vec>>)
    requires c.Valid() && |rxs| == c.n
    ensures Holds(rxs, c, Barrier.Member(0, false, 0, {}, {}), Node(Initial(c.n), [], [], [], [], [Const(c.n, 0.0)], []))
  {
    forall slot | 0 <= slot < c.n ensures Heard(rxs, {}, 0, slot, c.n) == 0.0 {
      NothingHeard(rxs, 0, slot, c.n);
    }
  }

  lemma {:induction false} NothingHeard(rxs: seq<seq<Vec>>, q: nat, slot: nat, m: nat)
    ensures Heard(rxs, {}, q, slot, m) == 0.0
  {
    if m > 0 {
      NothingHeard(rxs, q, slot, m - 1);
    }
  }

  // A frame wins the bus.

  lemma TransmitStep(cfg: seq<Config>, s: Sys, j: nat, c: nat)
    requires Inv(cfg, s) && Enabled(cfg, s, Transmit(j, c))
    ensures Inv(cfg, Next(cfg, s, Transmit(j, c)))
  {
    var n := |cfg|;
    var s' := Next(cfg, s, Transmit(j, c));
    var m := s.bar.members[j];
    assert Rxs(s') == Rxs(s);
    assert Holds(Rxs(s), cfg[j], m, s.nodes[j]);
    TransmitHolds(Rxs(s), cfg[j], m, s.nodes[j], c);
    TransmitSlot(Rxs(s), cfg[j], m, s.nodes[j], c);
    TransmitBus(Rxs(s), n, s.bar.log, s.data, s'.bar.log[|s.bar.log|], s.nodes[j].burst[c]);
    Barrier.TransmitInv(s.bar, n, NumMessages(n), j, c);
    Assemble(cfg, s, s', j);
  }

  lemma TransmitHolds(rxs: seq<seq<Vec>>, c: Config, m: Barrier.Member, nd: Node, chunk: nat)
    requires c.Valid() && Holds(rxs, c, m, nd)
    ensures Holds(rxs, c, m.(outbox := m.outbox - {chunk}), nd)
  {
    var m' := m.(outbox := m.outbox - {chunk});
    forall q | 0 <= q < m'.round ensures UpdateInv(rxs, c, nd, q) {
      assert UpdateInv(rxs, c, nd, q);
    }
  }

  lemma TransmitSlot(rxs: seq<seq<Vec>>, c: Config, m: Barrier.Member, nd: Node, chunk: nat)
    requires c.Valid() && Holds(rxs, c, m, nd) && chunk in m.outbox && m.Latest() > 0 && chunk < |nd.burst|
    requires c.idx < |rxs| && rxs[c.idx] == nd.rx
    ensures SlotInv(rxs, c.n, Barrier.Burst(Barrier.Tag(c.idx, m.Latest() - 1, chunk)), nd.burst[chunk])
  {
    assert BurstOf(c.n, nd.burst, nd.rx[m.Latest() - 1]);
  }

  lemma TransmitBus(rxs: seq<seq<Vec>>, n: nat, log: seq<Barrier.Slot>, data: seq<Payload>, e: Barrier.Slot, d: Payload)
    requires |log| == |data| && BusInv(rxs, n, log, data) && SlotInv(rxs, n, e, d)
    ensures BusInv(rxs, n, log + [e], data + [d])
  {
    forall p | 0 <= p < |log| + 1 ensures SlotInv(rxs, n, (log + [e])[p], (data + [d])[p]) {
      if p < |log| {
        assert SlotInv(rxs, n, log[p], data[p]);
      }
    }
  }

  // A node consumes a frame.

  /** One more frame heard adds its own entry at its own slots. */
  lemma {:induction false} HeardMore(rxs: seq<seq<Vec>>, got: set<Barrier.Tag>, t: Barrier.Tag, slot: nat, m: nat)
    requires t !in got
    ensures Heard(rxs, got + {t}, t.round, slot, m)
         == Heard(rxs, got, t.round, slot, m) + if t.sender < m && t.chunk == slot / 3 then Entry(rxs, t.sender, t.round, slot) else 0.0
  {
    if m > 0 {
      HeardMore(rxs, got, t, slot, m - 1);
    }
  }

  /** A node that may consume a frame still waits, in the barrier's sense: it goes by its count. */
  lemma StillWaits(bar: Barrier.State, c: Config, nd: Node)
    requires c.Valid() && Barrier.Inv(bar, c.n, NumMessages(c.n)) && NodeInv(c, bar.members[c.idx], nd)
    ensures Barrier.Waits(bar, c.n, NumMessages(c.n), c.idx)
            <==> !(nd.local.phase == Waiting && nd.local.numReceived == Expected(c.n))
  {
    CountOf(c, bar.members[c.idx], nd);
    Barrier.Undercounted(bar, c.n, NumMessages(c.n), c.idx);
  }

  lemma CountOf(c: Config, m: Barrier.Member, nd: Node)
    requires c.Valid() && NodeInv(c, m, nd)
    ensures nd.local.numReceived == |m.got|
    ensures m.queued <==> nd.local.phase == Waiting
  {
  }

  lemma ReceiveFlow(rxs: seq<seq<Vec>>, c: Config, m: Barrier.Member, nd: Node, t: Barrier.Tag, data: Payload, cursor: nat)
    requires c.Valid() && nd.local.Sized(c.n) && FlowInv(rxs, c, m, nd)
    requires SlotInv(rxs, c.n, Barrier.Burst(t), data) && t.round == m.round && t !in m.got
    requires t.sender < c.n && t.chunk < NumMessages(c.n)
    ensures FlowInv(rxs, c, m.(got := m.got + {t}, cursor := cursor), nd.(local := Receive(c, nd.local, data)))
  {
    var l' := Receive(c, nd.local, data);
    forall slot | 0 <= slot < c.n ensures l'.received[slot] == Heard(rxs, m.got + {t}, m.round, slot, c.n) {
      AddFrameEffect(c.n, nd.local.received, data, t.chunk, rxs[t.sender][t.round], slot);
      HeardMore(rxs, m.got, t, slot, c.n);
    }
    forall q | 0 <= q < m.round ensures UpdateInv(rxs, c, nd.(local := l'), q) {
      assert UpdateInv(rxs, c, nd, q);
    }
  }

  lemma ReceiveHolds(rxs: seq<seq<Vec>>, c: Config, m: Barrier.Member, nd: Node, t: Barrier.Tag, data: Payload, cursor: nat)
    requires c.Valid() && Holds(rxs, c, m, nd)
    requires SlotInv(rxs, c.n, Barrier.Burst(t), data) && t.round == m.round && t !in m.got
    requires t.sender < c.n && t.chunk < NumMessages(c.n)
    ensures Holds(rxs, c, m.(got := m.got + {t}, cursor := cursor), nd.(local := Receive(c, nd.local, data)))
  {
    ReceiveFlow(rxs, c, m, nd, t, data, cursor);
    ReceiveNode(c, m, nd, t, data, cursor);
  }

  lemma ReceiveNode(c: Config, m: Barrier.Member, nd: Node, t: Barrier.Tag, data: Payload, cursor: nat)
    requires c.Valid() && NodeInv(c, m, nd) && t !in m.got
    ensures NodeInv(c, m.(got := m.got + {t}, cursor := cursor), nd.(local := Receive(c, nd.local, data)))
  {
    var nd' := nd.(local := Receive(c, nd.local, data));
    forall q | 0 <= q < |nd'.sent| ensures Answered(c, nd', q) {
      assert Answered(c, nd, q);
    }
  }

  lemma SkipHolds(rxs: seq<seq<Vec>>, c: Config, m: Barrier.Member, nd: Node, cursor: nat)
    requires c.Valid() && Holds(rxs, c, m, nd)
    ensures Holds(rxs, c, m.(cursor := cursor), nd)
  {
  }

  /** What the barrier knows about the frame a node is about to consume. */
  lemma NextFrame(rxs: seq<seq<Vec>>, bar: Barrier.State, c: Config, nd: Node)
    requires c.Valid() && Barrier.Inv(bar, c.n, NumMessages(c.n)) && Holds(rxs, c, bar.members[c.idx], nd)
    requires bar.members[c.idx].cursor < |bar.log| && bar.log[bar.members[c.idx].cursor].Burst?
    requires !OwnFrame(bar, c.idx) ==> !(nd.local.phase == Waiting && nd.local.numReceived == Expected(c.n))
    ensures Barrier.Inv(Barrier.Deliver(bar, c.idx), c.n, NumMessages(c.n))
    ensures var t := bar.log[bar.members[c.idx].cursor].tag;
            t.sender != c.idx ==> NewFrame(c.n, bar.members[c.idx], t)
  {
    StillWaits(bar, c, nd);
    Barrier.DeliverInv(bar, c.n, NumMessages(c.n), c.idx);
    var t := bar.log[bar.members[c.idx].cursor].tag;
    if t.sender != c.idx {
      Barrier.NextIsDue(bar, c.n, NumMessages(c.n), c.idx, t);
    }
  }

  ghost predicate NewFrame(n: nat, m: Barrier.Member, t: Barrier.Tag)
    requires 1 <= n
  {
    t.round == m.round && t !in m.got && t.sender < n && t.chunk < NumMessages(n)
  }

  lemma DeliverHolds(rxs: seq<seq<Vec>>, c: Config, m: Barrier.Member, nd: Node, e: Barrier.Slot, data: Payload)
    requires c.Valid() && SlotInv(rxs, c.n, e, data) && Holds(rxs, c, m, nd)
    requires e.tag.sender != c.idx ==> NewFrame(c.n, m, e.tag)
    ensures Holds(rxs, c, Barrier.Consume(m, e, c.idx),
                  if e.tag.sender == c.idx then nd else nd.(local := Receive(c, nd.local, data)))
  {
    if e.tag.sender == c.idx {
      SkipHolds(rxs, c, m, nd, m.cursor + 1);
    } else {
      ReceiveHolds(rxs, c, m, nd, e.tag, data, m.cursor + 1);
    }
  }

  lemma DeliverStep(cfg: seq<Config>, s: Sys, j: nat)
    requires Inv(cfg, s) && Enabled(cfg, s, Deliver(j))
    ensures Inv(cfg, Next(cfg, s, Deliver(j)))
  {
    hide Barrier.Inv, Holds;
    var m := s.bar.members[j];
    var s' := AfterDeliver(cfg, s, j);
    assert SlotInv(Rxs(s), |cfg|, s.bar.log[m.cursor], s.data[m.cursor]);
    assert Holds(Rxs(s), cfg[j], m, s.nodes[j]);
    NextFrame(Rxs(s), s.bar, cfg[j], s.nodes[j]);
    DeliverHolds(Rxs(s), cfg[j], m, s.nodes[j], s.bar.log[m.cursor], s.data[m.cursor]);
    assert Rxs(s') == Rxs(s);
    Assemble(cfg, s, s', j);
  }

  // A main-loop pass: first the part that sends, then the part that updates.

  ghost function AfterSend(c: Config, nd: Node, stale: Payload): Node
    requires c.Valid() && nd.local.Sized(c.n)
  {
    var l := Solved(c, nd.local).(phase := Waiting);
    nd.(local := l, burst := Burst(c.n, l.best, stale, NumMessages(c.n)), sent := nd.sent + [l.best], rx := nd.rx + [AsReceived(l.best)])
  }

  ghost function AfterUpdate(c: Config, nd: Node): Node
    requires c.Valid() && nd.local.Sized(c.n)
  {
    var l := Updated(c, nd.local);
    nd.(local := l, avs := nd.avs + [l.av], lams := nd.lams + [l.lambda],
        references := if l.phase == Off then nd.references + [Reference(c, l.best)] else nd.references)
  }

  /** The count of the node's current round is complete. */
  predicate Complete(c: Config, nd: Node)
    requires c.Valid()
  {
    nd.local.numReceived == Expected(c.n)
  }

  /** Between two passes a node is off, about to iterate, or waiting; the pass is one or both parts. */
  lemma PassParts(c: Config, nd: Node, stale: Payload)
    requires c.Valid() && nd.local.Sized(c.n)
    ensures nd.local.phase == Iterate ==>
            && MainPass(c, nd.local).sent
            && (MainPass(c, nd.local).updated <==> Complete(c, nd))
            && AfterPass(c, nd, MainPass(c, nd.local), stale)
               == if Complete(c, nd) then AfterUpdate(c, AfterSend(c, nd, stale)) else AfterSend(c, nd, stale)
    ensures nd.local.phase == Waiting && Complete(c, nd) ==>
            && !MainPass(c, nd.local).sent && MainPass(c, nd.local).updated
            && AfterPass(c, nd, MainPass(c, nd.local), stale) == AfterUpdate(c, nd)
  {
    hide Burst, AsReceived;
  }

  lemma SendHolds(rxs: seq<seq<Vec>>, c: Config, m: Barrier.Member, nd: Node, stale: Payload)
    requires c.Valid() && Holds(rxs, c, m, nd) && nd.local.phase == Iterate
    ensures Holds(rxs, c, m.(queued := true, outbox := Barrier.Chunks(NumMessages(c.n))), AfterSend(c, nd, stale))
  {
    SendNode(c, m, nd, stale);
    var nd' := AfterSend(c, nd, stale);
    forall q | 0 <= q < m.round ensures UpdateInv(rxs, c, nd', q) {
      assert UpdateInv(rxs, c, nd, q);
    }
  }

  lemma SendNode(c: Config, m: Barrier.Member, nd: Node, stale: Payload)
    requires c.Valid() && NodeInv(c, m, nd) && nd.local.phase == Iterate
    ensures NodeInv(c, m.(queued := true, outbox := Barrier.Chunks(NumMessages(c.n))), AfterSend(c, nd, stale))
  {
    hide Solve, Burst, AsReceived, Answered, BurstOf;
    SendAnswered(c, m, nd, stale);
    SendBurst(c.n, AfterSend(c, nd, stale).local.best, stale);
  }

  lemma SendAnswered(c: Config, m: Barrier.Member, nd: Node, stale: Payload)
    requires c.Valid() && NodeInv(c, m, nd) && nd.local.phase == Iterate
    ensures forall q :: 0 <= q <= m.round ==> Answered(c, AfterSend(c, nd, stale), q)
  {
    hide Burst, AsReceived, BurstOf;
    var nd' := AfterSend(c, nd, stale);
    forall q | 0 <= q <= m.round ensures Answered(c, nd', q) {
      if q < m.round {
        assert Answered(c, nd, q);
      }
    }
  }

  lemma SendBurst(n: nat, best: Vec, stale: Payload)
    requires 1 <= n < MAX_NUM_NODES && |best| == n
    ensures BurstOf(n, Burst(n, best, stale, NumMessages(n)), AsReceived(best))
  {
    forall c | 0 <= c < NumMessages(n) ensures Carries(n, Burst(n, best, stale, NumMessages(n))[c], c, AsReceived(best)) {
      BurstCarries(n, best, stale, NumMessages(n), c);
    }
  }

  /** The state after the sending part of node `j`'s pass. */
  ghost function SendOn(cfg: seq<Config>, s: Sys, j: nat, stale: Payload): Sys
    requires Sized(cfg, s) && j < |cfg|
  {
    s.(bar := Barrier.Queue(s.bar, NumMessages(|cfg|), j), nodes := s.nodes[j := AfterSend(cfg[j], s.nodes[j], stale)])
  }

  lemma SendStep(cfg: seq<Config>, s: Sys, j: nat, stale: Payload)
    requires Inv(cfg, s) && j < |cfg| && s.nodes[j].local.phase == Iterate && s.bar.members[j].outbox == {}
    ensures Inv(cfg, SendOn(cfg, s, j, stale))
  {
    hide Barrier.Inv, Holds, BusInv;
    var s' := SendOn(cfg, s, j, stale);
    assert Holds(Rxs(s), cfg[j], s.bar.members[j], s.nodes[j]);
    NotQueued(Rxs(s), cfg[j], s.bar.members[j], s.nodes[j]);
    Barrier.QueueInv(s.bar, |cfg|, NumMessages(|cfg|), j);
    SendHolds(Rxs(s), cfg[j], s.bar.members[j], s.nodes[j], stale);
    HoldsGrows(Rxs(s), Rxs(s'), cfg[j], s'.bar.members[j], s'.nodes[j]);
    BusGrows(Rxs(s), Rxs(s'), |cfg|, s.bar.log, s.data);
    Assemble(cfg, s, s', j);
  }

  lemma NotQueued(rxs: seq<seq<Vec>>, c: Config, m: Barrier.Member, nd: Node)
    requires c.Valid() && Holds(rxs, c, m, nd)
    ensures nd.local.phase == Iterate ==> !m.queued && m.round < MAX_ITER
    ensures nd.local.phase == Waiting <==> m.queued
    ensures nd.local.phase == Iterate || nd.local.phase == Waiting || nd.local.phase == Off
  {
  }

  /** With every frame due heard, the accumulator holds everybody else's vectors. */
  lemma {:induction false} AllHeard(rxs: seq<seq<Vec>>, n: nat, j: nat, q: nat, slot: nat, m: nat)
    requires 1 <= n && slot < n && m <= n
    ensures Heard(rxs, Barrier.Due(n, NumMessages(n), j, q), q, slot, m) == Others(rxs, j, q, slot, m)
  {
    if m > 0 {
      AllHeard(rxs, n, j, q, slot, m - 1);
      SlotInBurst(n, slot);
    }
  }

  lemma UpdateNode(c: Config, m: Barrier.Member, nd: Node)
    requires c.Valid() && NodeInv(c, m, nd) && m.queued
    ensures NodeInv(c, m.(round := m.round + 1, queued := false, got := {}), AfterUpdate(c, nd))
  {
    var nd' := AfterUpdate(c, nd);
    forall q | 0 <= q < |nd'.sent| ensures Answered(c, nd', q) {
      assert Answered(c, nd, q);
      assert AvAt(c.n, nd', q) == AvAt(c.n, nd, q);
    }
  }

  lemma UpdateHolds(rxs: seq<seq<Vec>>, c: Config, m: Barrier.Member, nd: Node)
    requires c.Valid() && |rxs| == c.n && Holds(rxs, c, m, nd) && m.queued
    requires m.got == Barrier.Due(c.n, NumMessages(c.n), c.idx, m.round) && Complete(c, nd)
    ensures Holds(rxs, c, m.(round := m.round + 1, queued := false, got := {}), AfterUpdate(c, nd))
  {
    UpdateNode(c, m, nd);
    var nd' := AfterUpdate(c, nd);
    forall q | 0 <= q < m.round + 1 ensures UpdateInv(rxs, c, nd', q) {
      if q < m.round {
        PastUpdate(rxs, c, m, nd, q);
      } else {
        LastUpdate(rxs, c, m, nd);
      }
    }
    forall slot | 0 <= slot < c.n ensures nd'.local.received[slot] == Heard(rxs, {}, m.round + 1, slot, c.n) {
      NothingHeard(rxs, m.round + 1, slot, c.n);
    }
    forall i | 0 <= i < |rxs| && i != c.idx ensures m.round + 1 <= |rxs[i]| {
      assert Barrier.Tag(i, m.round, 0) in m.got;
    }
  }

  lemma PastUpdate(rxs: seq<seq<Vec>>, c: Config, m: Barrier.Member, nd: Node, q: nat)
    requires c.Valid() && Holds(rxs, c, m, nd) && q < m.round
    ensures UpdateInv(rxs, c, AfterUpdate(c, nd), q)
  {
    assert UpdateInv(rxs, c, nd, q);
  }

  lemma LastUpdate(rxs: seq<seq<Vec>>, c: Config, m: Barrier.Member, nd: Node)
    requires c.Valid() && Holds(rxs, c, m, nd) && m.queued
    requires m.got == Barrier.Due(c.n, NumMessages(c.n), c.idx, m.round) && Complete(c, nd)
    ensures UpdateInv(rxs, c, AfterUpdate(c, nd), m.round)
  {
    var nd', q := AfterUpdate(c, nd), m.round;
    forall slot | 0 <= slot < c.n
      ensures nd'.avs[q][slot] == NewAverage(Others(rxs, c.idx, q, slot, c.n), nd'.sent[q][slot], Expected(c.n))
      ensures nd'.lams[q + 1][slot] == NewMultiplier(nd'.lams[q][slot], c.rho, nd'.sent[q][slot], nd'.avs[q][slot])
    {
      AllHeard(rxs, c.n, c.idx, q, slot, c.n);
    }
  }

  /** The state after the updating part of node `j`'s pass. */
  ghost function UpdateOn(cfg: seq<Config>, s: Sys, j: nat): Sys
    requires Sized(cfg, s) && j < |cfg|
  {
    s.(bar := Barrier.Pass(s.bar, j), nodes := s.nodes[j := AfterUpdate(cfg[j], s.nodes[j])])
  }

  lemma UpdateStep(cfg: seq<Config>, s: Sys, j: nat)
    requires Inv(cfg, s) && j < |cfg| && s.nodes[j].local.phase == Waiting && Complete(cfg[j], s.nodes[j])
    ensures Inv(cfg, UpdateOn(cfg, s, j))
  {
    hide Barrier.Inv, Holds, BusInv;
    var s' := UpdateOn(cfg, s, j);
    assert Holds(Rxs(s), cfg[j], s.bar.members[j], s.nodes[j]);
    RoundDone(Rxs(s), s.bar, cfg[j], s.nodes[j]);
    UpdateHolds(Rxs(s), cfg[j], s.bar.members[j], s.nodes[j]);
    assert Rxs(s') == Rxs(s);
    Assemble(cfg, s, s', j);
  }

  /** What the barrier knows when the count is complete. */
  lemma RoundDone(rxs: seq<seq<Vec>>, bar: Barrier.State, c: Config, nd: Node)
    requires c.Valid() && Barrier.Inv(bar, c.n, NumMessages(c.n)) && Holds(rxs, c, bar.members[c.idx], nd)
    requires nd.local.phase == Waiting && Complete(c, nd)
    ensures bar.members[c.idx].queued
    ensures bar.members[c.idx].got == Barrier.Due(c.n, NumMessages(c.n), c.idx, bar.members[c.idx].round)
    ensures Barrier.Inv(Barrier.Pass(bar, c.idx), c.n, NumMessages(c.n))
  {
    StillWaits(bar, c, nd);
    Barrier.PassInv(bar, c.n, NumMessages(c.n), c.idx);
  }

  /** A pass of the system is the sending part, the updating part, or both. */
  lemma MainCases(cfg: seq<Config>, s: Sys, j: nat, stale: Payload)
    requires Inv(cfg, s) && Enabled(cfg, s, Main(j, stale))
    ensures s.nodes[j].local.phase == Iterate ==>
            && s.bar.members[j].outbox == {}
            && Next(cfg, s, Main(j, stale))
               == if Complete(cfg[j], s.nodes[j]) then UpdateOn(cfg, SendOn(cfg, s, j, stale), j) else SendOn(cfg, s, j, stale)
    ensures s.nodes[j].local.phase != Iterate ==>
            && s.nodes[j].local.phase == Waiting && Complete(cfg[j], s.nodes[j])
            && Next(cfg, s, Main(j, stale)) == UpdateOn(cfg, s, j)
  {
    hide Barrier.Inv, Holds, BusInv, MainPass, AfterPass, AfterSend, AfterUpdate;
    assert Holds(Rxs(s), cfg[j], s.bar.members[j], s.nodes[j]);
    NotQueued(Rxs(s), cfg[j], s.bar.members[j], s.nodes[j]);
    PassParts(cfg[j], s.nodes[j], stale);
  }

  lemma MainStep(cfg: seq<Config>, s: Sys, j: nat, stale: Payload)
    requires Inv(cfg, s) && Enabled(cfg, s, Main(j, stale))
    ensures Inv(cfg, Next(cfg, s, Main(j, stale)))
  {
    hide Barrier.Inv, Holds, BusInv, AfterSend, AfterUpdate, Next;
    MainCases(cfg, s, j, stale);
    if s.nodes[j].local.phase == Iterate {
      SendStep(cfg, s, j, stale);
      SentWaits(cfg[j], s.nodes[j], stale);
      if Complete(cfg[j], s.nodes[j]) {
        UpdateStep(cfg, SendOn(cfg, s, j, stale), j);
      }
    } else {
      UpdateStep(cfg, s, j);
    }
  }

  lemma SentWaits(c: Config, nd: Node, stale: Payload)
    requires c.Valid() && nd.local.Sized(c.n)
    ensures AfterSend(c, nd, stale).local.phase == Waiting
    ensures Complete(c, AfterSend(c, nd, stale)) <==> Complete(c, nd)
  {
  }

  lemma StepInv(cfg: seq<Config>, s: Sys, step: Step)
    requires Inv(cfg, s) && Enabled(cfg, s, step)
    ensures Inv(cfg, Next(cfg, s, step))
  {
    match step
    case Transmit(j, c) => TransmitStep(cfg, s, j, c);
    case Deliver(j) => DeliverStep(cfg, s, j);
    case Main(j, stale) => MainStep(cfg, s, j, stale);
  }
}
