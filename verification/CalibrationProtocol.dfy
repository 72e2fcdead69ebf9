/** `n` nodes calibrating over one totally ordered broadcast bus. Every node runs the code of
    CalibrationNode. READY frames form the bursts of the counting barrier, one frame per round: round 0
    carries residuals, and round q, for q from 1 to 2n, ends the phase in which the node of index
    (q - 1) / 2 has its LED on for its reading number (q - 1) % 2. No frame names a phase. */
module CalibrationProtocol {
  import opened Globals
  import opened CalibrationNode
  import Barrier

  /** A node: its object, whether an LED frame still waits for the bus, the values of its READY frames so
      far, its readings so far, the number of LED frames it announced, and the senders whose residual
      reached it before its own first pass. */
  datatype Node = Node(local: Calib, ledPending: bool, ready: seq<real>, lux: seq<real>, leds: nat, early: set<nat>)

  /** A frame on the bus. `sender` and `phase` of an LED frame are not in the frame's data. */
  datatype Frame = ReadyFrame(value: real) | LedFrame(sender: nat, phase: nat)

  /** `data[p]` is the frame at bus position `p`; `ledAt` says where each phase's LED frame is. */
  datatype Sys = Sys(bar: Barrier.State, data: seq<Frame>, ledAt: map<nat, nat>, nodes: seq<Node>)

  /** The node whose LED is due in phase `q`, and the number of the reading. */
  function Owner(q: nat): nat
    requires q >= 1
  {
    (q - 1) / 2
  }

  function Reading(q: nat): nat
    requires q >= 1
  {
    (q - 1) % 2
  }

  function Start(n: nat): Sys {
    Sys(Barrier.Start(n), [], map[], seq(n, _ => Node(Booted(), false, [], [], 0, {})))
  }

  /** One move: a READY frame or an LED frame wins the bus; a node consumes the next frame; a node makes
      a pass, with `lux` its sensor's reading. */
  datatype Step = TransmitReady(j: nat) | TransmitLed(j: nat) | Deliver(j: nat) | Main(j: nat, lux: real)

  ghost predicate Sized(n: nat, s: Sys) {
    && 1 <= n <= MAX_NUM_NODES
    && |s.nodes| == |s.bar.members| == n && |s.data| == |s.bar.log|
    && forall j :: 0 <= j < n ==> s.nodes[j].local.Sized()
  }

  ghost predicate OwnFrame(s: Sys, j: nat)
    requires |s.data| == |s.bar.log| && j < |s.bar.members| && s.bar.members[j].cursor < |s.bar.log|
  {
    match s.data[s.bar.members[j].cursor]
    case LedFrame(sender, _) => sender == j
    case ReadyFrame(_) => s.bar.log[s.bar.members[j].cursor].Burst? && s.bar.log[s.bar.members[j].cursor].tag.sender == j
  }

  /** The moves possible in `s`, with the same three assumptions as for the consensus rounds: a node that
      has counted all nodes ready consumes no further READY frame before its next pass; a node hands a
      frame to its controller only when its earlier ones have left, while passes that broadcast nothing
      need not wait for that; no frame is lost. Passes that change nothing are left out; a transient may
      end at any time. */
  ghost predicate Enabled(n: nat, s: Sys, step: Step)
    requires Sized(n, s)
  {
    match step
    case TransmitReady(j) => j < n && s.bar.members[j].outbox == {0} && s.bar.members[j].Latest() > 0 && s.nodes[j].ready != []
    case TransmitLed(j) => j < n && s.nodes[j].ledPending
    case Deliver(j) =>
      && j < n && s.bar.members[j].cursor < |s.bar.log|
      && (OwnFrame(s, j) || s.data[s.bar.members[j].cursor].LedFrame? || (s.nodes[j].local.numReady < n && s.nodes[j].local.InBounds()
            && s.bar.log[s.bar.members[j].cursor].Burst? && s.bar.log[s.bar.members[j].cursor].tag.sender < n))
    case Main(j, lux) =>
      && j < n && s.nodes[j].local.InBounds() && Acts(Place(n, j), s.nodes[j].local)
      && (Broadcast(Place(n, j), s.nodes[j].local, true, lux).Some? ==> s.bar.members[j].outbox == {} && !s.nodes[j].ledPending)
  }

  /** A pass changes something (given time for the transient). */
  predicate Acts(p: Place, v: Calib) {
    match v.state
    case CalibInit => true
    case WaitReady => AllReady(p, v)
    case WaitLedOn => v.otherLedOn
    case WaitTransient => true
  }

  ghost function Next(n: nat, s: Sys, step: Step): Sys
    requires Sized(n, s) && Enabled(n, s, step)
  {
    match step
    case TransmitReady(j) =>
      s.(bar := Barrier.Transmit(s.bar, j, 0), data := s.data + [ReadyFrame(s.nodes[j].ready[|s.nodes[j].ready| - 1])])
    case TransmitLed(j) => AfterLed(s, j)
    case Deliver(j) =>
      var local := if OwnFrame(s, j) then s.nodes[j] else AfterFrame(s.nodes[j], s.bar.log[s.bar.members[j].cursor], s.data[s.bar.members[j].cursor]);
      s.(bar := Barrier.Deliver(s.bar, j), nodes := s.nodes[j := local])
    case Main(j, lux) => AfterMain(n, s, j, lux)
  }

  ghost function AfterLed(s: Sys, j: nat): Sys
    requires j < |s.nodes| == |s.bar.members|
  {
    var q := s.bar.members[j].round;
    s.(bar := Barrier.Put(s.bar), data := s.data + [LedFrame(j, q)], ledAt := s.ledAt[q := |s.data|],
       nodes := s.nodes[j := s.nodes[j].(ledPending := false)])
  }

  /** A frame reaches a node. The code sees the value, the sender's index and nothing else. */
  ghost function AfterFrame(nd: Node, e: Barrier.Slot, f: Frame): Node
    requires nd.local.Sized()
    requires f.ReadyFrame? ==> e.Burst? && e.tag.sender < MAX_NUM_NODES && nd.local.InBounds()
  {
    match f
    case LedFrame(_, _) => nd.(local := nd.local.(otherLedOn := true))
    case ReadyFrame(value) =>
      nd.(local := ReceivedReady(nd.local, e.tag.sender, value),
          early := if nd.local.state == CalibInit then nd.early + {e.tag.sender} else nd.early)
  }

  ghost function AfterMain(n: nat, s: Sys, j: nat, lux: real): Sys
    requires Sized(n, s) && j < n && s.nodes[j].local.InBounds()
  {
    var p, nd := Place(n, j), s.nodes[j];
    var message := Broadcast(p, nd.local, true, lux);
    var bar := if nd.local.state == WaitReady && AllReady(p, nd.local) then Barrier.Pass(s.bar, j)
               else if message.Some? && message.value.Ready? then Barrier.Queue(s.bar, 1, j) else s.bar;
    s.(bar := bar, nodes := s.nodes[j := AfterPass(p, nd, lux)])
  }

  /** The node's own part of a pass. */
  ghost function AfterPass(p: Place, nd: Node, lux: real): Node
    requires p.Valid() && nd.local.Sized() && nd.local.InBounds()
  {
    var message := Broadcast(p, nd.local, true, lux);
    var readied, lit := message.Some? && message.value.Ready?, message.Some? && message.value.LedOn?;
    Node(Passed(p, nd.local, true, lux),
         nd.ledPending || lit,
         if readied then nd.ready + [message.value.value] else nd.ready,
         if nd.local.state == WaitTransient then nd.lux + [lux] else nd.lux,
         if lit then nd.leds + 1 else nd.leds,
         nd.early)
  }

  // The invariant.

  /** Rounds there are. */
  function Rounds(n: nat): nat { 2 * n + 1 }

  ghost function Readys(s: Sys): (rs: seq<seq<real>>)
    ensures |rs| == |s.nodes| && forall i :: 0 <= i < |rs| ==> rs[i] == s.nodes[i].ready
  {
    seq(|s.nodes|, i requires 0 <= i < |s.nodes| => s.nodes[i].ready)
  }

  /** The fields agree with the ghost round. */
  ghost predicate Shape(p: Place, m: Barrier.Member, nd: Node)
    requires p.Valid()
  {
    var v, q := nd.local, m.round;
    && v.Sized()
    && q <= Rounds(p.n) && (q == Rounds(p.n) ==> !m.queued)
    && (v.done <==> q == Rounds(p.n))
    && v.numReady == |m.got| + (if m.queued then 1 else 0)
    && (v.state == CalibInit <==> q == 0 && !m.queued)
    && (v.state == WaitReady <==> m.queued || q == Rounds(p.n))
    && v.nodeLedOn == (if q == 0 then if m.queued then -1 else 0 else Owner(q))
    && v.luxReadNum == (if q == 0 then 0 else Reading(q) + if m.queued then 1 else 0)
    && (v.state == WaitLedOn ==> Owner(q) != p.idx)
    && (1 <= q < Rounds(p.n) && !m.queued && Owner(q) == p.idx ==> v.state == WaitTransient)
    && (nd.ledPending ==> 1 <= q < Rounds(p.n) && !m.queued && Owner(q) == p.idx)
  }

  /** LED frames announced by node `j` when it is in round `q`. */
  function Announced(j: nat, q: nat): nat {
    if q >= 2 * j + 2 then 2 else if q == 2 * j + 1 then 1 else 0
  }

  /** The READY values are what the readings say: the residual, then -1 and a gain in turn. */
  ghost predicate History(p: Place, m: Barrier.Member, nd: Node)
    requires p.Valid()
  {
    && |nd.ready| == m.Latest() && |nd.lux| == (if m.Latest() == 0 then 0 else m.Latest() - 1)
    && nd.leds == Announced(p.idx, m.round)
    && (forall r :: 1 <= r < |nd.ready| && r % 2 == 1 ==> nd.ready[r] == -1.0)
    && (forall k :: 0 <= k && 2 * k + 2 < |nd.ready| ==> nd.ready[2 * k + 2] == Gain(nd.lux[2 * k], nd.lux[2 * k + 1]))
    && |nd.local.luxReads| == 2
    && (|nd.lux| % 2 == 1 ==> nd.local.luxReads[0] == nd.lux[|nd.lux| - 1])
  }

  /** Node's READY frame of round `r` from sender `i` has been consumed. */
  ghost predicate Got(m: Barrier.Member, i: nat, r: nat) {
    r < m.round || Barrier.Tag(i, r, 0) in m.got
  }

  /** Value `r` of a history if it was received and is not negative, else `otherwise`. */
  ghost function Heard(ready: seq<real>, received: bool, r: nat, otherwise: real): real {
    if received && r < |ready| && ready[r] >= 0.0 then ready[r] else otherwise
  }

  /** What stands at row `i`, column `k` of a node's matrix: on its own row what it measured; on another
      row the sender's gain if it came and is not negative; a residual that came too early is left in
      column 0 until then. */
  ghost function GainEntry(rs: seq<seq<real>>, p: Place, m: Barrier.Member, early: set<nat>, i: nat, k: nat): real
    requires i < |rs|
  {
    var r := 2 * k + 2;
    if i == p.idx then if r < |rs[i]| then rs[i][r] else 0.0
    else Heard(rs[i], Got(m, i, r), r, if k == 0 then Heard(rs[i], i in early, 0, 0.0) else 0.0)
  }

  ghost function ResidualEntry(rs: seq<seq<real>>, p: Place, m: Barrier.Member, early: set<nat>, i: nat): real
    requires i < |rs|
  {
    if i == p.idx then if 0 < |rs[i]| then rs[i][0] else 0.0
    else Heard(rs[i], Got(m, i, 0) && i !in early, 0, 0.0)
  }

  ghost predicate Tables(rs: seq<seq<real>>, p: Place, m: Barrier.Member, nd: Node)
    requires p.Valid() && |rs| == p.n
  {
    && nd.local.Sized()
    && (forall i, k :: 0 <= i < p.n && 0 <= k < p.n ==> nd.local.gains[i][k] == GainEntry(rs, p, m, nd.early, i, k))
    && (forall i :: 0 <= i < p.n ==> nd.local.residuals[i] == ResidualEntry(rs, p, m, nd.early, i))
    && (forall i :: 0 <= i < p.n && i != p.idx ==> m.round <= |rs[i]|)
    && (forall t :: t in m.got ==> t.sender < p.n && t.sender != p.idx && t.round == m.round && t.chunk == 0 && t.round < |rs[t.sender]|)
    && (forall i :: i in nd.early ==> i < p.n && i != p.idx && Got(m, i, 0))
    && (m.round == 0 && !m.queued ==> forall t :: t in m.got ==> t.sender in nd.early)
  }

  /** The first phase whose LED frame the node has not used yet. */
  ghost function NextPhase(m: Barrier.Member, state: State): nat {
    if state == WaitLedOn then m.round else m.round + 1
  }

  ghost predicate LedHeard(ledAt: map<nat, nat>, m: Barrier.Member, idx: nat, q: nat) {
    q >= 1 && q in ledAt && ledAt[q] < m.cursor && Owner(q) != idx
  }

  /** The flag is up exactly when the next phase's LED frame has been consumed; earlier phases' have been,
      later ones' have not. */
  ghost predicate Flags(ledAt: map<nat, nat>, p: Place, m: Barrier.Member, nd: Node) {
    var next := NextPhase(m, nd.local.state);
    && (nd.local.otherLedOn <==> LedHeard(ledAt, m, p.idx, next))
    && (forall q :: 1 <= q < next && q < Rounds(p.n) && Owner(q) != p.idx ==> LedHeard(ledAt, m, p.idx, q))
    && (forall q :: q > next ==> !LedHeard(ledAt, m, p.idx, q))
  }

  ghost predicate Holds(rs: seq<seq<real>>, ledAt: map<nat, nat>, p: Place, m: Barrier.Member, nd: Node)
    requires p.Valid() && |rs| == p.n
  {
    Shape(p, m, nd) && History(p, m, nd) && Tables(rs, p, m, nd) && Flags(ledAt, p, m, nd)
  }

  /** READY frames carry their sender's value of their round. */
  ghost predicate SlotInv(rs: seq<seq<real>>, e: Barrier.Slot, f: Frame) {
    match f
    case LedFrame(_, _) => e == Barrier.Other
    case ReadyFrame(value) =>
      && e.Burst? && e.tag.sender < |rs| && e.tag.round < |rs[e.tag.sender]| && e.tag.chunk == 0
      && value == rs[e.tag.sender][e.tag.round]
      && (e.tag.round % 2 == 1 ==> value == -1.0)
  }

  ghost predicate BusInv(rs: seq<seq<real>>, log: seq<Barrier.Slot>, data: seq<Frame>)
    requires |log| == |data|
  {
    forall p :: 0 <= p < |log| ==> SlotInv(rs, log[p], data[p])
  }

  /** One LED frame per phase, from the phase's owner, out as soon as the owner has entered the phase and
      its controller has sent it. */
  ghost predicate LedInv(n: nat, s: Sys)
    requires |s.nodes| == |s.bar.members| == n
  {
    && (forall q :: q in s.ledAt ==> 1 <= q < Rounds(n) && s.ledAt[q] < |s.data| && s.data[s.ledAt[q]] == LedFrame(Owner(q), q))
    && (forall p :: 0 <= p < |s.data| && s.data[p].LedFrame? ==> s.data[p].phase in s.ledAt && s.ledAt[s.data[p].phase] == p)
    && (forall q :: 1 <= q < Rounds(n) ==> (q in s.ledAt <==> LedSent(s, q)))
  }

  ghost predicate LedSent(s: Sys, q: nat)
    requires q >= 1 && |s.nodes| == |s.bar.members|
  {
    && Owner(q) < |s.nodes| && s.bar.members[Owner(q)].round >= q
    && !(s.bar.members[Owner(q)].round == q && s.nodes[Owner(q)].ledPending)
  }

  /** Frames node `j` still has to put on the bus. */
  ghost function ToSend(n: nat, m: Barrier.Member, nd: Node): int {
    (Rounds(n) - m.Latest()) + |m.outbox| + (2 - nd.leds) + (if nd.ledPending then 1 else 0)
  }

  ghost function Unsent(n: nat, members: seq<Barrier.Member>, nodes: seq<Node>, k: nat): int
    requires k <= |members| == |nodes|
  {
    if k == 0 then 0 else Unsent(n, members, nodes, k - 1) + ToSend(n, members[k - 1], nodes[k - 1])
  }

  /** All READY and LED frames of a run. */
  function AllFrames(n: nat): nat { n * (Rounds(n) + 2) }

  ghost predicate Inv(n: nat, s: Sys) {
    && Sized(n, s)
    && Barrier.Inv(s.bar, n, 1)
    && BusInv(Readys(s), s.bar.log, s.data)
    && LedInv(n, s)
    && |s.bar.log| + Unsent(n, s.bar.members, s.nodes, n) == AllFrames(n)
    && forall j :: 0 <= j < n ==> Holds(Readys(s), s.ledAt, Place(n, j), s.bar.members[j], s.nodes[j])
  }

  // The start.

  lemma StartInv(n: nat)
    requires 1 <= n <= MAX_NUM_NODES
    ensures Inv(n, Start(n))
  {
    hide Holds, Barrier.Inv;
    var s := Start(n);
    Barrier.StartInv(n, 1);
    StartUnsent(n, s.bar.members, s.nodes, n);
    forall j | 0 <= j < n ensures Holds(Readys(s), s.ledAt, Place(n, j), s.bar.members[j], s.nodes[j]) {
      StartHolds(Readys(s), Place(n, j));
    }
  }

  lemma {:induction false} StartUnsent(n: nat, members: seq<Barrier.Member>, nodes: seq<Node>, k: nat)
    requires k <= |members| == |nodes|
    requires forall i :: 0 <= i < |nodes| ==> members[i] == Barrier.Member(0, false, 0, {}, {}) && nodes[i] == Node(Booted(), false, [], [], 0, {})
    ensures Unsent(n, members, nodes, k) == k * (Rounds(n) + 2)
  {
    if k > 0 {
      StartUnsent(n, members, nodes, k - 1);
    }
  }

  lemma StartHolds(rs: seq<seq<real>>, p: Place)
    requires p.Valid() && |rs| == p.n && forall i :: 0 <= i < |rs| ==> rs[i] == []
    ensures Holds(rs, map[], p, Barrier.Member(0, false, 0, {}, {}), Node(Booted(), false, [], [], 0, {}))
  {
  }

  // Every move keeps the invariant. A move changes one node; the others see histories and LED frames
  // added where they have not looked yet.

  ghost predicate Grows(rs: seq<seq<real>>, rs': seq<seq<real>>) {
    |rs| == |rs'| && forall i :: 0 <= i < |rs| ==> rs[i] <= rs'[i]
  }

  ghost predicate LedsGrow(ledAt: map<nat, nat>, ledAt': map<nat, nat>, len: nat) {
    && (forall q :: q in ledAt ==> q in ledAt' && ledAt'[q] == ledAt[q])
    && (forall q :: q in ledAt' && q !in ledAt ==> ledAt'[q] >= len)
  }

  lemma TablesGrow(rs: seq<seq<real>>, rs': seq<seq<real>>, p: Place, m: Barrier.Member, nd: Node)
    requires p.Valid() && |rs| == p.n && Tables(rs, p, m, nd)
    requires Grows(rs, rs') && rs'[p.idx] == rs[p.idx]
    ensures Tables(rs', p, m, nd)
  {
    forall i | 0 <= i < p.n
      ensures forall k :: 0 <= k < p.n ==> GainEntry(rs', p, m, nd.early, i, k) == GainEntry(rs, p, m, nd.early, i, k)
      ensures ResidualEntry(rs', p, m, nd.early, i) == ResidualEntry(rs, p, m, nd.early, i)
    {
      assert rs[i] <= rs'[i];
    }
    forall t | t in m.got ensures t.round < |rs'[t.sender]| {
      assert rs[t.sender] <= rs'[t.sender];
    }
    forall i | 0 <= i < p.n && i != p.idx ensures m.round <= |rs'[i]| {
      assert rs[i] <= rs'[i];
    }
  }

  lemma FlagsGrow(ledAt: map<nat, nat>, ledAt': map<nat, nat>, len: nat, p: Place, m: Barrier.Member, nd: Node)
    requires Flags(ledAt, p, m, nd) && LedsGrow(ledAt, ledAt', len) && m.cursor <= len
    ensures Flags(ledAt', p, m, nd)
  {
    assert forall q :: LedHeard(ledAt', m, p.idx, q) <==> LedHeard(ledAt, m, p.idx, q);
  }

  lemma HoldsGrows(rs: seq<seq<real>>, rs': seq<seq<real>>, ledAt: map<nat, nat>, ledAt': map<nat, nat>, len: nat,
                   p: Place, m: Barrier.Member, nd: Node)
    requires p.Valid() && |rs| == p.n && Holds(rs, ledAt, p, m, nd)
    requires Grows(rs, rs') && rs'[p.idx] == rs[p.idx] && LedsGrow(ledAt, ledAt', len) && m.cursor <= len
    ensures Holds(rs', ledAt', p, m, nd)
  {
    hide Shape, History, Tables, Flags, Grows, LedsGrow;
    TablesGrow(rs, rs', p, m, nd);
    FlagsGrow(ledAt, ledAt', len, p, m, nd);
  }

  lemma BusGrows(rs: seq<seq<real>>, rs': seq<seq<real>>, log: seq<Barrier.Slot>, data: seq<Frame>)
    requires |log| == |data| && BusInv(rs, log, data) && Grows(rs, rs')
    ensures BusInv(rs', log, data)
  {
    forall p | 0 <= p < |log| ensures SlotInv(rs', log[p], data[p]) {
      assert SlotInv(rs, log[p], data[p]);
      if data[p].ReadyFrame? {
        assert rs[log[p].tag.sender] <= rs'[log[p].tag.sender];
      }
    }
  }

  lemma {:induction false} UnsentChanges(n: nat, members: seq<Barrier.Member>, nodes: seq<Node>, j: nat, m': Barrier.Member, nd': Node, k: nat)
    requires k <= |members| == |nodes| && j < |nodes|
    ensures Unsent(n, members[j := m'], nodes[j := nd'], k)
         == Unsent(n, members, nodes, k) + if j < k then ToSend(n, m', nd') - ToSend(n, members[j], nodes[j]) else 0
  {
    if k > 0 {
      UnsentChanges(n, members, nodes, j, m', nd', k - 1);
    }
  }

  lemma CursorBound(bar: Barrier.State, n: nat, i: nat)
    requires Barrier.Inv(bar, n, 1) && i < n
    ensures bar.members[i].cursor <= |bar.log|
  {
    assert Barrier.Consumed(bar, n, 1, i, bar.members[i]);
  }

  /** Only node `j` changed, from `s` to `s'`. */
  ghost predicate OnlyNode(s: Sys, s': Sys, j: nat) {
    && j < |s.nodes| == |s.bar.members|
    && |s'.nodes| == |s.nodes| && |s'.bar.members| == |s.nodes|
    && s'.nodes == s.nodes[j := s'.nodes[j]] && s'.bar.members == s.bar.members[j := s'.bar.members[j]]
  }

  lemma Assemble(n: nat, s: Sys, s': Sys, j: nat)
    requires Inv(n, s) && Sized(n, s') && OnlyNode(s, s', j)
    requires Barrier.Inv(s'.bar, n, 1) && BusInv(Readys(s'), s'.bar.log, s'.data) && LedInv(n, s')
    requires s.nodes[j].ready <= s'.nodes[j].ready && LedsGrow(s.ledAt, s'.ledAt, |s.bar.log|)
    requires |s'.bar.log| - |s.bar.log| == ToSend(n, s.bar.members[j], s.nodes[j]) - ToSend(n, s'.bar.members[j], s'.nodes[j])
    requires Holds(Readys(s'), s'.ledAt, Place(n, j), s'.bar.members[j], s'.nodes[j])
    ensures Inv(n, s')
  {
    hide Holds, Barrier.Inv, LedInv, BusInv, LedsGrow, ToSend, Unsent;
    UnsentChanges(n, s.bar.members, s.nodes, j, s'.bar.members[j], s'.nodes[j], n);
    forall i | 0 <= i < n ensures Holds(Readys(s'), s'.ledAt, Place(n, i), s'.bar.members[i], s'.nodes[i]) {
      if i != j {
        CursorBound(s.bar, n, i);
        HoldsGrows(Readys(s), Readys(s'), s.ledAt, s'.ledAt, |s.bar.log|, Place(n, i), s.bar.members[i], s.nodes[i]);
      }
    }
  }

  // A frame wins the bus.

  lemma ReadyBus(rs: seq<seq<real>>, log: seq<Barrier.Slot>, data: seq<Frame>, e: Barrier.Slot, f: Frame)
    requires |log| == |data| && BusInv(rs, log, data) && SlotInv(rs, e, f)
    ensures BusInv(rs, log + [e], data + [f])
  {
    forall p | 0 <= p < |log| + 1 ensures SlotInv(rs, (log + [e])[p], (data + [f])[p]) {
      if p < |log| {
        assert SlotInv(rs, log[p], data[p]);
      }
    }
  }

  lemma TransmitReadyHolds(rs: seq<seq<real>>, ledAt: map<nat, nat>, p: Place, m: Barrier.Member, nd: Node)
    requires p.Valid() && |rs| == p.n && Holds(rs, ledAt, p, m, nd) && rs[p.idx] == nd.ready && m.Latest() > 0
    ensures Holds(rs, ledAt, p, m.(outbox := m.outbox - {0}), nd)
    ensures SlotInv(rs, Barrier.Burst(Barrier.Tag(p.idx, m.Latest() - 1, 0)), ReadyFrame(nd.ready[|nd.ready| - 1]))
  {
    var m' := m.(outbox := m.outbox - {0});
    assert forall i, r :: Got(m', i, r) <==> Got(m, i, r);
    assert forall q :: LedHeard(ledAt, m', p.idx, q) <==> LedHeard(ledAt, m, p.idx, q);
    assert forall i, k :: 0 <= i < p.n && 0 <= k < p.n ==> GainEntry(rs, p, m', nd.early, i, k) == GainEntry(rs, p, m, nd.early, i, k);
  }

  lemma TransmitReadyLeds(n: nat, s: Sys, s': Sys, j: nat, f: Frame)
    requires |s.nodes| == n && OnlyNode(s, s', j) && LedInv(n, s) && f.ReadyFrame? && s'.data == s.data + [f] && s'.ledAt == s.ledAt
    requires s'.nodes[j].ledPending == s.nodes[j].ledPending && s'.bar.members[j].round == s.bar.members[j].round
    ensures LedInv(n, s')
  {
    assert forall q :: q >= 1 ==> (LedSent(s', q) <==> LedSent(s, q));
  }

  lemma TransmitReadyStep(n: nat, s: Sys, j: nat)
    requires Inv(n, s) && Enabled(n, s, TransmitReady(j))
    ensures Inv(n, Next(n, s, TransmitReady(j)))
  {
    hide Holds, Barrier.Inv, LedInv, BusInv, SlotInv;
    var m, nd := s.bar.members[j], s.nodes[j];
    var s' := Next(n, s, TransmitReady(j));
    assert Readys(s') == Readys(s);
    assert s'.nodes == s.nodes[j := s'.nodes[j]];
    TransmitReadyHolds(Readys(s), s.ledAt, Place(n, j), m, nd);
    var e, f := Barrier.Burst(Barrier.Tag(j, m.Latest() - 1, 0)), ReadyFrame(nd.ready[|nd.ready| - 1]);
    ReadyBus(Readys(s), s.bar.log, s.data, e, f);
    TransmitReadyLeds(n, s, s', j, f);
    Barrier.TransmitInv(s.bar, n, 1, j, 0);
    Assemble(n, s, s', j);
  }

  lemma LedNew(n: nat, s: Sys, j: nat)
    requires |s.nodes| == |s.bar.members| == n && Place(n, j).Valid() && LedInv(n, s)
    requires s.nodes[j].ledPending && Shape(Place(n, j), s.bar.members[j], s.nodes[j])
    ensures LedInv(n, AfterLed(s, j)) && LedsGrow(s.ledAt, AfterLed(s, j).ledAt, |s.data|)
  {
    hide Shape;
    var q, s' := s.bar.members[j].round, AfterLed(s, j);
    PendingPhase(Place(n, j), s.bar.members[j], s.nodes[j]);
    assert !LedSent(s, q);
    assert forall q' :: 1 <= q' < Rounds(n) && q' != q ==> (LedSent(s', q') <==> LedSent(s, q'));
  }

  lemma PendingPhase(p: Place, m: Barrier.Member, nd: Node)
    requires p.Valid() && Shape(p, m, nd)
    ensures nd.ledPending ==> 1 <= m.round < Rounds(p.n) && !m.queued && Owner(m.round) == p.idx
  {
  }

  lemma PendingHolds(rs: seq<seq<real>>, ledAt: map<nat, nat>, p: Place, m: Barrier.Member, nd: Node)
    requires p.Valid() && |rs| == p.n && Holds(rs, ledAt, p, m, nd)
    ensures Shape(p, m, nd) && Holds(rs, ledAt, p, m, nd.(ledPending := false))
  {
  }

  lemma TransmitLedStep(n: nat, s: Sys, j: nat)
    requires Inv(n, s) && Enabled(n, s, TransmitLed(j))
    ensures Inv(n, Next(n, s, TransmitLed(j)))
  {
    hide Holds, Barrier.Inv, LedInv, BusInv, SlotInv, Shape, LedsGrow;
    var m, nd := s.bar.members[j], s.nodes[j];
    var s' := AfterLed(s, j);
    assert Readys(s') == Readys(s);
    PendingHolds(Readys(s), s.ledAt, Place(n, j), m, nd);
    LedNew(n, s, j);
    CursorBound(s.bar, n, j);
    HoldsGrows(Readys(s), Readys(s), s.ledAt, s'.ledAt, |s.bar.log|, Place(n, j), m, nd.(ledPending := false));
    LedSlot(Readys(s), j, m.round);
    ReadyBus(Readys(s), s.bar.log, s.data, Barrier.Other, LedFrame(j, m.round));
    Barrier.PutInv(s.bar, n, 1);
    assert s'.bar.members == s.bar.members[j := s'.bar.members[j]];
    Assemble(n, s, s', j);
  }

  lemma LedSlot(rs: seq<seq<real>>, j: nat, q: nat)
    ensures SlotInv(rs, Barrier.Other, LedFrame(j, q))
  {
  }

  // A node consumes a frame.

  /** A phase's LED frame is out only when everybody has sent the READY frame before it. */
  lemma LedCausal(n: nat, s: Sys, q: nat, i: nat)
    requires |s.nodes| == |s.bar.members| == n && Barrier.Inv(s.bar, n, 1) && LedInv(n, s) && q in s.ledAt && i < n
    ensures s.bar.members[i].Latest() >= q
  {
    hide Barrier.Inv;
    assert 1 <= q < Rounds(n) && LedSent(s, q);
    Barrier.Lockstep(s.bar, n, 1, i, Owner(q));
  }

  /** Consuming the frame at `cursor` adds the LED frame there, if any, to what was heard. */
  lemma HeardStep(n: nat, s: Sys, m: Barrier.Member, m': Barrier.Member, idx: nat, q: nat)
    requires |s.nodes| == |s.bar.members| == n && LedInv(n, s) && m.cursor < |s.data| && m'.cursor == m.cursor + 1
    ensures LedHeard(s.ledAt, m', idx, q)
            <==> LedHeard(s.ledAt, m, idx, q)
                 || (s.data[m.cursor].LedFrame? && s.data[m.cursor].phase == q && s.data[m.cursor].sender != idx)
    ensures s.data[m.cursor].LedFrame? && s.data[m.cursor].phase == q ==> !LedHeard(s.ledAt, m, idx, q) && q in s.ledAt
  {
    if q in s.ledAt {
      assert s.data[s.ledAt[q]] == LedFrame(Owner(q), q);
    }
    if s.data[m.cursor].LedFrame? {
      assert s.ledAt[s.data[m.cursor].phase] == m.cursor;
    }
  }

  /** Frames that are not LED frames of others leave the flags right. */
  lemma FlagsSkip(n: nat, s: Sys, p: Place, m: Barrier.Member, nd: Node, m': Barrier.Member, nd': Node)
    requires |s.nodes| == |s.bar.members| == n && LedInv(n, s) && m.cursor < |s.data| && m'.cursor == m.cursor + 1
    requires s.data[m.cursor].LedFrame? ==> s.data[m.cursor].sender == p.idx
    requires Flags(s.ledAt, p, m, nd) && m'.round == m.round && nd'.local.state == nd.local.state
    requires nd'.local.otherLedOn == nd.local.otherLedOn
    ensures Flags(s.ledAt, p, m', nd')
  {
    hide LedInv, LedHeard;
    forall q: nat ensures LedHeard(s.ledAt, m', p.idx, q) <==> LedHeard(s.ledAt, m, p.idx, q) {
      HeardStep(n, s, m, m', p.idx, q);
    }
  }

  /** An LED frame of another node is the next one this node waits for. */
  lemma FlagsLed(n: nat, s: Sys, p: Place, m: Barrier.Member, nd: Node, m': Barrier.Member, nd': Node)
    requires |s.nodes| == |s.bar.members| == n == p.n && LedInv(n, s) && m.cursor < |s.data| && m'.cursor == m.cursor + 1
    requires s.data[m.cursor].LedFrame? && s.data[m.cursor].sender != p.idx && m.Latest() >= s.data[m.cursor].phase
    requires Flags(s.ledAt, p, m, nd) && m'.round == m.round && nd'.local.state == nd.local.state
    requires nd.local.state == WaitLedOn ==> !m.queued
    requires nd'.local.otherLedOn
    ensures Flags(s.ledAt, p, m', nd')
    ensures s.data[m.cursor].phase == NextPhase(m, nd.local.state)
  {
    hide LedHeard, LedInv;
    forall q: nat
      ensures LedHeard(s.ledAt, m', p.idx, q) <==> LedHeard(s.ledAt, m, p.idx, q) || q == s.data[m.cursor].phase
      ensures q == s.data[m.cursor].phase ==> !LedHeard(s.ledAt, m, p.idx, q) && q in s.ledAt
    {
      HeardStep(n, s, m, m', p.idx, q);
    }
    LedPhase(n, s, m.cursor);
  }

  lemma LedPhase(n: nat, s: Sys, c: nat)
    requires |s.nodes| == |s.bar.members| == n && LedInv(n, s) && c < |s.data| && s.data[c].LedFrame?
    ensures 1 <= s.data[c].phase < Rounds(n) && Owner(s.data[c].phase) == s.data[c].sender && s.data[c].phase in s.ledAt
  {
    assert s.ledAt[s.data[c].phase] == c;
  }

  /** A READY frame of the node's own round, from another node, filed under the receiver's own phase. */
  lemma ReadyTables(rs: seq<seq<real>>, p: Place, m: Barrier.Member, nd: Node, t: Barrier.Tag, value: real)
    requires p.Valid() && |rs| == p.n && Shape(p, m, nd) && Tables(rs, p, m, nd) && nd.local.InBounds()
    requires SlotInv(rs, Barrier.Burst(t), ReadyFrame(value)) && t.round == m.round && t !in m.got && t.sender != p.idx
    requires m.round < Rounds(p.n)
    ensures Tables(rs, p, Barrier.Consume(m, Barrier.Burst(t), p.idx), AfterFrame(nd, Barrier.Burst(t), ReadyFrame(value)))
  {
    var m' := Barrier.Consume(m, Barrier.Burst(t), p.idx);
    var nd' := AfterFrame(nd, Barrier.Burst(t), ReadyFrame(value));
    forall i, k | 0 <= i < p.n && 0 <= k < p.n ensures nd'.local.gains[i][k] == GainEntry(rs, p, m', nd'.early, i, k) {
      ReadyGain(rs, p, m, nd, t, value, i, k);
    }
    forall i | 0 <= i < p.n ensures nd'.local.residuals[i] == ResidualEntry(rs, p, m', nd'.early, i) {
      ReadyResidual(rs, p, m, nd, t, value, i);
    }
  }

  lemma ReadyGain(rs: seq<seq<real>>, p: Place, m: Barrier.Member, nd: Node, t: Barrier.Tag, value: real, i: nat, k: nat)
    requires p.Valid() && |rs| == p.n && Shape(p, m, nd) && Tables(rs, p, m, nd) && nd.local.InBounds()
    requires SlotInv(rs, Barrier.Burst(t), ReadyFrame(value)) && t.round == m.round && t !in m.got && t.sender != p.idx
    requires m.round < Rounds(p.n) && i < p.n && k < p.n
    ensures AfterFrame(nd, Barrier.Burst(t), ReadyFrame(value)).local.gains[i][k]
         == GainEntry(rs, p, Barrier.Consume(m, Barrier.Burst(t), p.idx), AfterFrame(nd, Barrier.Burst(t), ReadyFrame(value)).early, i, k)
  {
    hide Shape, Tables, GainEntry, AfterFrame;
    if m.round > 0 {
      PhaseOf(p, m, nd);
    }
    if i != t.sender {
      OtherRowGain(rs, p, m, nd, t, value, i, k);
    } else if m.round == 0 {
      FirstReadyGain(rs, p, m, nd, t, value, k);
    } else {
      LaterReadyGain(rs, p, m, nd, t, value, k);
    }
  }

  lemma PhaseOf(p: Place, m: Barrier.Member, nd: Node)
    requires p.Valid() && Shape(p, m, nd) && 0 < m.round < Rounds(p.n)
    ensures nd.local.nodeLedOn == Owner(m.round) && nd.local.state != CalibInit
  {
  }

  lemma OtherRowGain(rs: seq<seq<real>>, p: Place, m: Barrier.Member, nd: Node, t: Barrier.Tag, value: real, i: nat, k: nat)
    requires p.Valid() && |rs| == p.n && Tables(rs, p, m, nd) && nd.local.InBounds()
    requires t.sender < p.n && i < p.n && k < p.n && i != t.sender
    ensures AfterFrame(nd, Barrier.Burst(t), ReadyFrame(value)).local.gains[i][k]
         == GainEntry(rs, p, Barrier.Consume(m, Barrier.Burst(t), p.idx), AfterFrame(nd, Barrier.Burst(t), ReadyFrame(value)).early, i, k)
  {
    assert nd.local.gains[i][k] == GainEntry(rs, p, m, nd.early, i, k);
  }

  /** A residual files nothing in the matrix, except in column 0 when it comes too early. */
  lemma FirstReadyGain(rs: seq<seq<real>>, p: Place, m: Barrier.Member, nd: Node, t: Barrier.Tag, value: real, k: nat)
    requires p.Valid() && |rs| == p.n && Shape(p, m, nd) && Tables(rs, p, m, nd) && nd.local.InBounds()
    requires SlotInv(rs, Barrier.Burst(t), ReadyFrame(value)) && t.round == m.round == 0 && t !in m.got && t.sender != p.idx
    requires k < p.n
    ensures AfterFrame(nd, Barrier.Burst(t), ReadyFrame(value)).local.gains[t.sender][k]
         == GainEntry(rs, p, Barrier.Consume(m, Barrier.Burst(t), p.idx), AfterFrame(nd, Barrier.Burst(t), ReadyFrame(value)).early, t.sender, k)
  {
    assert nd.local.gains[t.sender][k] == GainEntry(rs, p, m, nd.early, t.sender, k);
    assert !Got(m, t.sender, 0) && t.sender !in nd.early;
  }

  /** After that -1 files nothing and a gain its own phase's column. */
  lemma LaterReadyGain(rs: seq<seq<real>>, p: Place, m: Barrier.Member, nd: Node, t: Barrier.Tag, value: real, k: nat)
    requires p.Valid() && |rs| == p.n && Tables(rs, p, m, nd) && nd.local.InBounds()
    requires SlotInv(rs, Barrier.Burst(t), ReadyFrame(value)) && t.round == m.round && t !in m.got && t.sender != p.idx
    requires 0 < m.round < Rounds(p.n) && k < p.n && nd.local.nodeLedOn == Owner(m.round) && nd.local.state != CalibInit
    ensures AfterFrame(nd, Barrier.Burst(t), ReadyFrame(value)).local.gains[t.sender][k]
         == GainEntry(rs, p, Barrier.Consume(m, Barrier.Burst(t), p.idx), AfterFrame(nd, Barrier.Burst(t), ReadyFrame(value)).early, t.sender, k)
  {
    assert nd.local.gains[t.sender][k] == GainEntry(rs, p, m, nd.early, t.sender, k);
    assert 2 * k + 2 == m.round ==> k == Owner(m.round);
    assert m.round % 2 == 0 ==> m.round == 2 * Owner(m.round) + 2;
    assert !Got(m, t.sender, m.round);
  }

  lemma ReadyResidual(rs: seq<seq<real>>, p: Place, m: Barrier.Member, nd: Node, t: Barrier.Tag, value: real, i: nat)
    requires p.Valid() && |rs| == p.n && Shape(p, m, nd) && Tables(rs, p, m, nd) && nd.local.InBounds()
    requires SlotInv(rs, Barrier.Burst(t), ReadyFrame(value)) && t.round == m.round && t !in m.got && t.sender != p.idx
    requires m.round < Rounds(p.n) && i < p.n
    ensures AfterFrame(nd, Barrier.Burst(t), ReadyFrame(value)).local.residuals[i]
         == ResidualEntry(rs, p, Barrier.Consume(m, Barrier.Burst(t), p.idx), AfterFrame(nd, Barrier.Burst(t), ReadyFrame(value)).early, i)
  {
    assert nd.local.residuals[i] == ResidualEntry(rs, p, m, nd.early, i);
  }

  lemma ReadyShape(p: Place, m: Barrier.Member, nd: Node, t: Barrier.Tag, value: real)
    requires p.Valid() && Shape(p, m, nd) && nd.local.InBounds() && t !in m.got && t.sender != p.idx && t.sender < p.n
    ensures Shape(p, Barrier.Consume(m, Barrier.Burst(t), p.idx), AfterFrame(nd, Barrier.Burst(t), ReadyFrame(value)))
  {
  }

  lemma ReadyHistory(p: Place, m: Barrier.Member, nd: Node, t: Barrier.Tag, value: real)
    requires p.Valid() && nd.local.Sized() && History(p, m, nd) && nd.local.InBounds() && t.sender < p.n
    ensures History(p, Barrier.Consume(m, Barrier.Burst(t), p.idx), AfterFrame(nd, Barrier.Burst(t), ReadyFrame(value)))
  {
    assert AfterFrame(nd, Barrier.Burst(t), ReadyFrame(value)).local.luxReads == nd.local.luxReads;
  }

  /** Skipping a frame, or only raising the flag, leaves the rest as it was. */
  lemma OtherFrame(rs: seq<seq<real>>, p: Place, m: Barrier.Member, nd: Node, cursor: nat, flag: bool)
    requires p.Valid() && |rs| == p.n && Shape(p, m, nd) && History(p, m, nd) && Tables(rs, p, m, nd)
    ensures var m', nd' := m.(cursor := cursor), nd.(local := nd.local.(otherLedOn := flag));
            Shape(p, m', nd') && History(p, m', nd') && Tables(rs, p, m', nd')
  {
    var m', nd' := m.(cursor := cursor), nd.(local := nd.local.(otherLedOn := flag));
    assert forall i, k :: 0 <= i < p.n && 0 <= k < p.n ==> GainEntry(rs, p, m', nd'.early, i, k) == GainEntry(rs, p, m, nd.early, i, k);
  }

  /** By its count, a node that may consume a READY frame waits in the barrier's sense. */
  lemma StillWaits(bar: Barrier.State, p: Place, nd: Node)
    requires p.Valid() && |bar.members| == p.n && Barrier.Inv(bar, p.n, 1) && Shape(p, bar.members[p.idx], nd)
    ensures Barrier.Waits(bar, p.n, 1, p.idx) <==> !(bar.members[p.idx].queued && nd.local.numReady == p.n)
    ensures nd.local.numReady <= p.n
  {
    hide Barrier.Inv, Barrier.Waits, Shape;
    CountOf(p, bar.members[p.idx], nd);
    Barrier.CountIsEnough(bar, p.n, 1, p.idx);
    Barrier.Undercounted(bar, p.n, 1, p.idx);
  }

  lemma CountOf(p: Place, m: Barrier.Member, nd: Node)
    requires p.Valid() && Shape(p, m, nd)
    ensures nd.local.numReady == |m.got| + (if m.queued then 1 else 0)
  {
  }

  lemma DeliverLedHolds(n: nat, s: Sys, j: nat)
    requires Inv(n, s) && j < n && s.bar.members[j].cursor < |s.bar.log| && s.data[s.bar.members[j].cursor].LedFrame?
    ensures var m := s.bar.members[j];
            var f := s.data[m.cursor];
            var nd' := if f.sender == j then s.nodes[j] else AfterFrame(s.nodes[j], s.bar.log[m.cursor], f);
            && Holds(Readys(s), s.ledAt, Place(n, j), m.(cursor := m.cursor + 1), nd')
            && s.bar.log[m.cursor] == Barrier.Other
  {
    hide Barrier.Inv, LedInv, LedHeard, Tables, History, Flags;
    var p, m, nd := Place(n, j), s.bar.members[j], s.nodes[j];
    var f := s.data[m.cursor];
    assert SlotInv(Readys(s), s.bar.log[m.cursor], f);
    assert Holds(Readys(s), s.ledAt, p, m, nd);
    LedPhase(n, s, m.cursor);
    LedCausal(n, s, f.phase, j);
    OtherFrame(Readys(s), p, m, nd, m.cursor + 1, if f.sender == j then nd.local.otherLedOn else true);
    var nd' := nd.(local := nd.local.(otherLedOn := if f.sender == j then nd.local.otherLedOn else true));
    if f.sender == j {
      FlagsSkip(n, s, p, m, nd, m.(cursor := m.cursor + 1), nd');
    } else {
      FlagsLed(n, s, p, m, nd, m.(cursor := m.cursor + 1), nd');
    }
  }

  lemma DeliverReadyHolds(n: nat, s: Sys, j: nat)
    requires Inv(n, s) && Enabled(n, s, Deliver(j)) && s.data[s.bar.members[j].cursor].ReadyFrame? && !OwnFrame(s, j)
    ensures var m := s.bar.members[j];
            && Holds(Readys(s), s.ledAt, Place(n, j), Barrier.Consume(m, s.bar.log[m.cursor], j),
                     AfterFrame(s.nodes[j], s.bar.log[m.cursor], s.data[m.cursor]))
            && Barrier.Waits(s.bar, n, 1, j)
  {
    hide Barrier.Inv, LedInv, LedHeard, Tables, History, Flags, AfterFrame, Barrier.Waits;
    var p, m, nd := Place(n, j), s.bar.members[j], s.nodes[j];
    var e, f := s.bar.log[m.cursor], s.data[m.cursor];
    assert SlotInv(Readys(s), e, f);
    assert Holds(Readys(s), s.ledAt, p, m, nd);
    StillWaits(s.bar, p, nd);
    Barrier.NextIsDue(s.bar, n, 1, j, e.tag);
    ReadysBounded(n, s, e.tag.sender);
    ReadyTables(Readys(s), p, m, nd, e.tag, f.value);
    ReadyShape(p, m, nd, e.tag, f.value);
    ReadyHistory(p, m, nd, e.tag, f.value);
    FrameKeeps(nd, e, f);
    FlagsSkip(n, s, p, m, nd, Barrier.Consume(m, e, j), AfterFrame(nd, e, f));
  }

  lemma FrameKeeps(nd: Node, e: Barrier.Slot, f: Frame)
    requires nd.local.Sized() && f.ReadyFrame? && e.Burst? && e.tag.sender < MAX_NUM_NODES && nd.local.InBounds()
    ensures var nd' := AfterFrame(nd, e, f);
            && nd'.local.state == nd.local.state && nd'.local.otherLedOn == nd.local.otherLedOn
            && nd' == nd.(local := nd'.local, early := nd'.early) && nd'.local.Sized()
  {
  }

  lemma ReadysBounded(n: nat, s: Sys, i: nat)
    requires Inv(n, s) && i < n
    ensures |s.nodes[i].ready| <= Rounds(n)
  {
    hide Barrier.Inv, LedInv, Tables, Flags;
    assert Holds(Readys(s), s.ledAt, Place(n, i), s.bar.members[i], s.nodes[i]);
  }

  lemma DeliverLeds(n: nat, s: Sys, s': Sys, j: nat)
    requires |s.nodes| == n && OnlyNode(s, s', j) && LedInv(n, s) && s'.data == s.data && s'.ledAt == s.ledAt
    requires s'.nodes[j].ledPending == s.nodes[j].ledPending && s'.bar.members[j].round == s.bar.members[j].round
    ensures LedInv(n, s')
  {
    assert forall q :: q >= 1 ==> (LedSent(s', q) <==> LedSent(s, q));
  }

  lemma OwnReadyHolds(n: nat, s: Sys, j: nat)
    requires Inv(n, s) && j < n && s.bar.members[j].cursor < |s.bar.log| && s.data[s.bar.members[j].cursor].ReadyFrame?
    ensures var m := s.bar.members[j]; Holds(Readys(s), s.ledAt, Place(n, j), m.(cursor := m.cursor + 1), s.nodes[j])
    ensures s.bar.log[s.bar.members[j].cursor].Burst?
  {
    hide Barrier.Inv, LedInv, LedHeard, Tables, History, Flags;
    var p, m, nd := Place(n, j), s.bar.members[j], s.nodes[j];
    assert SlotInv(Readys(s), s.bar.log[m.cursor], s.data[m.cursor]);
    assert Holds(Readys(s), s.ledAt, p, m, nd);
    OtherFrame(Readys(s), p, m, nd, m.cursor + 1, nd.local.otherLedOn);
    FlagsSkip(n, s, p, m, nd, m.(cursor := m.cursor + 1), nd);
  }

  lemma DeliverStep(n: nat, s: Sys, j: nat)
    requires Inv(n, s) && Enabled(n, s, Deliver(j))
    ensures Inv(n, Next(n, s, Deliver(j)))
  {
    hide Holds, Barrier.Inv, LedInv, BusInv, SlotInv, Barrier.Waits, AfterFrame;
    var m, nd := s.bar.members[j], s.nodes[j];
    var s' := Next(n, s, Deliver(j));
    var e, f := s.bar.log[m.cursor], s.data[m.cursor];
    if f.LedFrame? {
      DeliverLedHolds(n, s, j);
      LedKeeps(nd, e, f);
    } else if OwnFrame(s, j) {
      OwnReadyHolds(n, s, j);
    } else {
      DeliverReadyHolds(n, s, j);
      FrameKeeps(nd, e, f);
    }
    assert Readys(s') == Readys(s);
    Barrier.DeliverInv(s.bar, n, 1, j);
    DeliverLeds(n, s, s', j);
    Assemble(n, s, s', j);
  }

  lemma LedKeeps(nd: Node, e: Barrier.Slot, f: Frame)
    requires nd.local.Sized() && f.LedFrame?
    ensures AfterFrame(nd, e, f) == nd.(local := nd.local.(otherLedOn := true))
  {
  }

  // A pass of the state machine, state by state.

  /** What a pass in each state does to the node. */
  lemma PassCases(p: Place, nd: Node, lux: real)
    requires p.Valid() && nd.local.Sized() && nd.local.InBounds() && Acts(p, nd.local)
    ensures var l, nd' := nd.local, AfterPass(p, nd, lux);
            && (l.state == CalibInit ==> nd' == nd.(local := Initialised(p, l, lux), ready := nd.ready + [lux]))
            && (l.state == WaitReady ==> nd' == AfterAdvance(p, nd))
            && (l.state == WaitLedOn ==> nd' == nd.(local := LitUp(l)))
            && (l.state == WaitTransient ==>
                  nd' == nd.(local := Measured(p, l, lux), ready := nd.ready + [Outcome(l, lux)], lux := nd.lux + [lux]))
  {
  }

  ghost function AfterAdvance(p: Place, nd: Node): Node {
    var lit := NextLed(nd.local) == p.idx;
    nd.(local := Advanced(p, nd.local), ledPending := nd.ledPending || lit, leds := if lit then nd.leds + 1 else nd.leds)
  }

  // runStateInit.

  lemma InitTables(rs: seq<seq<real>>, rs': seq<seq<real>>, p: Place, m: Barrier.Member, nd: Node, lux: real)
    requires p.Valid() && |rs| == p.n && Shape(p, m, nd) && Tables(rs, p, m, nd) && nd.local.state == CalibInit
    requires rs[p.idx] == [] && rs' == rs[p.idx := [lux]]
    ensures Tables(rs', p, m.(queued := true, outbox := {0}), nd.(local := Initialised(p, nd.local, lux), ready := nd.ready + [lux]))
  {
    var m' := m.(queued := true, outbox := {0});
    assert forall i, r :: Got(m', i, r) <==> Got(m, i, r);
    assert forall i, k :: 0 <= i < p.n && 0 <= k < p.n ==> GainEntry(rs', p, m', nd.early, i, k) == GainEntry(rs, p, m, nd.early, i, k);
    assert forall i :: 0 <= i < p.n && i != p.idx ==> ResidualEntry(rs', p, m', nd.early, i) == ResidualEntry(rs, p, m, nd.early, i);
  }

  lemma InitHolds(rs: seq<seq<real>>, rs': seq<seq<real>>, ledAt: map<nat, nat>, p: Place, m: Barrier.Member, nd: Node, lux: real)
    requires p.Valid() && |rs| == p.n && Holds(rs, ledAt, p, m, nd) && nd.local.state == CalibInit
    requires rs[p.idx] == nd.ready && rs' == rs[p.idx := nd.ready + [lux]]
    ensures Holds(rs', ledAt, p, m.(queued := true, outbox := {0}), nd.(local := Initialised(p, nd.local, lux), ready := nd.ready + [lux]))
    ensures !m.queued
  {
    assert nd.ready == [] && nd.ready + [lux] == [lux];
    InitTables(rs, rs', p, m, nd, lux);
    hide Tables;
    assert forall q :: LedHeard(ledAt, m.(queued := true, outbox := {0}), p.idx, q) <==> LedHeard(ledAt, m, p.idx, q);
  }

  // runStateWaitTransient.

  lemma MeasureShape(p: Place, m: Barrier.Member, nd: Node, lux: real)
    requires p.Valid() && Shape(p, m, nd) && nd.local.state == WaitTransient && nd.local.InBounds() && !nd.ledPending
    ensures Shape(p, m.(queued := true, outbox := {0}),
                  nd.(local := Measured(p, nd.local, lux), ready := nd.ready + [Outcome(nd.local, lux)], lux := nd.lux + [lux]))
  {
  }

  lemma MeasureHistory(p: Place, m: Barrier.Member, nd: Node, lux: real)
    requires p.Valid() && Shape(p, m, nd) && History(p, m, nd) && nd.local.state == WaitTransient && nd.local.InBounds()
    ensures History(p, m.(queued := true, outbox := {0}),
                    nd.(local := Measured(p, nd.local, lux), ready := nd.ready + [Outcome(nd.local, lux)], lux := nd.lux + [lux]))
  {
    hide Gain;
    var nd' := nd.(local := Measured(p, nd.local, lux), ready := nd.ready + [Outcome(nd.local, lux)], lux := nd.lux + [lux]);
    var q := m.round;
    assert |nd.ready| == q && |nd.lux| == q - 1;
    if Reading(q) == 1 {
      var k := Owner(q);
      assert q == 2 * k + 2 && nd'.ready[q] == Gain(nd.local.luxReads[0], lux);
    }
  }

  lemma MeasureTables(rs: seq<seq<real>>, rs': seq<seq<real>>, p: Place, m: Barrier.Member, nd: Node, lux: real)
    requires p.Valid() && |rs| == p.n && Shape(p, m, nd) && Tables(rs, p, m, nd) && nd.local.state == WaitTransient && nd.local.InBounds()
    requires |nd.ready| == m.round && rs[p.idx] == nd.ready && rs' == rs[p.idx := nd.ready + [Outcome(nd.local, lux)]]
    ensures Tables(rs', p, m.(queued := true, outbox := {0}),
                   nd.(local := Measured(p, nd.local, lux), ready := nd.ready + [Outcome(nd.local, lux)], lux := nd.lux + [lux]))
  {
    hide Gain;
    var m' := m.(queued := true, outbox := {0});
    var q, v := m.round, Measured(p, nd.local, lux);
    assert forall i, r :: Got(m', i, r) <==> Got(m, i, r);
    forall i, k | 0 <= i < p.n && 0 <= k < p.n ensures v.gains[i][k] == GainEntry(rs', p, m', nd.early, i, k) {
      assert nd.local.gains[i][k] == GainEntry(rs, p, m, nd.early, i, k);
      assert 2 * k + 2 == q ==> k == Owner(q) && Reading(q) == 1;
      assert Reading(q) == 1 ==> q == 2 * Owner(q) + 2;
    }
    forall i | 0 <= i < p.n ensures v.residuals[i] == ResidualEntry(rs', p, m', nd.early, i) {
      assert nd.local.residuals[i] == ResidualEntry(rs, p, m, nd.early, i);
    }
  }

  lemma MeasureFlags(ledAt: map<nat, nat>, p: Place, m: Barrier.Member, nd: Node, m': Barrier.Member, nd': Node)
    requires Flags(ledAt, p, m, nd) && m'.cursor == m.cursor && nd'.local.otherLedOn == nd.local.otherLedOn
    requires NextPhase(m', nd'.local.state) == NextPhase(m, nd.local.state)
    ensures Flags(ledAt, p, m', nd')
  {
    assert forall q :: LedHeard(ledAt, m', p.idx, q) <==> LedHeard(ledAt, m, p.idx, q);
  }

  // runStateWaitLedOn.

  lemma LitHolds(rs: seq<seq<real>>, ledAt: map<nat, nat>, p: Place, m: Barrier.Member, nd: Node)
    requires p.Valid() && |rs| == p.n && Holds(rs, ledAt, p, m, nd) && nd.local.state == WaitLedOn && nd.local.otherLedOn
    ensures Holds(rs, ledAt, p, m, nd.(local := LitUp(nd.local)))
  {
    hide Tables, History;
    LitTables(rs, p, m, nd);
  }

  lemma LitTables(rs: seq<seq<real>>, p: Place, m: Barrier.Member, nd: Node)
    requires p.Valid() && |rs| == p.n && Tables(rs, p, m, nd) && History(p, m, nd)
    ensures Tables(rs, p, m, nd.(local := LitUp(nd.local))) && History(p, m, nd.(local := LitUp(nd.local)))
  {
  }

  // runStateWaitReady.

  ghost function PassMember(m: Barrier.Member): Barrier.Member {
    m.(round := m.round + 1, queued := false, got := {})
  }

  lemma AdvanceShape(p: Place, m: Barrier.Member, nd: Node)
    requires p.Valid() && Shape(p, m, nd) && m.queued && AllReady(p, nd.local) && !nd.ledPending
    ensures Shape(p, PassMember(m), AfterAdvance(p, nd))
    ensures NextLed(nd.local) == Owner(m.round + 1)
  {
    NextOwner(m.round);
  }

  /** The counters step from one phase to the next. */
  lemma NextOwner(q: nat)
    ensures q >= 1 && Reading(q) == 0 ==> Owner(q + 1) == Owner(q) && Reading(q + 1) == 1
    ensures q >= 1 && Reading(q) == 1 ==> Owner(q + 1) == Owner(q) + 1 && Reading(q + 1) == 0
    ensures q == 0 ==> Owner(q + 1) == 0 && Reading(q + 1) == 0
  {
  }

  lemma AdvanceHistory(p: Place, m: Barrier.Member, nd: Node)
    requires p.Valid() && History(p, m, nd) && m.queued && NextLed(nd.local) == Owner(m.round + 1) && AllReady(p, nd.local)
    ensures History(p, PassMember(m), AfterAdvance(p, nd))
  {
    hide Gain;
    assert Owner(m.round + 1) == p.idx <==> m.round + 1 == 2 * p.idx + 1 || m.round + 1 == 2 * p.idx + 2;
  }

  lemma AdvanceTables(rs: seq<seq<real>>, p: Place, m: Barrier.Member, nd: Node)
    requires p.Valid() && |rs| == p.n && Tables(rs, p, m, nd) && AllReady(p, nd.local) && m.queued
    requires m.got == Barrier.Due(p.n, 1, p.idx, m.round)
    ensures Tables(rs, p, PassMember(m), AfterAdvance(p, nd))
  {
    var m', nd' := PassMember(m), AfterAdvance(p, nd);
    forall i, r | 0 <= i < p.n && i != p.idx ensures Got(m', i, r) <==> Got(m, i, r) {
      assert Barrier.Tag(i, m.round, 0) in m.got;
    }
    forall i, k | 0 <= i < p.n && 0 <= k < p.n ensures nd'.local.gains[i][k] == GainEntry(rs, p, m', nd'.early, i, k) {
      assert nd.local.gains[i][k] == GainEntry(rs, p, m, nd.early, i, k);
    }
    forall i | 0 <= i < p.n && i != p.idx ensures m'.round <= |rs[i]| {
      assert Barrier.Tag(i, m.round, 0) in m.got;
    }
  }

  lemma AdvanceFlags(ledAt: map<nat, nat>, p: Place, m: Barrier.Member, nd: Node)
    requires p.Valid() && Flags(ledAt, p, m, nd) && Shape(p, m, nd) && m.queued && AllReady(p, nd.local)
    requires NextLed(nd.local) == Owner(m.round + 1) && Rounds(p.n) !in ledAt && Rounds(p.n) + 1 !in ledAt
    ensures Flags(ledAt, p, PassMember(m), AfterAdvance(p, nd))
  {
    var m', nd' := PassMember(m), AfterAdvance(p, nd);
    assert forall q :: LedHeard(ledAt, m', p.idx, q) <==> LedHeard(ledAt, m, p.idx, q);
    assert NextPhase(m, nd.local.state) == m.round + 1;
    assert Owner(Rounds(p.n)) == p.n;
  }

  lemma MeasureHolds(rs: seq<seq<real>>, rs': seq<seq<real>>, ledAt: map<nat, nat>, p: Place, m: Barrier.Member, nd: Node, lux: real)
    requires p.Valid() && |rs| == p.n && Holds(rs, ledAt, p, m, nd) && nd.local.state == WaitTransient && nd.local.InBounds()
    requires !nd.ledPending && rs[p.idx] == nd.ready && rs' == rs[p.idx := nd.ready + [Outcome(nd.local, lux)]]
    ensures Holds(rs', ledAt, p, m.(queued := true, outbox := {0}),
                  nd.(local := Measured(p, nd.local, lux), ready := nd.ready + [Outcome(nd.local, lux)], lux := nd.lux + [lux]))
    ensures !m.queued && Measured(p, nd.local, lux).Sized()
  {
    hide Tables, Flags, Outcome;
    var m', nd' := m.(queued := true, outbox := {0}),
                   nd.(local := Measured(p, nd.local, lux), ready := nd.ready + [Outcome(nd.local, lux)], lux := nd.lux + [lux]);
    MeasureShape(p, m, nd, lux);
    MeasureHistory(p, m, nd, lux);
    MeasureTables(rs, rs', p, m, nd, lux);
    MeasureFlags(ledAt, p, m, nd, m', nd');
  }

  lemma AdvanceHolds(rs: seq<seq<real>>, ledAt: map<nat, nat>, p: Place, m: Barrier.Member, nd: Node)
    requires p.Valid() && |rs| == p.n && Holds(rs, ledAt, p, m, nd) && m.queued && AllReady(p, nd.local) && !nd.ledPending
    requires m.got == Barrier.Due(p.n, 1, p.idx, m.round) && Rounds(p.n) !in ledAt && Rounds(p.n) + 1 !in ledAt
    ensures Holds(rs, ledAt, p, PassMember(m), AfterAdvance(p, nd))
    ensures NextLed(nd.local) == Owner(m.round + 1) && m.round < Rounds(p.n) && nd.leds == Announced(p.idx, m.round)
  {
    hide Tables, Flags, PassMember, AfterAdvance;
    AdvanceShape(p, m, nd);
    AdvanceHistory(p, m, nd);
    AdvanceTables(rs, p, m, nd);
    AdvanceFlags(ledAt, p, m, nd);
  }

  /** Queueing a READY frame: what the two states that do it have in common. */
  lemma QueueStep(n: nat, s: Sys, s': Sys, j: nat, value: real)
    requires Inv(n, s) && Sized(n, s') && OnlyNode(s, s', j) && !s.bar.members[j].queued && s.bar.members[j].outbox == {}
    requires s'.bar == Barrier.Queue(s.bar, 1, j) && s'.data == s.data && s'.ledAt == s.ledAt
    requires s'.nodes[j].ready == s.nodes[j].ready + [value] && s'.nodes[j].leds == s.nodes[j].leds
    requires s'.nodes[j].ledPending == s.nodes[j].ledPending
    requires Holds(Readys(s)[j := s'.nodes[j].ready], s.ledAt, Place(n, j), s'.bar.members[j], s'.nodes[j])
    ensures Inv(n, s')
  {
    hide Holds, Barrier.Inv, LedInv, BusInv;
    assert Readys(s') == Readys(s)[j := s'.nodes[j].ready];
    Barrier.QueueInv(s.bar, n, 1, j);
    BusGrows(Readys(s), Readys(s'), s.bar.log, s.data);
    DeliverLeds(n, s, s', j);
    OneChunk();
    Assemble(n, s, s', j);
  }

  lemma OneChunk()
    ensures Barrier.Chunks(1) == {0} && |{0}| == 1
  {
  }

  lemma InitStep(n: nat, s: Sys, j: nat, lux: real)
    requires Inv(n, s) && Enabled(n, s, Main(j, lux)) && s.nodes[j].local.state == CalibInit
    ensures Inv(n, Next(n, s, Main(j, lux)))
  {
    hide Holds, Barrier.Inv, LedInv, BusInv, Passed, AfterPass;
    var p, nd := Place(n, j), s.nodes[j];
    var s' := AfterMain(n, s, j, lux);
    PassCases(p, nd, lux);
    OneChunk();
    InitHolds(Readys(s), Readys(s)[j := nd.ready + [lux]], s.ledAt, p, s.bar.members[j], nd, lux);
    QueueStep(n, s, s', j, lux);
  }

  lemma MeasureStep(n: nat, s: Sys, j: nat, lux: real)
    requires Inv(n, s) && Enabled(n, s, Main(j, lux)) && s.nodes[j].local.state == WaitTransient
    ensures Inv(n, Next(n, s, Main(j, lux)))
  {
    hide Holds, Barrier.Inv, LedInv, BusInv, Passed, AfterPass, Outcome, Measured;
    var p, nd := Place(n, j), s.nodes[j];
    var s' := AfterMain(n, s, j, lux);
    PassCases(p, nd, lux);
    OneChunk();
    MeasureHolds(Readys(s), Readys(s)[j := nd.ready + [Outcome(nd.local, lux)]], s.ledAt, p, s.bar.members[j], nd, lux);
    QueueStep(n, s, s', j, Outcome(nd.local, lux));
  }

  lemma LitStep(n: nat, s: Sys, j: nat, lux: real)
    requires Inv(n, s) && Enabled(n, s, Main(j, lux)) && s.nodes[j].local.state == WaitLedOn
    ensures Inv(n, Next(n, s, Main(j, lux)))
  {
    hide Holds, Barrier.Inv, LedInv, BusInv, Passed, AfterPass;
    var p, nd := Place(n, j), s.nodes[j];
    var s' := AfterMain(n, s, j, lux);
    PassCases(p, nd, lux);
    LitHolds(Readys(s), s.ledAt, p, s.bar.members[j], nd);
    assert Readys(s') == Readys(s);
    DeliverLeds(n, s, s', j);
    Assemble(n, s, s', j);
  }

  /** Entering the next phase: its LED frame is not out yet, and still is not if this node is to send it. */
  lemma AdvanceLeds(n: nat, s: Sys, s': Sys, j: nat)
    requires |s.nodes| == n && OnlyNode(s, s', j) && LedInv(n, s) && s'.data == s.data && s'.ledAt == s.ledAt
    requires var q := s.bar.members[j].round;
             && s'.bar.members[j].round == q + 1 && !s.nodes[j].ledPending
             && s'.nodes[j].ledPending == (Owner(q + 1) == j)
    ensures LedInv(n, s')
  {
    assert forall q :: q >= 1 ==> (LedSent(s', q) <==> LedSent(s, q));
  }

  lemma NoLaterLed(n: nat, s: Sys)
    requires |s.nodes| == |s.bar.members| == n && LedInv(n, s)
    ensures Rounds(n) !in s.ledAt && Rounds(n) + 1 !in s.ledAt
  {
  }

  lemma AdvanceStep(n: nat, s: Sys, j: nat, lux: real)
    requires Inv(n, s) && Enabled(n, s, Main(j, lux)) && s.nodes[j].local.state == WaitReady
    ensures Inv(n, Next(n, s, Main(j, lux)))
  {
    hide Holds, Barrier.Inv, LedInv, BusInv, Passed, AfterPass;
    var p, m, nd := Place(n, j), s.bar.members[j], s.nodes[j];
    var s' := AfterMain(n, s, j, lux);
    PassCases(p, nd, lux);
    NoLaterLed(n, s);
    AdvanceFacts(Readys(s), s.ledAt, s.bar, p, nd);
    assert Readys(s') == Readys(s);
    AdvanceLeds(n, s, s', j);
    Assemble(n, s, s', j);
  }

  lemma AdvanceFacts(rs: seq<seq<real>>, ledAt: map<nat, nat>, bar: Barrier.State, p: Place, nd: Node)
    requires p.Valid() && |rs| == |bar.members| == p.n && Barrier.Inv(bar, p.n, 1) && Holds(rs, ledAt, p, bar.members[p.idx], nd)
    requires nd.local.state == WaitReady && AllReady(p, nd.local)
    requires Rounds(p.n) !in ledAt && Rounds(p.n) + 1 !in ledAt
    ensures Barrier.Inv(Barrier.Pass(bar, p.idx), p.n, 1)
    ensures Holds(rs, ledAt, p, PassMember(bar.members[p.idx]), AfterAdvance(p, nd))
    ensures bar.members[p.idx].queued && NextLed(nd.local) == Owner(bar.members[p.idx].round + 1) && !nd.ledPending
  {
    hide Holds, Barrier.Inv, Shape;
    Barrier.CountIsEnough(bar, p.n, 1, p.idx);
    ReadyQueued(rs, ledAt, p, bar.members[p.idx], nd);
    RoundDone(bar, p, nd);
    AdvanceHolds(rs, ledAt, p, bar.members[p.idx], nd);
  }

  lemma ReadyQueued(rs: seq<seq<real>>, ledAt: map<nat, nat>, p: Place, m: Barrier.Member, nd: Node)
    requires p.Valid() && |rs| == p.n && Holds(rs, ledAt, p, m, nd) && nd.local.state == WaitReady && AllReady(p, nd.local)
    requires |m.got| < p.n
    ensures m.queued && Shape(p, m, nd) && !nd.ledPending
  {
  }

  lemma RoundDone(bar: Barrier.State, p: Place, nd: Node)
    requires p.Valid() && |bar.members| == p.n && Barrier.Inv(bar, p.n, 1) && Shape(p, bar.members[p.idx], nd)
    requires bar.members[p.idx].queued && AllReady(p, nd.local)
    ensures bar.members[p.idx].got == Barrier.Due(p.n, 1, p.idx, bar.members[p.idx].round)
    ensures Barrier.Inv(Barrier.Pass(bar, p.idx), p.n, 1)
  {
    hide Barrier.Inv, Shape;
    StillWaits(bar, p, nd);
    Barrier.PassInv(bar, p.n, 1, p.idx);
  }

  lemma StepInv(n: nat, s: Sys, step: Step)
    requires Inv(n, s) && Enabled(n, s, step)
    ensures Inv(n, Next(n, s, step))
  {
    hide Inv, Enabled, Next;
    match step
    case TransmitReady(j) => TransmitReadyStep(n, s, j);
    case TransmitLed(j) => TransmitLedStep(n, s, j);
    case Deliver(j) => DeliverStep(n, s, j);
    case Main(j, lux) => MainStep(n, s, j, lux);
  }

  lemma MainStep(n: nat, s: Sys, j: nat, lux: real)
    requires Inv(n, s) && Enabled(n, s, Main(j, lux))
    ensures Inv(n, Next(n, s, Main(j, lux)))
  {
    hide Holds, Barrier.Inv, LedInv, BusInv, Next;
    match s.nodes[j].local.state
    case CalibInit => InitStep(n, s, j, lux);
    case WaitReady => AdvanceStep(n, s, j, lux);
    case WaitLedOn => LitStep(n, s, j, lux);
    case WaitTransient => MeasureStep(n, s, j, lux);
  }
}
