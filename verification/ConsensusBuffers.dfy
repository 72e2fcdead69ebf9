/** The consensus rounds with every node's ring buffer between the bus and its main loop. Frames arrive in
    the buffer when the bus delivers them, and are refused and lost if it is full; the loop gets them from
    the buffer. The file proves that with at most three nodes no run ever refuses a frame, and that the
    buffers then change nothing: every run is one of the rounds without buffers. */
module ConsensusBuffers {
  import opened Vectors
  import opened Framing
  import opened ConsensusNode
  import opened ConsensusProtocol
  import opened ConsensusLiveness
  import Barrier
  import FrameStream

  /** What a buffer holds: a consensus frame, with the bus position it came from as ghost knowledge, or a
      frame of any other kind. */
  datatype Item = Counted(position: nat, data: Payload) | Unrelated

  type Ring = FrameStream.History<Item>

  /** Every node has a ring buffer, and a position on the bus up to which frames have arrived in it. */
  datatype Buffered = Buffered(sys: Sys, rings: seq<Ring>, arrived: seq<nat>)

  /** One event: a frame wins the bus or a node makes a pass; the interrupt handler puts the next frame of
      the bus, or a frame of another kind, into the buffer; the loop gets a frame. */
  datatype Event = Move(step: Step) | Arrive(j: nat) | Intrude(j: nat) | Take(j: nat)

  ghost function Start(n: nat): Buffered {
    Buffered(ConsensusProtocol.Start(n), seq(n, _ => FrameStream.AfterAll([])), seq(n, _ => 0))
  }

  ghost predicate Shaped(cfg: seq<Config>, b: Buffered) {
    && Sized(cfg, b.sys) && |b.rings| == |b.arrived| == |cfg|
    && forall j :: 0 <= j < |cfg| ==> b.arrived[j] <= |b.sys.bar.log|
  }

  function Others(queue: seq<Item>): nat {
    if queue == [] then 0 else Others(queue[..|queue| - 1]) + if queue[|queue| - 1].Unrelated? then 1 else 0
  }

  /** How many frames of other kinds a buffer may hold at a time. */
  ghost function Room(n: nat): int
    requires 1 <= n
  {
    FrameStream.CAPACITY - 2 * Expected(n)
  }

  /** The events possible in `b`: moves as without buffers; the scheduling rule for consensus frames; and
      no more than Room frames of other kinds in a buffer at a time. Whether a put is refused is not
      restricted. */
  ghost predicate CanHappen(cfg: seq<Config>, b: Buffered, e: Event)
    requires Shaped(cfg, b)
  {
    match e
    case Move(step) => !step.Deliver? && Enabled(cfg, b.sys, step)
    case Arrive(j) => j < |cfg| && b.arrived[j] < |b.sys.bar.log|
    case Intrude(j) => j < |cfg| && Others(b.rings[j].queue) < Room(|cfg|)
    case Take(j) =>
      && j < |cfg| && b.rings[j].queue != []
      && (b.rings[j].queue[0].Counted? ==>
            !(b.sys.nodes[j].local.phase == Waiting && b.sys.nodes[j].local.numReceived == Expected(|cfg|)))
  }

  predicate Foreign(e: Barrier.Slot, j: nat) { e.Burst? && e.tag.sender != j }

  /** The ghost cursor moved past node `j`'s own frames. */
  ghost function SkipOwn(bar: Barrier.State, j: nat): (bar': Barrier.State)
    requires j < |bar.members|
    ensures |bar'.members| == |bar.members| && bar'.log == bar.log
    decreases |bar.log| - bar.members[j].cursor
  {
    if bar.members[j].cursor < |bar.log| && OwnFrame(bar, j) then SkipOwn(Barrier.Deliver(bar, j), j) else bar
  }

  /** The ghost cursor moved past the next frame of another node. */
  ghost function Advance(bar: Barrier.State, j: nat): (bar': Barrier.State)
    requires j < |bar.members|
    ensures |bar'.members| == |bar.members| && bar'.log == bar.log
  {
    var skipped := SkipOwn(bar, j);
    if skipped.members[j].cursor < |skipped.log| then Barrier.Deliver(skipped, j) else skipped
  }

  ghost function After(cfg: seq<Config>, b: Buffered, e: Event): Buffered
    requires Shaped(cfg, b) && CanHappen(cfg, b, e)
  {
    match e
    case Move(step) => b.(sys := Next(cfg, b.sys, step))
    case Arrive(j) =>
      var p := b.arrived[j];
      b.(rings := if Foreign(b.sys.bar.log[p], j) then Put(b.rings, j, Counted(p, b.sys.data[p])) else b.rings,
         arrived := b.arrived[j := p + 1])
    case Intrude(j) => b.(rings := Put(b.rings, j, Unrelated))
    case Take(j) => AfterTake(cfg, b, j)
  }

  ghost function Put(rings: seq<Ring>, j: nat, item: Item): (rings': seq<Ring>)
    requires j < |rings|
    ensures |rings'| == |rings|
  {
    rings[j := FrameStream.After(rings[j], FrameStream.Put(item))]
  }

  /** The loop gets the oldest frame and processes its data. */
  ghost function AfterTake(cfg: seq<Config>, b: Buffered, j: nat): Buffered
    requires Shaped(cfg, b) && j < |cfg| && b.rings[j].queue != []
  {
    var rings := b.rings[j := FrameStream.After(b.rings[j], FrameStream.Get)];
    match b.rings[j].queue[0]
    case Unrelated => b.(rings := rings)
    case Counted(position, data) =>
      var nd := b.sys.nodes[j];
      b.(rings := rings,
         sys := b.sys.(bar := Advance(b.sys.bar, j), nodes := b.sys.nodes[j := nd.(local := Receive(cfg[j], nd.local, data))]))
  }

  // What the buffers hold.

  /** The frames of other nodes at bus positions from `from` up to `to`, as node `j` stores them. */
  ghost function Pending(log: seq<Barrier.Slot>, data: seq<Payload>, j: nat, from: nat, to: nat): seq<Item>
    requires to <= |log| == |data|
  {
    if to <= from then []
    else Pending(log, data, j, from, to - 1) + if Foreign(log[to - 1], j) then [Counted(to - 1, data[to - 1])] else []
  }

  /** The consensus frames of a queue, in order. */
  function CountedOf(queue: seq<Item>): seq<Item> {
    if queue == [] then []
    else CountedOf(queue[..|queue| - 1]) + if queue[|queue| - 1].Counted? then [queue[|queue| - 1]] else []
  }

  /** Nothing was refused, and the consensus frames held are exactly the other nodes' frames between the
      cursor and the arrival position. */
  ghost predicate RingInv(n: nat, s: Sys, j: nat, ring: Ring, arrived: nat)
    requires 1 <= n && j < |s.bar.members| && |s.data| == |s.bar.log| && arrived <= |s.bar.log|
  {
    && ring.refused == 0 && s.bar.members[j].cursor <= arrived
    && CountedOf(ring.queue) == Pending(s.bar.log, s.data, j, s.bar.members[j].cursor, arrived)
    && Others(ring.queue) <= Room(n)
  }

  ghost predicate BufferInv(cfg: seq<Config>, b: Buffered) {
    && Shaped(cfg, b) && Inv(cfg, b.sys)
    && forall j :: 0 <= j < |cfg| ==> RingInv(|cfg|, b.sys, j, b.rings[j], b.arrived[j])
  }

  // Sequences of items.

  lemma {:induction false} QueueSplit(queue: seq<Item>)
    ensures |queue| == |CountedOf(queue)| + Others(queue)
  {
    if queue != [] {
      QueueSplit(queue[..|queue| - 1]);
    }
  }

  lemma QueuePut(queue: seq<Item>, item: Item)
    ensures CountedOf(queue + [item]) == CountedOf(queue) + if item.Counted? then [item] else []
    ensures Others(queue + [item]) == Others(queue) + if item.Counted? then 0 else 1
  {
    assert (queue + [item])[..|queue|] == queue;
  }

  lemma {:induction false} QueueGet(queue: seq<Item>)
    requires queue != []
    ensures CountedOf(queue) == (if queue[0].Counted? then [queue[0]] else []) + CountedOf(queue[1..])
    ensures Others(queue) == (if queue[0].Counted? then 0 else 1) + Others(queue[1..])
  {
    if |queue| > 1 {
      var init := queue[..|queue| - 1];
      QueueGet(init);
      assert queue[1..][..|queue| - 2] == init[1..];
    }
  }

  lemma {:induction false} PendingFirst(log: seq<Barrier.Slot>, data: seq<Payload>, j: nat, from: nat, to: nat)
    requires from < to <= |log| == |data|
    ensures Pending(log, data, j, from, to)
         == (if Foreign(log[from], j) then [Counted(from, data[from])] else []) + Pending(log, data, j, from + 1, to)
  {
    if from + 1 < to {
      PendingFirst(log, data, j, from, to - 1);
    }
  }

  lemma {:induction false} PendingPrefix(log: seq<Barrier.Slot>, data: seq<Payload>, log': seq<Barrier.Slot>, data': seq<Payload>, j: nat, from: nat, to: nat)
    requires to <= |log| == |data| && |log'| == |data'| && log <= log' && data <= data'
    ensures Pending(log', data', j, from, to) == Pending(log, data, j, from, to)
  {
    if from < to {
      PendingPrefix(log, data, log', data', j, from, to - 1);
    }
  }

  /** What is held and what has not arrived yet are together what is unread. */
  lemma {:induction false} PendingCount(log: seq<Barrier.Slot>, data: seq<Payload>, j: nat, from: nat, to: nat)
    requires from <= to <= |log| == |data|
    ensures |Pending(log, data, j, from, to)| + Barrier.UnreadCount(log, j, to) == Barrier.UnreadCount(log, j, from)
  {
    if from < to {
      PendingCount(log, data, j, from, to - 1);
    }
  }

  // Every event keeps the invariant.

  /** Two bursts of every other node fit in the buffer exactly with at most three nodes. */
  lemma FitsIff(n: nat)
    requires 1 <= n
    ensures Room(n) >= 0 <==> n <= 3
  {
    if n > 3 {
      AtLeastTwice(NumMessages(n), n - 1);
    } else {
      assert NumMessages(n) == 1;
    }
  }

  lemma AtLeastTwice(c: nat, k: nat)
    requires c >= 2
    ensures c * k >= 2 * k
  {
  }

  lemma StartInv(cfg: seq<Config>)
    requires ValidConfigs(cfg) && |cfg| <= 3
    ensures BufferInv(cfg, Start(|cfg|))
  {
    hide Inv, Room;
    ConsensusProtocol.StartInv(cfg);
    StartSized(cfg);
    FitsIff(|cfg|);
  }

  lemma StartSized(cfg: seq<Config>)
    requires ValidConfigs(cfg)
    ensures Sized(cfg, ConsensusProtocol.Start(|cfg|))
  {
  }

  lemma InvSized(cfg: seq<Config>, s: Sys)
    requires Inv(cfg, s)
    ensures Sized(cfg, s)
  {
  }

  /** Moves of the system without buffers leave the buffers right. */
  lemma MoveStep(cfg: seq<Config>, b: Buffered, step: Step)
    requires BufferInv(cfg, b) && CanHappen(cfg, b, Move(step))
    ensures BufferInv(cfg, After(cfg, b, Move(step)))
  {
    hide Inv, RingInv;
    var s, s' := b.sys, Next(cfg, b.sys, step);
    StepInv(cfg, s, step);
    InvSized(cfg, s');
    forall j | 0 <= j < |cfg| ensures b.arrived[j] <= |s'.bar.log| && RingInv(|cfg|, s', j, b.rings[j], b.arrived[j]) {
      MoveKeeps(cfg, s, step, j);
      RingKept(|cfg|, s, s', j, b.rings[j], b.arrived[j]);
    }
  }

  lemma MoveKeeps(cfg: seq<Config>, s: Sys, step: Step, j: nat)
    requires Sized(cfg, s) && Enabled(cfg, s, step) && !step.Deliver? && j < |cfg|
    ensures var s' := Next(cfg, s, step);
            && |s'.bar.members| == |cfg| && s'.bar.members[j].cursor == s.bar.members[j].cursor
            && s.bar.log <= s'.bar.log && s.data <= s'.data && |s'.data| == |s'.bar.log|
  {
    hide MainPass, AfterPass;
  }

  lemma RingKept(n: nat, s: Sys, s': Sys, j: nat, ring: Ring, arrived: nat)
    requires 1 <= n && j < |s.bar.members| == |s'.bar.members| && |s.data| == |s.bar.log| && |s'.data| == |s'.bar.log| && arrived <= |s.bar.log|
    requires RingInv(n, s, j, ring, arrived)
    requires s'.bar.members[j].cursor == s.bar.members[j].cursor && s.bar.log <= s'.bar.log && s.data <= s'.data
    ensures arrived <= |s'.bar.log| && RingInv(n, s', j, ring, arrived)
  {
    PendingPrefix(s.bar.log, s.data, s'.bar.log, s'.data, j, s.bar.members[j].cursor, arrived);
  }

  lemma UnreadOf(cfg: seq<Config>, s: Sys, j: nat)
    requires Inv(cfg, s) && j < |cfg|
    ensures s.bar.members[j].cursor <= |s.bar.log|
    ensures Barrier.UnreadCount(s.bar.log, j, s.bar.members[j].cursor) <= 2 * Expected(|cfg|)
  {
    hide Holds, Barrier.Inv, BusInv;
    Barrier.UnreadBound(s.bar, |cfg|, NumMessages(|cfg|), j);
  }

  /** A consensus frame that arrives finds room: it and those held are unread. */
  lemma RoomToPut(cfg: seq<Config>, b: Buffered, j: nat)
    requires BufferInv(cfg, b) && j < |cfg| <= 3 && b.arrived[j] < |b.sys.bar.log| && Foreign(b.sys.bar.log[b.arrived[j]], j)
    ensures |b.rings[j].queue| < FrameStream.CAPACITY
  {
    hide Inv;
    var s, p := b.sys, b.arrived[j];
    UnreadOf(cfg, s, j);
    PendingCount(s.bar.log, s.data, j, s.bar.members[j].cursor, p);
    QueueSplit(b.rings[j].queue);
  }

  lemma ArriveStep(cfg: seq<Config>, b: Buffered, j: nat)
    requires |cfg| <= 3 && BufferInv(cfg, b) && CanHappen(cfg, b, Arrive(j))
    ensures BufferInv(cfg, After(cfg, b, Arrive(j)))
  {
    hide Inv, Room, RingInv;
    var s, p := b.sys, b.arrived[j];
    if Foreign(s.bar.log[p], j) {
      RoomToPut(cfg, b, j);
      RingPut(|cfg|, s, j, b.rings[j], p);
    } else {
      RingSkip(|cfg|, s, j, b.rings[j], p);
    }
  }

  lemma RingPut(n: nat, s: Sys, j: nat, ring: Ring, p: nat)
    requires 1 <= n && j < |s.bar.members| && |s.data| == |s.bar.log| && p < |s.bar.log|
    requires RingInv(n, s, j, ring, p) && Foreign(s.bar.log[p], j) && |ring.queue| < FrameStream.CAPACITY
    ensures RingInv(n, s, j, FrameStream.After(ring, FrameStream.Put(Counted(p, s.data[p]))), p + 1)
  {
    hide Room;
    QueuePut(ring.queue, Counted(p, s.data[p]));
  }

  lemma RingSkip(n: nat, s: Sys, j: nat, ring: Ring, p: nat)
    requires 1 <= n && j < |s.bar.members| && |s.data| == |s.bar.log| && p < |s.bar.log|
    requires RingInv(n, s, j, ring, p) && !Foreign(s.bar.log[p], j)
    ensures RingInv(n, s, j, ring, p + 1)
  {
    hide Room;
  }

  /** So does a frame of another kind, within its own bound. */
  lemma IntrudeStep(cfg: seq<Config>, b: Buffered, j: nat)
    requires |cfg| <= 3 && BufferInv(cfg, b) && CanHappen(cfg, b, Intrude(j))
    ensures BufferInv(cfg, After(cfg, b, Intrude(j)))
  {
    hide Inv;
    var s := b.sys;
    UnreadOf(cfg, s, j);
    PendingCount(s.bar.log, s.data, j, s.bar.members[j].cursor, b.arrived[j]);
    QueueSplit(b.rings[j].queue);
    QueuePut(b.rings[j].queue, Unrelated);
  }

  /** Skipping its own frames is a sequence of moves of the system without buffers, and changes nothing
      that is pending. */
  lemma {:induction false} SkipInv(cfg: seq<Config>, s: Sys, j: nat)
    requires Inv(cfg, s) && j < |cfg| == |s.bar.members|
    ensures Inv(cfg, s.(bar := SkipOwn(s.bar, j)))
    decreases |s.bar.log| - s.bar.members[j].cursor
  {
    hide Inv;
    InvSized(cfg, s);
    if s.bar.members[j].cursor < |s.bar.log| && OwnFrame(s.bar, j) {
      var s' := Next(cfg, s, Deliver(j));
      SkipIs(cfg, s, j);
      StepInv(cfg, s, Deliver(j));
      SkipInv(cfg, s', j);
    }
  }

  lemma SkipIs(cfg: seq<Config>, s: Sys, j: nat)
    requires Sized(cfg, s) && j < |cfg| && s.bar.members[j].cursor < |s.bar.log| && OwnFrame(s.bar, j)
    ensures Enabled(cfg, s, Deliver(j)) && Next(cfg, s, Deliver(j)) == s.(bar := Barrier.Deliver(s.bar, j))
  {
    assert s.nodes == s.nodes[j := s.nodes[j].(local := s.nodes[j].local)];
  }

  /** Where skipping ends: at the first frame pending. */
  lemma {:induction false} SkipTo(bar: Barrier.State, data: seq<Payload>, j: nat, to: nat)
    requires j < |bar.members| && bar.members[j].cursor <= to <= |bar.log| == |data|
    requires forall p :: 0 <= p < |bar.log| ==> bar.log[p].Burst?
    requires Pending(bar.log, data, j, bar.members[j].cursor, to) != []
    ensures var skipped := SkipOwn(bar, j);
            var c := skipped.members[j].cursor;
            && c < to && Foreign(bar.log[c], j)
            && Pending(bar.log, data, j, bar.members[j].cursor, to) == [Counted(c, data[c])] + Pending(bar.log, data, j, c + 1, to)
            && skipped == bar.(members := bar.members[j := bar.members[j].(cursor := c)])
    decreases |bar.log| - bar.members[j].cursor
  {
    var cursor := bar.members[j].cursor;
    PendingFirst(bar.log, data, j, cursor, to);
    if OwnFrame(bar, j) {
      SkipTo(Barrier.Deliver(bar, j), data, j, to);
    } else {
      assert bar.members == bar.members[j := bar.members[j].(cursor := cursor)];
    }
  }

  lemma AllBursts(cfg: seq<Config>, s: Sys)
    requires Inv(cfg, s)
    ensures forall p :: 0 <= p < |s.bar.log| ==> s.bar.log[p].Burst?
  {
    hide Holds, Barrier.Inv;
    forall p | 0 <= p < |s.bar.log| ensures s.bar.log[p].Burst? {
      assert SlotInv(Rxs(s), |cfg|, s.bar.log[p], s.data[p]);
    }
  }

  /** Getting a consensus frame from the buffer is consuming it from the bus: the frame got is the one at
      the cursor. */
  lemma TakeIs(cfg: seq<Config>, b: Buffered, j: nat)
    requires BufferInv(cfg, b) && CanHappen(cfg, b, Take(j)) && b.rings[j].queue[0].Counted?
    ensures var skipped := b.sys.(bar := SkipOwn(b.sys.bar, j));
            && Inv(cfg, skipped) && Sized(cfg, skipped) && Enabled(cfg, skipped, Deliver(j)) && !OwnFrame(skipped.bar, j)
            && After(cfg, b, Take(j)).sys == Next(cfg, skipped, Deliver(j))
    ensures var s' := After(cfg, b, Take(j)).sys;
            && |s'.bar.members| == |cfg| && s'.bar.log == b.sys.bar.log && s'.data == b.sys.data
            && s'.bar.members[j].cursor <= b.arrived[j]
            && CountedOf(b.rings[j].queue[1..]) == Pending(s'.bar.log, s'.data, j, s'.bar.members[j].cursor, b.arrived[j])
            && forall i :: 0 <= i < |cfg| && i != j ==> s'.bar.members[i] == b.sys.bar.members[i]
  {
    hide Inv, Room;
    var s, queue := b.sys, b.rings[j].queue;
    QueueGet(queue);
    AllBursts(cfg, s);
    SkipTo(s.bar, s.data, j, b.arrived[j]);
    SkipInv(cfg, s, j);
    var skipped := s.(bar := SkipOwn(s.bar, j));
    InvSized(cfg, skipped);
    var c := skipped.bar.members[j].cursor;
    assert ([Counted(c, s.data[c])] + Pending(s.bar.log, s.data, j, c + 1, b.arrived[j]))[1..]
        == Pending(s.bar.log, s.data, j, c + 1, b.arrived[j]);
    assert ([queue[0]] + CountedOf(queue[1..]))[1..] == CountedOf(queue[1..]);
  }

  lemma TakeStep(cfg: seq<Config>, b: Buffered, j: nat)
    requires BufferInv(cfg, b) && CanHappen(cfg, b, Take(j))
    ensures BufferInv(cfg, After(cfg, b, Take(j)))
  {
    hide Inv, Room, Next, SkipOwn;
    var queue := b.rings[j].queue;
    QueueGet(queue);
    if queue[0].Counted? {
      TakeIs(cfg, b, j);
      StepInv(cfg, b.sys.(bar := SkipOwn(b.sys.bar, j)), Deliver(j));
      InvSized(cfg, After(cfg, b, Take(j)).sys);
    }
  }

  // The results.

  ghost predicate Run(cfg: seq<Config>, bs: seq<Buffered>, events: seq<Event>) {
    && ValidConfigs(cfg)
    && |bs| == |events| + 1 && bs[0] == Start(|cfg|)
    && forall k :: 0 <= k < |events| ==> Happens(cfg, bs[k], events[k], bs[k + 1])
  }

  ghost predicate Happens(cfg: seq<Config>, b: Buffered, e: Event, b': Buffered) {
    Shaped(cfg, b) && CanHappen(cfg, b, e) && b' == After(cfg, b, e)
  }

  lemma EventInv(cfg: seq<Config>, b: Buffered, e: Event)
    requires |cfg| <= 3 && BufferInv(cfg, b) && CanHappen(cfg, b, e)
    ensures BufferInv(cfg, After(cfg, b, e))
  {
    hide BufferInv, CanHappen, After;
    match e
    case Move(step) => MoveStep(cfg, b, step);
    case Arrive(j) => ArriveStep(cfg, b, j);
    case Intrude(j) => IntrudeStep(cfg, b, j);
    case Take(j) => TakeStep(cfg, b, j);
  }

  lemma {:induction false} RunInv(cfg: seq<Config>, bs: seq<Buffered>, events: seq<Event>, k: nat)
    requires |cfg| <= 3 && Run(cfg, bs, events) && k < |bs|
    ensures BufferInv(cfg, bs[k])
  {
    hide BufferInv, CanHappen, After;
    if k == 0 {
      StartInv(cfg);
    } else {
      RunInv(cfg, bs, events, k - 1);
      assert Happens(cfg, bs[k - 1], events[k - 1], bs[k]);
      EventInv(cfg, bs[k - 1], events[k - 1]);
    }
  }

  /** In every run with at most three nodes no buffer ever refuses a frame, and the consensus frames a
      buffer holds are exactly the other nodes' frames that have arrived and are not consumed, in order. */
  lemma NeverRefused(cfg: seq<Config>, bs: seq<Buffered>, events: seq<Event>, k: nat, j: nat)
    requires |cfg| <= 3 && Run(cfg, bs, events) && k < |bs| && j < |cfg|
    ensures Shaped(cfg, bs[k])
    ensures bs[k].rings[j].refused == 0 && |bs[k].rings[j].queue| <= FrameStream.CAPACITY
    ensures bs[k].sys.bar.members[j].cursor <= bs[k].arrived[j]
    ensures CountedOf(bs[k].rings[j].queue)
         == Pending(bs[k].sys.bar.log, bs[k].sys.data, j, bs[k].sys.bar.members[j].cursor, bs[k].arrived[j])
  {
    hide Inv;
    RunInv(cfg, bs, events, k);
    var s := bs[k].sys;
    UnreadOf(cfg, s, j);
    PendingCount(s.bar.log, s.data, j, s.bar.members[j].cursor, bs[k].arrived[j]);
    QueueSplit(bs[k].rings[j].queue);
  }

  // Progress.

  /** `s` is the state of `b` with some own frames skipped. */
  ghost predicate Ahead(cfg: seq<Config>, b: Buffered, s: Sys)
    requires Shaped(cfg, b)
  {
    && s.nodes == b.sys.nodes && s.data == b.sys.data && s.bar.log == b.sys.bar.log && |s.bar.members| == |cfg|
    && forall j :: 0 <= j < |cfg| ==>
         && s.bar.members[j] == b.sys.bar.members[j].(cursor := s.bar.members[j].cursor)
         && b.sys.bar.members[j].cursor <= s.bar.members[j].cursor <= |s.bar.log|
         && forall p :: b.sys.bar.members[j].cursor <= p < s.bar.members[j].cursor ==> !Foreign(s.bar.log[p], j)
  }

  /** The buffers cause no deadlock: while some node is not off, some event is possible that is not a frame
      of another kind. */
  lemma {:induction false} Progress(cfg: seq<Config>, b: Buffered, s: Sys, stale: Payload) returns (e: Event)
    requires BufferInv(cfg, b) && Inv(cfg, s) && Ahead(cfg, b, s)
    requires exists j :: 0 <= j < |cfg| && b.sys.nodes[j].local.phase != Off
    ensures CanHappen(cfg, b, e) && !e.Intrude?
    decreases Measure(|cfg|, s)
  {
    hide Inv, Enabled, Ahead, Next, Measure, RingInv;
    InvSized(cfg, s);
    SameNodes(cfg, b, s);
    var step := ConsensusLiveness.Progress(cfg, s, stale);
    if !step.Deliver? {
      SameMove(cfg, b, s, step);
      e := Move(step);
    } else if DeliversOwn(cfg, s, step) {
      EnabledPossible(cfg, s, step);
      var s' := Next(cfg, s, step);
      MoveDecreases(cfg, s, step);
      StepInv(cfg, s, step);
      MeasureNonneg(cfg, s);
      MeasureNonneg(cfg, s');
      StillAhead(cfg, b, s, step);
      e := Progress(cfg, b, s', stale);
    } else {
      e := FrameWaits(cfg, b, s, step);
    }
  }

  ghost predicate DeliversOwn(cfg: seq<Config>, s: Sys, step: Step)
    requires Sized(cfg, s) && Enabled(cfg, s, step) && step.Deliver?
  {
    OwnFrame(s.bar, step.j)
  }

  lemma SameNodes(cfg: seq<Config>, b: Buffered, s: Sys)
    requires Shaped(cfg, b) && Ahead(cfg, b, s)
    ensures s.nodes == b.sys.nodes
  {
  }

  lemma SameMove(cfg: seq<Config>, b: Buffered, s: Sys, step: Step)
    requires Shaped(cfg, b) && Sized(cfg, s) && Ahead(cfg, b, s) && Enabled(cfg, s, step) && !step.Deliver?
    ensures Enabled(cfg, b.sys, step)
  {
  }

  lemma StillAhead(cfg: seq<Config>, b: Buffered, s: Sys, step: Step)
    requires Shaped(cfg, b) && Sized(cfg, s) && Ahead(cfg, b, s) && Enabled(cfg, s, step) && step.Deliver? && OwnFrame(s.bar, step.j)
    ensures Ahead(cfg, b, Next(cfg, s, step))
  {
    SkipIs(cfg, s, step.j);
  }

  /** A foreign frame at the cursor is in the buffer, or can arrive. */
  lemma FrameWaits(cfg: seq<Config>, b: Buffered, s: Sys, step: Step) returns (e: Event)
    requires BufferInv(cfg, b) && Inv(cfg, s) && Sized(cfg, s) && Ahead(cfg, b, s)
    requires Enabled(cfg, s, step) && step.Deliver? && !OwnFrame(s.bar, step.j)
    ensures CanHappen(cfg, b, e) && !e.Intrude?
  {
    hide Inv;
    var j := step.j;
    if b.arrived[j] < |s.bar.log| {
      e := Arrive(j);
    } else {
      AllBursts(cfg, s);
      var cursor, ahead := b.sys.bar.members[j].cursor, s.bar.members[j].cursor;
      assert Foreign(s.bar.log[ahead], j);
      Held(s.bar.log, s.data, j, cursor, ahead, b.arrived[j]);
      assert b.rings[j].queue != [];
      e := Take(j);
    }
  }

  lemma {:induction false} Held(log: seq<Barrier.Slot>, data: seq<Payload>, j: nat, from: nat, p: nat, to: nat)
    requires from <= p < to <= |log| == |data| && Foreign(log[p], j)
    ensures Pending(log, data, j, from, to) != []
  {
    if p < to - 1 {
      Held(log, data, j, from, p, to - 1);
    }
  }

  /** So a run with at most three nodes that can only go on by frames of other kinds has every node off, and
      nothing was lost on the way. */
  lemma EndsOff(cfg: seq<Config>, bs: seq<Buffered>, events: seq<Event>, j: nat)
    requires |cfg| <= 3 && Run(cfg, bs, events) && j < |cfg|
    requires Shaped(cfg, bs[|events|]) && forall e :: CanHappen(cfg, bs[|events|], e) ==> e.Intrude?
    ensures Ended(bs[|events|].sys.nodes[j]) && bs[|events|].rings[j].refused == 0
  {
    hide Inv, CanHappen, BufferInv, Holds, Barrier.Inv, BusInv;
    var b := bs[|events|];
    RunInv(cfg, bs, events, |events|);
    NeverRefused(cfg, bs, events, |events|, j);
    InvOf(cfg, b);
    if b.sys.nodes[j].local.phase != Off {
      SelfAhead(cfg, b);
      var e := Progress(cfg, b, b.sys, [0, 0, 0, 0, 0, 0, 0, 0]);
    }
    OffEnded(cfg, b.sys, j);
  }

  lemma InvOf(cfg: seq<Config>, b: Buffered)
    requires BufferInv(cfg, b)
    ensures Inv(cfg, b.sys)
  {
  }

  lemma SelfAhead(cfg: seq<Config>, b: Buffered)
    requires BufferInv(cfg, b)
    ensures Ahead(cfg, b, b.sys)
  {
    hide Inv;
    forall j | 0 <= j < |cfg| ensures b.sys.bar.members[j].cursor <= |b.sys.bar.log| {
      assert RingInv(|cfg|, b.sys, j, b.rings[j], b.arrived[j]);
    }
  }
}
