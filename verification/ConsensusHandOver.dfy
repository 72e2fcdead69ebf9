/** The start of the consensus rounds. A node that ends calibration calls init() and sends; a node that ends
    it later may have consumed frames by then, and its own init() then sets the count back to zero. The file
    proves that a run in which the nodes call init() one by one ends with every node off exactly when no
    node consumed a consensus frame before its own init(). */
module ConsensusHandOver {
  import opened Globals
  import opened Vectors
  import opened Framing
  import opened ConsensusNode
  import opened ConsensusProtocol
  import opened ConsensusLiveness
  import Barrier

  /** The system, the nodes that have called init(), and per node the frames of others it consumed before
      and after that. */
  datatype Hand = Hand(sys: Sys, started: set<nat>, early: seq<nat>, counted: seq<nat>)

  datatype Event = Init(j: nat) | Move(step: Step)

  /** Static storage before init(). */
  function Booted(n: nat): Local {
    Initial(n).(phase := Off)
  }

  ghost function Start(n: nat): Hand {
    Hand(Sys(Barrier.Start(n), [], seq(n, _ => Node(Booted(n), [], [], [], [], [Const(n, 0.0)], []))), {},
         seq(n, _ => 0), seq(n, _ => 0))
  }

  ghost predicate Shaped(cfg: seq<Config>, h: Hand) {
    Sized(cfg, h.sys) && |h.early| == |h.counted| == |cfg|
  }

  ghost predicate CanHappen(cfg: seq<Config>, h: Hand, e: Event)
    requires Shaped(cfg, h)
  {
    match e
    case Init(j) => j < |cfg| && j !in h.started
    case Move(step) => Possible(cfg, h.sys, step)
  }

  ghost function After(cfg: seq<Config>, h: Hand, e: Event): Hand
    requires Shaped(cfg, h) && CanHappen(cfg, h, e)
  {
    match e
    case Init(j) =>
      var nd := h.sys.nodes[j];
      h.(sys := h.sys.(nodes := h.sys.nodes[j := nd.(local := Initialised(|cfg|, nd.local))]), started := h.started + {j})
    case Move(step) =>
      var h' := h.(sys := Next(cfg, h.sys, step));
      if step.Deliver? && !OwnFrame(h.sys.bar, step.j) then
        if step.j in h.started then h'.(counted := h.counted[step.j := h.counted[step.j] + 1])
        else h'.(early := h.early[step.j := h.early[step.j] + 1])
      else h'
  }

  /** init(), which clears the accumulator below the number of nodes only. */
  function Initialised(n: nat, l: Local): Local
    requires n <= |l.received|
  {
    Initial(n).(received := Const(n, 0.0) + l.received[n..])
  }

  // Counting frames, without any scheduling rule.

  /** Frames of node `i` among the first `p`. */
  ghost function Mine(log: seq<Barrier.Slot>, i: nat, p: nat): nat
    requires p <= |log|
  {
    if p == 0 then 0 else Mine(log, i, p - 1) + if log[p - 1].Burst? && log[p - 1].tag.sender == i then 1 else 0
  }

  /** Frames of others than node `j` among the first `p`. */
  ghost function Theirs(log: seq<Barrier.Slot>, j: nat, p: nat): nat
    requires p <= |log|
  {
    if p == 0 then 0 else Theirs(log, j, p - 1) + if log[p - 1].Burst? && log[p - 1].tag.sender != j then 1 else 0
  }

  /** The frames of the first `m` nodes but `j` among the first `p`. */
  ghost function MineOf(log: seq<Barrier.Slot>, j: nat, p: nat, m: nat): nat
    requires p <= |log|
  {
    if m == 0 then 0 else MineOf(log, j, p, m - 1) + if m - 1 == j then 0 else Mine(log, m - 1, p)
  }

  lemma {:induction false} MineOfNext(log: seq<Barrier.Slot>, j: nat, p: nat, m: nat)
    requires 0 < p <= |log| && log[p - 1].Burst?
    ensures MineOf(log, j, p, m)
         == MineOf(log, j, p - 1, m) + if log[p - 1].tag.sender < m && log[p - 1].tag.sender != j then 1 else 0
  {
    if m > 0 {
      MineOfNext(log, j, p, m - 1);
    }
  }

  lemma {:induction false} NoneYet(log: seq<Barrier.Slot>, j: nat, m: nat)
    ensures MineOf(log, j, 0, m) == 0
  {
    if m > 0 {
      NoneYet(log, j, m - 1);
    }
  }

  lemma {:induction false} TheirsIsSum(log: seq<Barrier.Slot>, n: nat, j: nat, p: nat)
    requires p <= |log| && forall q :: 0 <= q < |log| ==> log[q].Burst? && log[q].tag.sender < n
    ensures Theirs(log, j, p) == MineOf(log, j, p, n)
  {
    if p == 0 {
      NoneYet(log, j, n);
    } else {
      TheirsIsSum(log, n, j, p - 1);
      MineOfNext(log, j, p, n);
    }
  }

  lemma {:induction false} MineGrows(log: seq<Barrier.Slot>, i: nat, p: nat, p': nat)
    requires p <= p' <= |log|
    ensures Mine(log, i, p) <= Mine(log, i, p')
  {
    if p < p' {
      MineGrows(log, i, p, p' - 1);
    }
  }

  lemma {:induction false} MineOfBound(log: seq<Barrier.Slot>, j: nat, p: nat, m: nat, each: nat)
    requires p <= |log| && forall i :: 0 <= i < m ==> Mine(log, i, |log|) <= each
    ensures MineOf(log, j, p, m) <= (if j < m then m - 1 else m) * each
  {
    if m > 0 {
      MineOfBound(log, j, p, m - 1, each);
      hide Mine;
      MineGrows(log, m - 1, p, |log|);
      var others: nat := if j < m - 1 then m - 2 else m - 1;
      More(each, others);
    }
  }

  lemma {:induction false} CountsPrefix(log: seq<Barrier.Slot>, log': seq<Barrier.Slot>, i: nat, p: nat)
    requires p <= |log| && log <= log'
    ensures Mine(log', i, p) == Mine(log, i, p) && Theirs(log', i, p) == Theirs(log, i, p)
  {
    if p > 0 {
      CountsPrefix(log, log', i, p - 1);
    }
  }

  // What every event keeps.

  /** The vectors a node has sent, its phase and its updates fit together, and so do the frames counted. */
  ghost predicate NodeCounts(n: nat, m: Barrier.Member, nd: Node, started: bool, early: nat, counted: nat, log: seq<Barrier.Slot>, j: nat)
    requires 1 <= n
  {
    && (nd.local.phase == Off || nd.local.phase == Iterate || nd.local.phase == Waiting)
    && (!started ==> nd.local.phase == Off && nd.avs == [] && nd.sent == [] && m.outbox == {} && counted == 0)
    && (started ==>
          && |nd.avs| <= MAX_ITER && (nd.local.phase == Off <==> |nd.avs| == MAX_ITER)
          && |nd.sent| == |nd.avs| + (if nd.local.phase == Waiting then 1 else 0)
          && nd.local.numIter == (if |nd.avs| == MAX_ITER then 0 else |nd.avs|)
          && |nd.avs| * Expected(n) + nd.local.numReceived == counted)
    && m.cursor <= |log|
    && Mine(log, j, |log|) + |m.outbox| == NumMessages(n) * |nd.sent|
    && early + counted == Theirs(log, j, m.cursor)
  }

  ghost predicate CountInv(cfg: seq<Config>, h: Hand) {
    && Shaped(cfg, h)
    && (forall p :: 0 <= p < |h.sys.bar.log| ==> h.sys.bar.log[p].Burst? && h.sys.bar.log[p].tag.sender < |cfg|)
    && forall j :: 0 <= j < |cfg| ==>
         NodeCounts(|cfg|, h.sys.bar.members[j], h.sys.nodes[j], j in h.started, h.early[j], h.counted[j], h.sys.bar.log, j)
  }

  lemma StartCounts(cfg: seq<Config>)
    requires ValidConfigs(cfg)
    ensures CountInv(cfg, Start(|cfg|))
  {
  }

  /** An event of node `j` that adds no frame leaves the other nodes' counts alone. */
  lemma OnlyOne(cfg: seq<Config>, h: Hand, h': Hand, j: nat)
    requires CountInv(cfg, h) && j < |cfg| && Shaped(cfg, h') && h'.sys.bar.log == h.sys.bar.log
    requires forall i :: 0 <= i < |cfg| && i != j ==>
               && h'.sys.bar.members[i] == h.sys.bar.members[i] && h'.sys.nodes[i] == h.sys.nodes[i]
               && (i in h'.started <==> i in h.started) && h'.early[i] == h.early[i] && h'.counted[i] == h.counted[i]
    requires NodeCounts(|cfg|, h'.sys.bar.members[j], h'.sys.nodes[j], j in h'.started, h'.early[j], h'.counted[j], h'.sys.bar.log, j)
    ensures CountInv(cfg, h')
  {
    hide NodeCounts;
  }

  lemma InitCounts(cfg: seq<Config>, h: Hand, j: nat)
    requires CountInv(cfg, h) && CanHappen(cfg, h, Init(j))
    ensures CountInv(cfg, After(cfg, h, Init(j)))
  {
    hide Mine, Theirs;
    assert NodeCounts(|cfg|, h.sys.bar.members[j], h.sys.nodes[j], j in h.started, h.early[j], h.counted[j], h.sys.bar.log, j);
    OnlyOne(cfg, h, After(cfg, h, Init(j)), j);
  }

  lemma DeliverCounts(cfg: seq<Config>, h: Hand, j: nat)
    requires CountInv(cfg, h) && CanHappen(cfg, h, Move(Deliver(j)))
    ensures CountInv(cfg, After(cfg, h, Move(Deliver(j))))
  {
    hide Mine, AddFrame;
    assert NodeCounts(|cfg|, h.sys.bar.members[j], h.sys.nodes[j], j in h.started, h.early[j], h.counted[j], h.sys.bar.log, j);
    OnlyOne(cfg, h, After(cfg, h, Move(Deliver(j))), j);
  }

  lemma TransmitCounts(cfg: seq<Config>, h: Hand, j: nat, c: nat)
    requires CountInv(cfg, h) && CanHappen(cfg, h, Move(Transmit(j, c)))
    ensures CountInv(cfg, After(cfg, h, Move(Transmit(j, c))))
  {
    var h' := After(cfg, h, Move(Transmit(j, c)));
    var log, log' := h.sys.bar.log, h'.sys.bar.log;
    forall i | 0 <= i < |cfg|
      ensures NodeCounts(|cfg|, h'.sys.bar.members[i], h'.sys.nodes[i], i in h'.started, h'.early[i], h'.counted[i], log', i)
    {
      assert NodeCounts(|cfg|, h.sys.bar.members[i], h.sys.nodes[i], i in h.started, h.early[i], h.counted[i], log, i);
      CountsPrefix(log, log', i, h.sys.bar.members[i].cursor);
      CountsPrefix(log, log', i, |log|);
    }
  }

  lemma MainCounts(cfg: seq<Config>, h: Hand, j: nat, stale: Payload)
    requires CountInv(cfg, h) && CanHappen(cfg, h, Move(Main(j, stale)))
    ensures CountInv(cfg, After(cfg, h, Move(Main(j, stale))))
  {
    hide Mine, Theirs, MainPass, AfterPass;
    var h' := After(cfg, h, Move(Main(j, stale)));
    var m, nd := h.sys.bar.members[j], h.sys.nodes[j];
    assert NodeCounts(|cfg|, m, nd, j in h.started, h.early[j], h.counted[j], h.sys.bar.log, j);
    PassParts(cfg[j], nd, stale);
    ChunksSize(NumMessages(|cfg|));
    if nd.local.phase == Iterate {
      var nd1, m1 := AfterSend(cfg[j], nd, stale), m.(queued := true, outbox := Barrier.Chunks(NumMessages(|cfg|)));
      SendCounts(cfg[j], m, nd, stale, h.early[j], h.counted[j], h.sys.bar.log);
      if Complete(cfg[j], nd) {
        UpdateCounts(cfg[j], m1, nd1, h.early[j], h.counted[j], h.sys.bar.log);
      }
    } else {
      UpdateCounts(cfg[j], m, nd, h.early[j], h.counted[j], h.sys.bar.log);
    }
    OnlyOne(cfg, h, h', j);
  }

  lemma SendCounts(c: Config, m: Barrier.Member, nd: Node, stale: Payload, early: nat, counted: nat, log: seq<Barrier.Slot>)
    requires c.Valid() && nd.local.Sized(c.n) && nd.local.phase == Iterate && m.outbox == {}
    requires NodeCounts(c.n, m, nd, true, early, counted, log, c.idx)
    ensures var m', nd' := m.(queued := true, outbox := Barrier.Chunks(NumMessages(c.n))), AfterSend(c, nd, stale);
            && NodeCounts(c.n, m', nd', true, early, counted, log, c.idx) && nd'.local.phase == Waiting
            && (Complete(c, nd') <==> Complete(c, nd))
  {
    hide Mine, Theirs;
    ChunksSize(NumMessages(c.n));
    More(NumMessages(c.n), |nd.sent|);
  }

  lemma UpdateCounts(c: Config, m: Barrier.Member, nd: Node, early: nat, counted: nat, log: seq<Barrier.Slot>)
    requires c.Valid() && nd.local.Sized(c.n) && nd.local.phase == Waiting && Complete(c, nd)
    requires NodeCounts(c.n, m, nd, true, early, counted, log, c.idx)
    ensures NodeCounts(c.n, m.(round := m.round + 1, queued := false, got := {}), AfterUpdate(c, nd), true, early, counted, log, c.idx)
  {
    hide Mine, Theirs;
    More(Expected(c.n), |nd.avs|);
  }

  lemma More(each: nat, k: nat)
    ensures each * (k + 1) == each * k + each && (k + 1) * each == k * each + each
  {
  }

  lemma {:induction false} ChunksSize(chunks: nat)
    ensures |Barrier.Chunks(chunks)| == chunks
  {
    if chunks == 0 {
      assert Barrier.Chunks(0) == {};
    } else {
      ChunksSize(chunks - 1);
      assert Barrier.Chunks(chunks) == Barrier.Chunks(chunks - 1) + {chunks - 1};
    }
  }

  lemma EventCounts(cfg: seq<Config>, h: Hand, e: Event)
    requires CountInv(cfg, h) && CanHappen(cfg, h, e)
    ensures CountInv(cfg, After(cfg, h, e))
  {
    hide CountInv, CanHappen, After;
    match e
    case Init(j) => InitCounts(cfg, h, j);
    case Move(step) =>
      match step
      case Transmit(j, c) => TransmitCounts(cfg, h, j, c);
      case Deliver(j) => DeliverCounts(cfg, h, j);
      case Main(j, stale) => MainCounts(cfg, h, j, stale);
  }

  /** A node that consumed a frame of another before its init() never gets all the frames it has to count. */
  lemma EarlyNeverEnds(cfg: seq<Config>, h: Hand, j: nat)
    requires CountInv(cfg, h) && j < |cfg| && j in h.started && h.early[j] > 0
    ensures h.sys.nodes[j].local.phase != Off && |h.sys.nodes[j].avs| < MAX_ITER
  {
    var n, log := |cfg|, h.sys.bar.log;
    var each := NumMessages(n) * MAX_ITER;
    forall i | 0 <= i < n ensures Mine(log, i, |log|) <= each {
      SentBound(n, h.sys.bar.members[i], h.sys.nodes[i], i in h.started, h.early[i], h.counted[i], log, i);
    }
    var m, nd := h.sys.bar.members[j], h.sys.nodes[j];
    assert NodeCounts(n, m, nd, true, h.early[j], h.counted[j], log, j);
    TheirsIsSum(log, n, j, m.cursor);
    MineOfBound(log, j, m.cursor, n, each);
    Rounds(n, each);
  }

  lemma Rounds(n: nat, each: nat)
    requires 1 <= n && each == NumMessages(n) * MAX_ITER
    ensures (n - 1) * each == MAX_ITER * Expected(n)
  {
    assert (n - 1) * (NumMessages(n) * 50) == 50 * (NumMessages(n) * (n - 1));
  }

  lemma SentBound(n: nat, m: Barrier.Member, nd: Node, started: bool, early: nat, counted: nat, log: seq<Barrier.Slot>, i: nat)
    requires 1 <= n && NodeCounts(n, m, nd, started, early, counted, log, i)
    ensures Mine(log, i, |log|) <= NumMessages(n) * MAX_ITER
  {
    hide Mine, Theirs;
    assert |nd.sent| <= MAX_ITER;
    AtMost(NumMessages(n), |nd.sent|, MAX_ITER);
  }

  lemma AtMost(c: nat, k: nat, k': nat)
    requires k <= k'
    ensures c * k <= c * k'
  {
  }

  // Without early frames.

  /** `h` as seen by the rounds in which everybody has called init(): a node that has not called it yet is
      one that has not moved. */
  ghost predicate Mirrors(cfg: seq<Config>, h: Hand, s: Sys) {
    && Shaped(cfg, h) && Inv(cfg, s) && s.bar == h.sys.bar && s.data == h.sys.data && |s.nodes| == |cfg|
    && forall j :: 0 <= j < |cfg| ==>
         && h.early[j] == 0
         && (j in h.started ==> s.nodes[j] == h.sys.nodes[j])
         && (j !in h.started ==> h.sys.nodes[j].local == Booted(|cfg|) && s.nodes[j] == h.sys.nodes[j].(local := Initial(|cfg|)))
  }

  lemma StartMirrors(cfg: seq<Config>)
    requires ValidConfigs(cfg)
    ensures Mirrors(cfg, Start(|cfg|), ConsensusProtocol.Start(|cfg|))
  {
    hide Barrier.Inv, BusInv, Holds;
    StartInv(cfg);
  }

  /** The event keeps the scheduling rule. */
  ghost predicate InTime(cfg: seq<Config>, h: Hand, e: Event)
    requires Shaped(cfg, h) && CanHappen(cfg, h, e)
  {
    e.Move? ==> !Overruns(cfg, h.sys, e.step)
  }

  /** As long as nothing is consumed early, every event is a move of the rounds, or init() and no move. */
  lemma MirrorStep(cfg: seq<Config>, h: Hand, s: Sys, e: Event) returns (s': Sys)
    requires Mirrors(cfg, h, s) && CanHappen(cfg, h, e) && InTime(cfg, h, e)
    requires Shaped(cfg, After(cfg, h, e)) && forall j :: 0 <= j < |cfg| ==> After(cfg, h, e).early[j] == 0
    ensures Mirrors(cfg, After(cfg, h, e), s')
  {
    hide Inv;
    match e
    case Init(j) =>
      s' := s;
      assert Const(|cfg|, 0.0) + Booted(|cfg|).received[|cfg|..] == Initial(|cfg|).received;
    case Move(step) =>
      MirrorSized(cfg, h, s);
      MirrorMove(cfg, h, s, step);
      EnabledPossible(cfg, s, step);
      StepInv(cfg, s, step);
      s' := Next(cfg, s, step);
  }

  lemma MirrorSized(cfg: seq<Config>, h: Hand, s: Sys)
    requires Mirrors(cfg, h, s)
    ensures Sized(cfg, s)
  {
    hide Barrier.Inv, BusInv, Holds;
  }

  lemma MirrorMove(cfg: seq<Config>, h: Hand, s: Sys, step: Step)
    requires Mirrors(cfg, h, s) && Sized(cfg, s) && CanHappen(cfg, h, Move(step)) && InTime(cfg, h, Move(step))
    requires Shaped(cfg, After(cfg, h, Move(step))) && forall j :: 0 <= j < |cfg| ==> After(cfg, h, Move(step)).early[j] == 0
    ensures Enabled(cfg, s, step)
    ensures Possible(cfg, s, step) && (Inv(cfg, Next(cfg, s, step)) ==> Mirrors(cfg, After(cfg, h, Move(step)), Next(cfg, s, step)))
  {
    hide Inv, MainPass, AfterPass, Receive;
    match step
    case Transmit(j, c) =>
      InvOutbox(cfg, h, s, j);
    case Deliver(j) =>
      if j in h.started {
      } else {
        assert After(cfg, h, Move(step)).early[j] == 0;
        assert OwnFrame(h.sys.bar, j);
        assert s.nodes[j] == s.nodes[j].(local := s.nodes[j].local);
      }
    case Main(j, stale) =>
      assert j in h.started;
  }

  /** A node with something to transmit has called init(). */
  lemma InvOutbox(cfg: seq<Config>, h: Hand, s: Sys, j: nat)
    requires Mirrors(cfg, h, s) && Sized(cfg, s) && j < |cfg| && s.bar.members[j].Latest() > 0
    ensures j in h.started
  {
    hide Barrier.Inv, BusInv;
    assert Holds(Rxs(s), cfg[j], s.bar.members[j], s.nodes[j]);
  }

  // The results.

  ghost predicate Run(cfg: seq<Config>, hs: seq<Hand>, events: seq<Event>) {
    && ValidConfigs(cfg)
    && |hs| == |events| + 1 && hs[0] == Start(|cfg|)
    && forall k :: 0 <= k < |events| ==> Happens(cfg, hs[k], events[k], hs[k + 1])
  }

  ghost predicate Happens(cfg: seq<Config>, h: Hand, e: Event, h': Hand) {
    Shaped(cfg, h) && CanHappen(cfg, h, e) && InTime(cfg, h, e) && h' == After(cfg, h, e)
  }

  lemma {:induction false} RunCounts(cfg: seq<Config>, hs: seq<Hand>, events: seq<Event>, k: nat)
    requires Run(cfg, hs, events) && k < |hs|
    ensures CountInv(cfg, hs[k])
  {
    hide CountInv, CanHappen, After, InTime;
    if k == 0 {
      StartCounts(cfg);
    } else {
      RunCounts(cfg, hs, events, k - 1);
      assert Happens(cfg, hs[k - 1], events[k - 1], hs[k]);
      EventCounts(cfg, hs[k - 1], events[k - 1]);
    }
  }

  lemma RunShape(cfg: seq<Config>, hs: seq<Hand>, events: seq<Event>)
    requires Run(cfg, hs, events)
    ensures |hs| == |events| + 1
  {
  }

  ghost predicate NoneEarly(h: Hand) {
    forall j :: 0 <= j < |h.early| ==> h.early[j] == 0
  }

  lemma {:induction false} RunMirrors(cfg: seq<Config>, hs: seq<Hand>, events: seq<Event>, k: nat) returns (s: Sys)
    requires Run(cfg, hs, events) && k < |hs| && NoneEarly(hs[k])
    ensures Mirrors(cfg, hs[k], s)
  {
    hide Mirrors, CountInv, CanHappen, InTime;
    RunCounts(cfg, hs, events, k);
    CountShape(cfg, hs[k]);
    if k == 0 {
      StartMirrors(cfg);
      s := ConsensusProtocol.Start(|cfg|);
    } else {
      assert Happens(cfg, hs[k - 1], events[k - 1], hs[k]);
      EarlyGrows(cfg, hs[k - 1], events[k - 1]);
      s := RunMirrors(cfg, hs, events, k - 1);
      s := MirrorStep(cfg, hs[k - 1], s, events[k - 1]);
    }
  }

  lemma CountShape(cfg: seq<Config>, h: Hand)
    requires CountInv(cfg, h)
    ensures Shaped(cfg, h)
  {
  }

  lemma EarlyGrows(cfg: seq<Config>, h: Hand, e: Event)
    requires Shaped(cfg, h) && CanHappen(cfg, h, e)
    ensures |After(cfg, h, e).early| == |h.early| && forall j :: 0 <= j < |cfg| ==> h.early[j] <= After(cfg, h, e).early[j]
  {
    hide Next;
  }

  /** A run under the scheduling rule that cannot go on ends with every node off exactly when no node
      consumed another's frame before its own init(). */
  lemma EndsIffNoneEarly(cfg: seq<Config>, hs: seq<Hand>, events: seq<Event>)
    requires Run(cfg, hs, events)
    requires Shaped(cfg, hs[|events|])
    requires forall e :: CanHappen(cfg, hs[|events|], e) ==> !InTime(cfg, hs[|events|], e)
    ensures (forall j :: 0 <= j < |cfg| ==> hs[|events|].sys.nodes[j].local.phase == Off) <==> NoneEarly(hs[|events|])
  {
    hide CountInv, Run, Mirrors, Inv, Possible, Overruns;
    RunShape(cfg, hs, events);
    var h := hs[|events|];
    RunCounts(cfg, hs, events, |events|);
    forall j | 0 <= j < |cfg| ensures j in h.started {
      if j !in h.started {
        InitCanHappen(cfg, h, j);
      }
    }
    if NoneEarly(h) {
      var s := RunMirrors(cfg, hs, events, |events|);
      Mirrored(cfg, h, s);
      if exists j :: 0 <= j < |cfg| && s.nodes[j].local.phase != Off {
        var step := Progress(cfg, s, [0, 0, 0, 0, 0, 0, 0, 0]);
        MoveCanHappen(cfg, h, step);
      }
    } else {
      var j :| 0 <= j < |h.early| && h.early[j] != 0;
      EarlyNeverEnds(cfg, h, j);
    }
  }

  lemma InitCanHappen(cfg: seq<Config>, h: Hand, j: nat)
    requires Shaped(cfg, h) && j < |cfg| && j !in h.started
    ensures CanHappen(cfg, h, Init(j)) && InTime(cfg, h, Init(j))
  {
  }

  lemma MoveCanHappen(cfg: seq<Config>, h: Hand, step: Step)
    requires Shaped(cfg, h) && Enabled(cfg, h.sys, step)
    ensures CanHappen(cfg, h, Move(step)) && InTime(cfg, h, Move(step))
  {
  }

  lemma Mirrored(cfg: seq<Config>, h: Hand, s: Sys)
    requires Mirrors(cfg, h, s) && forall j: nat :: j < |cfg| ==> j in h.started
    ensures h.sys == s && Inv(cfg, s) && Sized(cfg, s)
  {
    MirrorSized(cfg, h, s);
    hide Inv;
    assert h.sys.nodes == s.nodes;
  }

  // It happens.

  /** Any two or more nodes: node 0 calls init() and sends, and node 1 consumes the frame before its own
      init(). However such a run goes on, node 1 never ends. */
  lemma EarlyHappens(cfg: seq<Config>) returns (hs: seq<Hand>, events: seq<Event>)
    requires ValidConfigs(cfg) && |cfg| >= 2
    ensures Run(cfg, hs, events) && |hs[|events|].early| == |cfg| && hs[|events|].early[1] == 1
  {
    hide After, Shaped, CanHappen, InTime;
    var stale: Payload := [0, 0, 0, 0, 0, 0, 0, 0];
    var e0, e1, e2, e3 := Init(0), Move(Main(0, stale)), Move(Transmit(0, 0)), Move(Deliver(1));
    var h0 := Start(|cfg|);
    FirstEvent(cfg, h0);
    var h1 := After(cfg, h0, e0);
    SecondEvent(cfg, h1, stale);
    var h2 := After(cfg, h1, e1);
    ThirdEvent(cfg, h2);
    var h3 := After(cfg, h2, e2);
    FourthEvent(cfg, h3);
    var h4 := After(cfg, h3, e3);
    hs, events := [h0, h1, h2, h3, h4], [e0, e1, e2, e3];
    forall k | 0 <= k < |events| ensures Happens(cfg, hs[k], events[k], hs[k + 1]) {
      if k == 0 {
      } else if k == 1 {
      } else if k == 2 {
      } else {
        assert k == 3;
      }
    }
  }

  lemma FirstEvent(cfg: seq<Config>, h: Hand)
    requires ValidConfigs(cfg) && h == Start(|cfg|)
    ensures Shaped(cfg, h) && CanHappen(cfg, h, Init(0)) && InTime(cfg, h, Init(0))
    ensures Begun(cfg, After(cfg, h, Init(0)))
  {
  }

  /** Only node 0 has called init(), and nothing else has happened. */
  ghost predicate Begun(cfg: seq<Config>, h: Hand) {
    && Shaped(cfg, h) && h.started == {0} && h.sys.bar == Barrier.Start(|cfg|)
    && h.sys.nodes[0].local.phase == Iterate && h.sys.nodes[0].local.numReceived == 0
    && forall j :: 0 < j < |cfg| ==> h.sys.nodes[j].local.phase == Off && h.early[j] == 0
  }

  lemma SecondEvent(cfg: seq<Config>, h: Hand, stale: Payload)
    requires Begun(cfg, h) && |cfg| >= 2
    ensures Shaped(cfg, h) && CanHappen(cfg, h, Move(Main(0, stale))) && InTime(cfg, h, Move(Main(0, stale)))
    ensures var h' := After(cfg, h, Move(Main(0, stale)));
            && Shaped(cfg, h') && h'.started == {0} && h'.sys.bar == Barrier.Queue(h.sys.bar, NumMessages(|cfg|), 0)
            && |h'.sys.nodes[0].burst| == NumMessages(|cfg|) && h'.sys.nodes[1].local.phase == Off && h'.early[1] == 0
  {
    hide MainPass, AfterPass;
    PassParts(cfg[0], h.sys.nodes[0], stale);
    NextSized(cfg, h.sys, Main(0, stale));
    assert NumMessages(|cfg|) >= 1 && |cfg| - 1 >= 1;
    AtMost(|cfg| - 1, 1, NumMessages(|cfg|));
  }

  lemma ThirdEvent(cfg: seq<Config>, h: Hand)
    requires Shaped(cfg, h) && |cfg| >= 2 && h.started == {0}
    requires h.sys.bar == Barrier.Queue(Barrier.Start(|cfg|), NumMessages(|cfg|), 0)
    requires |h.sys.nodes[0].burst| == NumMessages(|cfg|) && h.sys.nodes[1].local.phase == Off && h.early[1] == 0
    ensures CanHappen(cfg, h, Move(Transmit(0, 0))) && InTime(cfg, h, Move(Transmit(0, 0)))
    ensures var h' := After(cfg, h, Move(Transmit(0, 0)));
            && Shaped(cfg, h') && h'.started == {0} && h'.sys.bar.log == [Barrier.Burst(Barrier.Tag(0, 0, 0))]
            && h'.sys.bar.members[1].cursor == 0 && h'.sys.nodes[1].local.phase == Off && h'.early[1] == 0
  {
  }

  lemma FourthEvent(cfg: seq<Config>, h: Hand)
    requires Shaped(cfg, h) && |cfg| >= 2 && h.started == {0} && h.sys.bar.log == [Barrier.Burst(Barrier.Tag(0, 0, 0))]
    requires h.sys.bar.members[1].cursor == 0 && h.sys.nodes[1].local.phase == Off && h.early[1] == 0
    ensures CanHappen(cfg, h, Move(Deliver(1))) && InTime(cfg, h, Move(Deliver(1)))
    ensures |After(cfg, h, Move(Deliver(1))).early| == |cfg| && After(cfg, h, Move(Deliver(1))).early[1] == 1
  {
  }
}
