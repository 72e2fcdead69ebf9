/** A counting barrier over one totally ordered broadcast log, the skeleton of both protocols.
    Every member sends a burst of `chunks` frames per round and passes the round once it has sent
    its own burst and consumed everybody else's. Frames carry no round; the tags in this file are
    ghost knowledge, and the lemmas say why a member that merely counts still never mixes rounds. */
module Barrier {
  /** Which frame of which sender's which burst. */
  datatype Tag = Tag(sender: nat, round: nat, chunk: nat)

  /** A frame on the bus: part of some burst, or a frame of another kind. */
  datatype Slot = Burst(tag: Tag) | Other

  /** One member: the round it is in, whether its burst of this round has been queued, how much of the
      log it has consumed, which chunks of its latest burst still wait for the bus, and which frames of
      the current round it has consumed. */
  datatype Member = Member(round: nat, queued: bool, cursor: nat, outbox: set<nat>, got: set<Tag>) {
    /** Bursts queued so far. */
    function Latest(): nat { if queued then round + 1 else round }
  }

  /** `at` says where on the bus each tag is. */
  datatype State = State(log: seq<Slot>, at: map<Tag, nat>, members: seq<Member>)

  ghost predicate ValidTag(n: nat, chunks: nat, t: Tag) {
    t.sender < n && t.chunk < chunks
  }

  ghost predicate Before(s: State, t: Tag, p: nat) {
    t in s.at && s.at[t] < p
  }

  /** The frames member `j` has to consume in round `r`. */
  ghost function Due(n: nat, chunks: nat, j: nat, r: nat): (due: set<Tag>)
    ensures forall t :: t in due <==> ValidTag(n, chunks, t) && t.sender != j && t.round == r
  {
    set i: nat, c: nat | i < n && c < chunks && i != j :: Tag(i, r, c)
  }

  predicate IsChunk(c: nat, chunks: nat) { c < chunks }

  function Chunks(chunks: nat): (cs: set<nat>)
    ensures forall c: nat :: c in cs <==> c < chunks
  {
    set c: nat | c < chunks && IsChunk(c, chunks)
  }

  ghost predicate LogInv(s: State, n: nat, chunks: nat) {
    && (forall t :: t in s.at ==> ValidTag(n, chunks, t) && s.at[t] < |s.log| && s.log[s.at[t]] == Burst(t))
    && (forall p :: 0 <= p < |s.log| && s.log[p].Burst? ==> s.log[p].tag in s.at && s.at[s.log[p].tag] == p)
  }

  /** A frame of a later round is on the bus after every frame of every earlier round. */
  ghost predicate Causal(s: State, n: nat, chunks: nat) {
    forall t, u :: t in s.at && ValidTag(n, chunks, u) && u.round < t.round ==> Before(s, u, s.at[t])
  }

  /** What is on the bus from member `j`, and what still waits. */
  ghost predicate Sent(s: State, chunks: nat, j: nat, m: Member) {
    && (m.Latest() == 0 ==> m.outbox == {})
    && m.outbox <= Chunks(chunks)
    && forall t: Tag :: t.sender == j && t.chunk < chunks ==>
         (t in s.at <==> t.round < m.Latest() && !(t.round + 1 == m.Latest() && t.chunk in m.outbox))
  }

  /** What member `j` has consumed. */
  ghost predicate Consumed(s: State, n: nat, chunks: nat, j: nat, m: Member) {
    && m.cursor <= |s.log|
    && (forall t :: ValidTag(n, chunks, t) && t.sender != j && t.round < m.round ==> Before(s, t, m.cursor))
    && (forall t :: t in m.got <==> ValidTag(n, chunks, t) && t.sender != j && t.round == m.round && Before(s, t, m.cursor))
    && (forall t :: t in s.at && t.sender != j && s.at[t] < m.cursor ==> t.round <= m.round)
  }

  ghost predicate Inv(s: State, n: nat, chunks: nat) {
    && |s.members| == n && chunks >= 1
    && LogInv(s, n, chunks)
    && Causal(s, n, chunks)
    && forall j :: 0 <= j < n ==> Sent(s, chunks, j, s.members[j]) && Consumed(s, n, chunks, j, s.members[j])
  }

  function Start(n: nat): State {
    State([], map[], seq(n, _ => Member(0, false, 0, {}, {})))
  }

  lemma StartInv(n: nat, chunks: nat)
    requires chunks >= 1
    ensures Inv(Start(n), n, chunks)
  {
  }

  // The moves.

  /** Member `j` hands its burst of the current round to the bus controller. */
  function Queue(s: State, chunks: nat, j: nat): State
    requires j < |s.members|
  {
    s.(members := s.members[j := s.members[j].(queued := true, outbox := Chunks(chunks))])
  }

  /** Chunk `c` of member `j`'s latest burst wins the bus. */
  function Transmit(s: State, j: nat, c: nat): State
    requires j < |s.members| && s.members[j].Latest() > 0
  {
    var t := Tag(j, s.members[j].Latest() - 1, c);
    State(s.log + [Burst(t)], s.at[t := |s.log|], s.members[j := s.members[j].(outbox := s.members[j].outbox - {c})])
  }

  /** A frame of another kind goes out. */
  function Put(s: State): State {
    s.(log := s.log + [Other])
  }

  /** Member `j` consumes the next frame; its own frames do not reach it. */
  function Deliver(s: State, j: nat): State
    requires j < |s.members| && s.members[j].cursor < |s.log|
  {
    s.(members := s.members[j := Consume(s.members[j], s.log[s.members[j].cursor], j)])
  }

  function Consume(m: Member, e: Slot, j: nat): Member {
    m.(cursor := m.cursor + 1, got := if e.Burst? && e.tag.sender != j then m.got + {e.tag} else m.got)
  }

  /** Member `j` passes the round. */
  function Pass(s: State, j: nat): State
    requires j < |s.members|
  {
    var m := s.members[j];
    s.(members := s.members[j := m.(round := m.round + 1, queued := false, got := {})])
  }

  lemma QueueInv(s: State, n: nat, chunks: nat, j: nat)
    requires Inv(s, n, chunks) && j < n && !s.members[j].queued && s.members[j].outbox == {}
    ensures Inv(Queue(s, chunks, j), n, chunks)
  {
    var s' := Queue(s, chunks, j);
    forall i | 0 <= i < n ensures Sent(s', chunks, i, s'.members[i]) && Consumed(s', n, chunks, i, s'.members[i]) {
      assert Sent(s, chunks, i, s.members[i]) && Consumed(s, n, chunks, i, s.members[i]);
    }
  }

  lemma TransmitInv(s: State, n: nat, chunks: nat, j: nat, c: nat)
    requires Inv(s, n, chunks) && j < n && c in s.members[j].outbox
    ensures s.members[j].Latest() > 0 && Tag(j, s.members[j].Latest() - 1, c) !in s.at
    ensures Inv(Transmit(s, j, c), n, chunks)
  {
    assert Sent(s, chunks, j, s.members[j]);
    TransmitBus(s, n, chunks, j, c);
    var s' := Transmit(s, j, c);
    forall i | 0 <= i < n ensures Sent(s', chunks, i, s'.members[i]) && Consumed(s', n, chunks, i, s'.members[i]) {
      TransmitMember(s, n, chunks, j, c, i);
    }
  }

  lemma TransmitBus(s: State, n: nat, chunks: nat, j: nat, c: nat)
    requires Inv(s, n, chunks) && j < n && c in s.members[j].outbox && s.members[j].Latest() > 0
    ensures LogInv(Transmit(s, j, c), n, chunks) && Causal(Transmit(s, j, c), n, chunks)
  {
    hide Sent, Consumed, Before;
    var m := s.members[j];
    assert Sent(s, chunks, j, m) && Consumed(s, n, chunks, j, m);
    var t := Tag(j, m.Latest() - 1, c);
    forall u | ValidTag(n, chunks, u) && u.round < t.round ensures Before(s, u, |s.log|) {
      EarlierOnBus(s, n, chunks, j, u);
    }
    TransmitSent(s, chunks, j, c, j);
    assert c in Chunks(chunks) by { OutboxChunks(s, chunks, j); }
    Appended(s, n, chunks, t, Transmit(s, j, c).members);
  }

  lemma OutboxChunks(s: State, chunks: nat, j: nat)
    requires j < |s.members| && Sent(s, chunks, j, s.members[j])
    ensures s.members[j].outbox <= Chunks(chunks)
  {
  }

  /** What was due before a member's latest burst is on the bus. */
  lemma EarlierOnBus(s: State, n: nat, chunks: nat, j: nat, u: Tag)
    requires LogInv(s, n, chunks) && j < |s.members| && ValidTag(n, chunks, u) && u.round + 1 < s.members[j].Latest()
    requires Sent(s, chunks, j, s.members[j]) && Consumed(s, n, chunks, j, s.members[j])
    ensures Before(s, u, |s.log|)
  {
    if u.sender == j {
      assert u in s.at;
    } else {
      assert Before(s, u, s.members[j].cursor);
    }
  }

  /** A new frame whose earlier rounds are all on the bus keeps the bus in order. */
  lemma Appended(s: State, n: nat, chunks: nat, t: Tag, members: seq<Member>)
    requires LogInv(s, n, chunks) && Causal(s, n, chunks) && ValidTag(n, chunks, t) && t !in s.at
    requires forall u :: ValidTag(n, chunks, u) && u.round < t.round ==> Before(s, u, |s.log|)
    ensures var s' := State(s.log + [Burst(t)], s.at[t := |s.log|], members);
            LogInv(s', n, chunks) && Causal(s', n, chunks)
  {
  }

  lemma TransmitMember(s: State, n: nat, chunks: nat, j: nat, c: nat, i: nat)
    requires Inv(s, n, chunks) && j < n && c in s.members[j].outbox && s.members[j].Latest() > 0 && i < n
    ensures var s' := Transmit(s, j, c);
            Sent(s', chunks, i, s'.members[i]) && Consumed(s', n, chunks, i, s'.members[i])
  {
    hide LogInv, Causal, Sent, Consumed;
    assert Sent(s, chunks, i, s.members[i]) && Consumed(s, n, chunks, i, s.members[i]);
    assert Sent(s, chunks, j, s.members[j]);
    TransmitSent(s, chunks, j, c, i);
    TransmitConsumed(s, n, chunks, j, c, i);
  }

  lemma TransmitSent(s: State, chunks: nat, j: nat, c: nat, i: nat)
    requires i < |s.members| && j < |s.members| && c in s.members[j].outbox && s.members[j].Latest() > 0
    requires Sent(s, chunks, i, s.members[i]) && Sent(s, chunks, j, s.members[j])
    ensures Sent(Transmit(s, j, c), chunks, i, Transmit(s, j, c).members[i])
    ensures Tag(j, s.members[j].Latest() - 1, c) !in s.at
  {
  }

  lemma TransmitConsumed(s: State, n: nat, chunks: nat, j: nat, c: nat, i: nat)
    requires i < |s.members| && j < |s.members| && s.members[j].Latest() > 0
    requires Tag(j, s.members[j].Latest() - 1, c) !in s.at && Consumed(s, n, chunks, i, s.members[i])
    ensures Consumed(Transmit(s, j, c), n, chunks, i, Transmit(s, j, c).members[i])
  {
  }

  lemma PutInv(s: State, n: nat, chunks: nat)
    requires Inv(s, n, chunks)
    ensures Inv(Put(s), n, chunks)
  {
    var s' := Put(s);
    forall i | 0 <= i < n ensures Sent(s', chunks, i, s'.members[i]) && Consumed(s', n, chunks, i, s'.members[i]) {
      assert Sent(s, chunks, i, s.members[i]) && Consumed(s, n, chunks, i, s.members[i]);
    }
  }

  /** Member `j` still has frames to wait for, or its own burst is not even queued. */
  ghost predicate Waits(s: State, n: nat, chunks: nat, j: nat)
    requires j < |s.members|
  {
    s.members[j].queued ==> s.members[j].got != Due(n, chunks, j, s.members[j].round)
  }

  /** The heart of the barrier: the next frame a waiting member consumes belongs to its own round, and
      it has not consumed it before. */
  lemma NextIsDue(s: State, n: nat, chunks: nat, j: nat, t: Tag)
    requires Inv(s, n, chunks) && j < n && Waits(s, n, chunks, j)
    requires s.members[j].cursor < |s.log| && s.log[s.members[j].cursor] == Burst(t) && t.sender != j
    ensures ValidTag(n, chunks, t) && t.round == s.members[j].round && t !in s.members[j].got
  {
    var m := s.members[j];
    assert Sent(s, chunks, j, m) && Consumed(s, n, chunks, j, m);
    assert s.at[t] == m.cursor;
    if t.round > m.round {
      RoundComplete(s, n, chunks, j, t);
    }
  }

  /** A frame of a later round at the head of the log means member `j` has all it waits for. */
  lemma RoundComplete(s: State, n: nat, chunks: nat, j: nat, t: Tag)
    requires Inv(s, n, chunks) && j < n && t in s.at && s.at[t] == s.members[j].cursor && t.round > s.members[j].round
    ensures !Waits(s, n, chunks, j)
  {
    var m := s.members[j];
    assert Sent(s, chunks, j, m) && Consumed(s, n, chunks, j, m);
    assert Before(s, Tag(j, m.round, 0), m.cursor);
    forall u | u in Due(n, chunks, j, m.round) ensures u in m.got {
      assert Before(s, u, m.cursor);
    }
  }

  lemma DeliverInv(s: State, n: nat, chunks: nat, j: nat)
    requires Inv(s, n, chunks) && j < n && s.members[j].cursor < |s.log|
    requires (s.log[s.members[j].cursor].Burst? && s.log[s.members[j].cursor].tag.sender != j) ==> Waits(s, n, chunks, j)
    ensures Inv(Deliver(s, j), n, chunks)
  {
    var s' := Deliver(s, j);
    forall i | 0 <= i < n ensures Sent(s', chunks, i, s'.members[i]) && Consumed(s', n, chunks, i, s'.members[i]) {
      assert Sent(s, chunks, i, s.members[i]) && Consumed(s, n, chunks, i, s.members[i]);
      if i == j {
        DeliverConsumed(s, n, chunks, j);
      }
    }
  }

  lemma DeliverConsumed(s: State, n: nat, chunks: nat, j: nat)
    requires Inv(s, n, chunks) && j < n && s.members[j].cursor < |s.log|
    requires (s.log[s.members[j].cursor].Burst? && s.log[s.members[j].cursor].tag.sender != j) ==> Waits(s, n, chunks, j)
    ensures Consumed(Deliver(s, j), n, chunks, j, Deliver(s, j).members[j])
  {
    var m := s.members[j];
    assert Consumed(s, n, chunks, j, m);
    var e := s.log[m.cursor];
    if e.Burst? && e.tag.sender != j {
      NextIsDue(s, n, chunks, j, e.tag);
    }
  }

  lemma PassInv(s: State, n: nat, chunks: nat, j: nat)
    requires Inv(s, n, chunks) && j < n && !Waits(s, n, chunks, j)
    ensures Inv(Pass(s, j), n, chunks)
  {
    var m := s.members[j];
    var s' := Pass(s, j);
    assert Sent(s, chunks, j, m) && Consumed(s, n, chunks, j, m);
    forall i | 0 <= i < n ensures Sent(s', chunks, i, s'.members[i]) && Consumed(s', n, chunks, i, s'.members[i]) {
      assert Sent(s, chunks, i, s.members[i]) && Consumed(s, n, chunks, i, s.members[i]);
    }
  }

  // What the invariant gives.

  /** Rounds differ by at most one, and a member that is a round ahead leaves nobody behind who has
      not queued its burst. */
  lemma Lockstep(s: State, n: nat, chunks: nat, i: nat, j: nat)
    requires Inv(s, n, chunks) && i < n && j < n
    ensures s.members[j].round <= s.members[i].round + 1
    ensures s.members[j].round > s.members[i].round ==> s.members[i].queued
  {
    var mi, mj := s.members[i], s.members[j];
    assert Sent(s, chunks, i, mi) && Consumed(s, n, chunks, j, mj);
    if mj.round > mi.round && i != j {
      assert Before(s, Tag(i, mj.round - 1, 0), mj.cursor);
    }
  }

  // Counting what is due.

  ghost function Row(i: nat, r: nat, chunks: nat): (row: set<Tag>)
    ensures forall t: Tag :: t in row <==> t.sender == i && t.round == r && t.chunk < chunks
    ensures |row| == chunks
  {
    if chunks == 0 then {} else Row(i, r, chunks - 1) + {Tag(i, r, chunks - 1)}
  }

  lemma {:induction false} DueSize(n: nat, chunks: nat, j: nat, r: nat)
    ensures |Due(n, chunks, j, r)| == chunks * (if j < n then n - 1 else n)
  {
    if n == 0 {
      assert Due(n, chunks, j, r) == {};
    } else {
      DueSize(n - 1, chunks, j, r);
      DueStep(n, chunks, j, r);
      if j != n - 1 {
        OneMore(chunks, if j < n then n - 1 else n);
      }
    }
  }

  lemma DueStep(n: nat, chunks: nat, j: nat, r: nat)
    requires n > 0
    ensures |Due(n, chunks, j, r)| == |Due(n - 1, chunks, j, r)| + if j == n - 1 then 0 else chunks
  {
    var row: set<Tag> := if j == n - 1 then {} else Row(n - 1, r, chunks);
    assert Due(n, chunks, j, r) == Due(n - 1, chunks, j, r) + row;
    assert Due(n - 1, chunks, j, r) !! row;
  }

  lemma OneMore(chunks: nat, k: nat)
    requires k > 0
    ensures chunks * k == chunks * (k - 1) + chunks
  {
  }

  /** Counting suffices: the consumed frames of the round never exceed what is due, and reach that
      number only when they are exactly the frames due. */
  lemma CountIsEnough(s: State, n: nat, chunks: nat, j: nat)
    requires Inv(s, n, chunks) && j < n
    ensures s.members[j].got <= Due(n, chunks, j, s.members[j].round)
    ensures |s.members[j].got| <= chunks * (n - 1)
    ensures |s.members[j].got| == chunks * (n - 1) <==> s.members[j].got == Due(n, chunks, j, s.members[j].round)
  {
    var m := s.members[j];
    var due := Due(n, chunks, j, m.round);
    assert Consumed(s, n, chunks, j, m);
    DueSize(n, chunks, j, m.round);
    SubsetSize(m.got, due);
  }

  /** So a member that has not counted up to that number still waits. */
  lemma Undercounted(s: State, n: nat, chunks: nat, j: nat)
    requires Inv(s, n, chunks) && j < n
    ensures Waits(s, n, chunks, j) <==> (s.members[j].queued ==> |s.members[j].got| != chunks * (n - 1))
  {
    CountIsEnough(s, n, chunks, j);
  }

  lemma {:induction false} SubsetSize<T>(a: set<T>, b: set<T>)
    requires a <= b
    ensures |a| <= |b| && (|a| == |b| ==> a == b)
  {
    if a != {} {
      var x :| x in a;
      SubsetSize(a - {x}, b - {x});
      assert a == (a - {x}) + {x} && b == (b - {x}) + {x};
    }
  }

  // Progress.

  /** If every queued burst is on the bus and nobody is behind member `j` or still has to queue in its
      round, then a frame is there for `j` to consume. */
  lemma FrameAhead(s: State, n: nat, chunks: nat, j: nat)
    requires Inv(s, n, chunks) && j < n && s.members[j].queued && Waits(s, n, chunks, j)
    requires forall i :: 0 <= i < n ==>
               && s.members[i].outbox == {} && s.members[i].round >= s.members[j].round
               && (s.members[i].round == s.members[j].round ==> s.members[i].queued)
    ensures s.members[j].cursor < |s.log|
  {
    var m := s.members[j];
    assert Consumed(s, n, chunks, j, m);
    var due := Due(n, chunks, j, m.round);
    assert m.got <= due;
    var t :| t in due && t !in m.got;
    assert Sent(s, chunks, t.sender, s.members[t.sender]);
    assert t in s.at && !Before(s, t, m.cursor);
  }

  /** A member with the least round. */
  lemma {:induction false} Laggard(members: seq<Member>, m: nat) returns (j: nat)
    requires 0 < m <= |members|
    ensures j < m && forall i :: 0 <= i < m ==> members[j].round <= members[i].round
  {
    if m == 1 {
      j := 0;
    } else {
      j := Laggard(members, m - 1);
      if members[m - 1].round < members[j].round {
        j := m - 1;
      }
    }
  }

  // Backlog.

  /** Queued by another member and not yet consumed by `j`. */
  ghost predicate Outstanding(s: State, n: nat, chunks: nat, j: nat, t: Tag)
    requires |s.members| == n && j < n
  {
    && ValidTag(n, chunks, t) && t.sender != j
    && t.round < s.members[t.sender].Latest()
    && !Before(s, t, s.members[j].cursor)
  }

  lemma OutstandingRounds(s: State, n: nat, chunks: nat, j: nat, t: Tag)
    requires Inv(s, n, chunks) && j < n && Outstanding(s, n, chunks, j, t)
    ensures s.members[j].round <= t.round <= s.members[j].round + 1
  {
    assert Consumed(s, n, chunks, j, s.members[j]);
    Lockstep(s, n, chunks, j, t.sender);
  }

  /** However they are spread over bus and outboxes, at most two bursts per other member are ever
      outstanding for `j`. */
  lemma BacklogBound(s: State, n: nat, chunks: nat, j: nat, pending: set<Tag>)
    requires Inv(s, n, chunks) && j < n
    requires forall t :: t in pending ==> Outstanding(s, n, chunks, j, t)
    ensures |pending| <= 2 * (chunks * (n - 1))
  {
    var r := s.members[j].round;
    forall t | t in pending ensures t in Due(n, chunks, j, r) + Due(n, chunks, j, r + 1) {
      OutstandingRounds(s, n, chunks, j, t);
    }
    TwoRounds(n, chunks, j, r, pending);
  }

  lemma TwoRounds(n: nat, chunks: nat, j: nat, r: nat, pending: set<Tag>)
    requires j < n && pending <= Due(n, chunks, j, r) + Due(n, chunks, j, r + 1)
    ensures |pending| <= 2 * (chunks * (n - 1))
  {
    var a, b := Due(n, chunks, j, r), Due(n, chunks, j, r + 1);
    DueSize(n, chunks, j, r);
    DueSize(n, chunks, j, r + 1);
    SubsetSize(pending, a + b);
    assert |a + b| <= |a| + |b|;
  }

  /** The frames of other members in the log from position `p` on. */
  ghost function Unread(log: seq<Slot>, j: nat, p: nat): set<Tag>
    requires p <= |log|
    decreases |log| - p
  {
    if p == |log| then {} else Unread(log, j, p + 1) + FrameAt(log, j, p)
  }

  ghost function FrameAt(log: seq<Slot>, j: nat, p: nat): set<Tag>
    requires p < |log|
  {
    if log[p].Burst? && log[p].tag.sender != j then {log[p].tag} else {}
  }

  lemma {:induction false} UnreadAt(log: seq<Slot>, j: nat, p: nat, t: Tag) returns (q: nat)
    requires p <= |log| && t in Unread(log, j, p)
    ensures p <= q < |log| && log[q] == Burst(t) && t.sender != j
    decreases |log| - p
  {
    if t in FrameAt(log, j, p) {
      q := p;
    } else {
      q := UnreadAt(log, j, p + 1, t);
    }
  }

  /** Their number, as a buffer would count them. */
  ghost function UnreadCount(log: seq<Slot>, j: nat, p: nat): nat
    requires p <= |log|
    decreases |log| - p
  {
    if p == |log| then 0
    else UnreadCount(log, j, p + 1) + if log[p].Burst? && log[p].tag.sender != j then 1 else 0
  }

  lemma {:induction false} UnreadDistinct(s: State, n: nat, chunks: nat, j: nat, p: nat)
    requires LogInv(s, n, chunks) && p <= |s.log|
    ensures |Unread(s.log, j, p)| == UnreadCount(s.log, j, p)
    decreases |s.log| - p
  {
    if p < |s.log| {
      hide LogInv;
      UnreadDistinct(s, n, chunks, j, p + 1);
      if s.log[p].Burst? && s.log[p].tag.sender != j {
        NotLater(s, n, chunks, j, p);
      }
    }
  }

  lemma NotLater(s: State, n: nat, chunks: nat, j: nat, p: nat)
    requires LogInv(s, n, chunks) && p < |s.log| && s.log[p].Burst?
    ensures s.log[p].tag !in Unread(s.log, j, p + 1)
  {
    hide Unread;
    if s.log[p].tag in Unread(s.log, j, p + 1) {
      var q := UnreadAt(s.log, j, p + 1, s.log[p].tag);
    }
  }

  /** The burst frames waiting on the bus for `j` respect the same bound. */
  lemma UnreadBound(s: State, n: nat, chunks: nat, j: nat)
    requires Inv(s, n, chunks) && j < n
    ensures s.members[j].cursor <= |s.log|
    ensures UnreadCount(s.log, j, s.members[j].cursor) <= 2 * (chunks * (n - 1))
  {
    var cur := s.members[j].cursor;
    assert Consumed(s, n, chunks, j, s.members[j]);
    UnreadDistinct(s, n, chunks, j, cur);
    forall t | t in Unread(s.log, j, cur) ensures Outstanding(s, n, chunks, j, t) {
      var q := UnreadAt(s.log, j, cur, t);
      assert t in s.at;
      assert Sent(s, chunks, t.sender, s.members[t.sender]);
    }
    BacklogBound(s, n, chunks, j, Unread(s.log, j, cur));
  }
}
