/** The server's buffer of the last minute's readings: per node an ordered map from second to readings,
    cleaned only when the second changes, and only up to the first recent entry. */
module LastMinuteBuffer {
  const WINDOW: int := 60

  datatype FrequentDataValues = FrequentDataValues(pwm: nat, iluminance: real)

  /** One entry of an ordered map: the readings added in second `time`. */
  datatype Entry = Entry(time: int, values: seq<FrequentDataValues>)

  /** An ordered map, as its entries in key order. */
  type NodeBuffer = seq<Entry>

  ghost predicate Ordered(b: NodeBuffer) {
    forall i, j :: 0 <= i < j < |b| ==> b[i].time < b[j].time
  }

  type Buffers = map<nat, NodeBuffer>

  function Of(bs: Buffers, node: nat): NodeBuffer {
    if node in bs then bs[node] else []
  }

  /** bs[time].push_back(value): the key's place is found in order, and made if it is missing. */
  function PushBack(b: NodeBuffer, time: int, value: FrequentDataValues): NodeBuffer {
    if b == [] || time < b[0].time then [Entry(time, [value])] + b
    else if b[0].time == time then [Entry(time, b[0].values + [value])] + b[1..]
    else [b[0]] + PushBack(b[1..], time, value)
  }

  /** The eviction loop on one ordered map: erase from the front until an entry is recent. */
  function Evicted(b: NodeBuffer, threshold: int): NodeBuffer {
    if b != [] && b[0].time < threshold then Evicted(b[1..], threshold) else b
  }

  function EvictedAll(bs: Buffers, threshold: int): (bs': Buffers)
    ensures bs'.Keys == bs.Keys && forall node :: node in bs ==> bs'[node] == Evicted(bs[node], threshold)
  {
    map node | node in bs :: Evicted(bs[node], threshold)
  }

  /** The fields. */
  datatype Fields = Fields(lastTimeAddedEntry: int, lastMinuteBuffer: Buffers)

  /** addToLastMinuteBuffer when the clock reads `now`. */
  function Added(s: Fields, now: int, node: nat, value: FrequentDataValues): Fields {
    var bs := if now != s.lastTimeAddedEntry then EvictedAll(s.lastMinuteBuffer, now - WINDOW) else s.lastMinuteBuffer;
    Fields(now, bs[node := PushBack(Of(bs, node), now, value)])
  }

  class LastMinuteBuffer {
    var lastTimeAddedEntry: int
    var lastMinuteBuffer: Buffers

    ghost function State(): Fields
      reads this
    {
      Fields(lastTimeAddedEntry, lastMinuteBuffer)
    }

    /** The time of the last add is not initialised. */
    constructor (garbage: int)
      ensures State() == Fields(garbage, map[])
    {
      lastTimeAddedEntry, lastMinuteBuffer := garbage, map[];
    }

    method AddToLastMinuteBuffer(timeNow: int, nodeId: nat, values: FrequentDataValues)
      modifies this
      ensures State() == Added(old(State()), timeNow, nodeId, values)
    {
      if timeNow != lastTimeAddedEntry {
        RemoveOldLastMinuteBufferEntries(timeNow);
      }
      lastTimeAddedEntry := timeNow;
      var nodeBuffer := Insert(Of(lastMinuteBuffer, nodeId), timeNow, values);
      lastMinuteBuffer := lastMinuteBuffer[nodeId := nodeBuffer];
    }

    /** The ordered map's insertion. */
    method Insert(b: NodeBuffer, time: int, value: FrequentDataValues) returns (b': NodeBuffer)
      ensures b' == PushBack(b, time, value)
    {
      var i := 0;
      while i < |b| && b[i].time < time
        invariant i <= |b|
        invariant PushBack(b, time, value) == b[..i] + PushBack(b[i..], time, value)
      {
        PushBackSkip(b, i, time, value);
        i := i + 1;
      }
      if i < |b| && b[i].time == time {
        b' := b[..i] + [Entry(time, b[i].values + [value])] + b[i + 1..];
      } else {
        b' := b[..i] + [Entry(time, [value])] + b[i..];
      }
    }

    method RemoveOldLastMinuteBufferEntries(timeNow: int)
      modifies this`lastMinuteBuffer
      ensures lastMinuteBuffer == EvictedAll(old(lastMinuteBuffer), timeNow - WINDOW)
    {
      var timeThreshold := timeNow - WINDOW;
      ghost var bs := lastMinuteBuffer;
      var todo := lastMinuteBuffer.Keys;
      while todo != {}
        invariant todo <= bs.Keys && lastMinuteBuffer.Keys == bs.Keys
        invariant forall node :: node in bs ==> lastMinuteBuffer[node] == if node in todo then bs[node] else Evicted(bs[node], timeThreshold)
        decreases todo
      {
        var node :| node in todo;
        todo := todo - {node};
        var nodeBuffer := lastMinuteBuffer[node];
        while nodeBuffer != []
          invariant Evicted(nodeBuffer, timeThreshold) == Evicted(bs[node], timeThreshold)
        {
          if nodeBuffer[0].time < timeThreshold {
            nodeBuffer := nodeBuffer[1..];
          } else {
            break;
          }
        }
        lastMinuteBuffer := lastMinuteBuffer[node := nodeBuffer];
      }
    }
  }

  lemma PushBackSkip(b: NodeBuffer, i: nat, time: int, value: FrequentDataValues)
    requires i < |b| && b[i].time < time
    ensures b[..i] + PushBack(b[i..], time, value) == b[..i + 1] + PushBack(b[i + 1..], time, value)
  {
    assert b[i..][1..] == b[i + 1..] && b[..i + 1] == b[..i] + [b[i]];
  }

  // Against the whole history.

  /** One call of addToLastMinuteBuffer. */
  datatype Reading = Reading(time: int, node: nat, value: FrequentDataValues)

  function AddAll(s: Fields, history: seq<Reading>): Fields {
    if history == [] then s
    else
      var r := history[|history| - 1];
      Added(AddAll(s, history[..|history| - 1]), r.time, r.node, r.value)
  }

  ghost predicate NonDecreasing(history: seq<Reading>) {
    forall i, j :: 0 <= i < j < |history| ==> history[i].time <= history[j].time
  }

  /** A node's readings since `threshold`, in the order they came. */
  function Recent(history: seq<Reading>, node: nat, threshold: int): seq<(int, FrequentDataValues)> {
    if history == [] then []
    else
      var r := history[|history| - 1];
      Recent(history[..|history| - 1], node, threshold) + if r.node == node && r.time >= threshold then [(r.time, r.value)] else []
  }

  /** The readings a node's buffer holds, in its order. */
  function Contents(b: NodeBuffer): seq<(int, FrequentDataValues)> {
    if b == [] then [] else Contents(b[..|b| - 1]) + Stamped(b[|b| - 1].time, b[|b| - 1].values)
  }

  function Stamped(time: int, values: seq<FrequentDataValues>): (r: seq<(int, FrequentDataValues)>)
    ensures |r| == |values|
  {
    seq(|values|, i requires 0 <= i < |values| => (time, values[i]))
  }

  /** The part of a buffer that is recent. */
  function Since(c: seq<(int, FrequentDataValues)>, threshold: int): seq<(int, FrequentDataValues)> {
    if c == [] then []
    else Since(c[..|c| - 1], threshold) + if c[|c| - 1].0 >= threshold then [c[|c| - 1]] else []
  }

  lemma {:induction false} SinceConcat(a: seq<(int, FrequentDataValues)>, b: seq<(int, FrequentDataValues)>, t: int)
    ensures Since(a + b, t) == Since(a, t) + Since(b, t)
  {
    if b == [] {
      assert a + b == a;
    } else {
      assert (a + b)[..|a + b| - 1] == a + b[..|b| - 1];
      SinceConcat(a, b[..|b| - 1], t);
    }
  }

  lemma {:induction false} SinceOne(time: int, values: seq<FrequentDataValues>, t: int)
    ensures Since(Stamped(time, values), t) == if time >= t then Stamped(time, values) else []
  {
    if values != [] {
      var init := values[..|values| - 1];
      StampedLast(time, values);
      hide Stamped;
      SinceOne(time, init, t);
      var c := Stamped(time, init) + [(time, values[|values| - 1])];
      assert c[..|c| - 1] == Stamped(time, init);
    }
  }

  lemma StampedLast(time: int, values: seq<FrequentDataValues>)
    requires values != []
    ensures Stamped(time, values) == Stamped(time, values[..|values| - 1]) + [(time, values[|values| - 1])]
  {
  }

  /** Stopping at the first recent entry loses nothing: in an ordered map everything after it is recent
      too. */
  lemma {:induction false} EvictedIsSince(b: NodeBuffer, t: int)
    requires Ordered(b)
    ensures Ordered(Evicted(b, t)) && Contents(Evicted(b, t)) == Since(Contents(b), t)
  {
    if b != [] && b[0].time < t {
      EvictedIsSince(b[1..], t);
      ContentsFirst(b);
      SinceConcat(Stamped(b[0].time, b[0].values), Contents(b[1..]), t);
      SinceOne(b[0].time, b[0].values, t);
    } else {
      AllRecent(b, t);
    }
  }

  lemma {:induction false} AllRecent(b: NodeBuffer, t: int)
    requires forall i :: 0 <= i < |b| ==> b[i].time >= t
    ensures Since(Contents(b), t) == Contents(b)
  {
    if b != [] {
      var last := b[|b| - 1];
      AllRecent(b[..|b| - 1], t);
      SinceConcat(Contents(b[..|b| - 1]), Stamped(last.time, last.values), t);
      SinceOne(last.time, last.values, t);
    }
  }

  lemma {:induction false} ContentsFirst(b: NodeBuffer)
    requires b != []
    ensures Contents(b) == Stamped(b[0].time, b[0].values) + Contents(b[1..])
  {
    if |b| == 1 {
      assert b[..0] == [] && b[1..] == [];
    } else {
      assert b[..|b| - 1][1..] == b[1..][..|b| - 2];
      ContentsFirst(b[..|b| - 1]);
    }
  }

  lemma OneEntry(b: NodeBuffer, time: int)
    requires Ordered(b) && b != [] && b[0].time == time && forall i :: 0 <= i < |b| ==> b[i].time <= time
    ensures |b| == 1
  {
    assert b[|b| - 1].time <= time;
  }

  lemma EmptyContents()
    ensures Contents([]) == []
  {
  }

  /** With the clock not before any entry, a new reading goes to the end. */
  lemma {:induction false} PushBackAppends(b: NodeBuffer, time: int, value: FrequentDataValues)
    requires Ordered(b) && forall i :: 0 <= i < |b| ==> b[i].time <= time
    ensures var b' := PushBack(b, time, value);
            && Ordered(b') && Contents(b') == Contents(b) + [(time, value)]
            && forall i :: 0 <= i < |b'| ==> b'[i].time <= time
    ensures b != [] ==> PushBack(b, time, value)[0].time == b[0].time
  {
    var b' := PushBack(b, time, value);
    hide Contents;
    EmptyContents();
    if b == [] {
      ContentsFirst(b');
      assert Stamped(time, [value]) == [(time, value)];
    } else if b[0].time == time {
      OneEntry(b, time);
      assert b[1..] == [] && b'[1..] == [];
      ContentsFirst(b');
      ContentsFirst(b);
      assert Stamped(time, b[0].values + [value]) == Stamped(time, b[0].values) + [(time, value)];
    } else {
      PushBackAppends(b[1..], time, value);
      assert b'[1..] == PushBack(b[1..], time, value);
      ContentsFirst(b');
      ContentsFirst(b);
    }
  }

  lemma {:induction false} RecentSince(history: seq<Reading>, node: nat, t0: int, t: int)
    requires t0 <= t
    ensures Since(Recent(history, node, t0), t) == Recent(history, node, t)
  {
    if history != [] {
      var r := history[|history| - 1];
      RecentSince(history[..|history| - 1], node, t0, t);
      var more := if r.node == node && r.time >= t0 then [(r.time, r.value)] else [];
      SinceConcat(Recent(history[..|history| - 1], node, t0), more, t);
      if more != [] {
        assert more[..0] == [];
      }
    }
  }

  /** What holds of every node's buffer after a history. */
  ghost predicate Window(s: Fields, history: seq<Reading>) {
    forall node: nat :: WindowOf(Of(s.lastMinuteBuffer, node), history, node, s.lastTimeAddedEntry)
  }

  ghost predicate WindowOf(b: NodeBuffer, history: seq<Reading>, node: nat, last: int) {
    && Ordered(b)
    && (forall i :: 0 <= i < |b| ==> b[i].time <= last)
    && Contents(b) == Recent(history, node, last - 60)
  }

  /** The refinement: after any history of adds under a clock that never goes back, every node's buffer
      holds exactly that node's readings of the last 60 seconds, in order. The uninitialised time of
      the last add does not matter. */
  lemma {:induction false} BufferIsWindow(garbage: int, history: seq<Reading>)
    requires NonDecreasing(history) && history != []
    ensures Window(AddAll(Fields(garbage, map[]), history), history)
    ensures AddAll(Fields(garbage, map[]), history).lastTimeAddedEntry == history[|history| - 1].time
  {
    var init, r := history[..|history| - 1], history[|history| - 1];
    var s := AddAll(Fields(garbage, map[]), init);
    assert history == init + [r];
    if init == [] {
      assert s == Fields(garbage, map[]) && history == [r];
      FirstWindow(garbage, r);
    } else {
      BufferIsWindow(garbage, init);
      hide Window, Added;
      NextWindow(s, init, r);
    }
  }

  lemma FirstWindow(garbage: int, r: Reading)
    ensures Window(Added(Fields(garbage, map[]), r.time, r.node, r.value), [r])
  {
    hide WindowOf;
    var s' := Added(Fields(garbage, map[]), r.time, r.node, r.value);
    forall node: nat ensures WindowOf(Of(s'.lastMinuteBuffer, node), [r], node, r.time) {
      FirstAdd(garbage, r, node);
    }
  }

  lemma NextWindow(s: Fields, init: seq<Reading>, r: Reading)
    requires Window(s, init) && s.lastTimeAddedEntry <= r.time
    ensures Window(Added(s, r.time, r.node, r.value), init + [r])
  {
    hide WindowOf;
    var s' := Added(s, r.time, r.node, r.value);
    forall node: nat ensures WindowOf(Of(s'.lastMinuteBuffer, node), init + [r], node, r.time) {
      assert WindowOf(Of(s.lastMinuteBuffer, node), init, node, s.lastTimeAddedEntry);
      Cleaned(Of(s.lastMinuteBuffer, node), init, node, s.lastTimeAddedEntry, r.time);
      NextAdd(s, init, r, node);
    }
  }

  lemma FirstAdd(garbage: int, r: Reading, node: nat)
    ensures WindowOf(Of(Added(Fields(garbage, map[]), r.time, r.node, r.value).lastMinuteBuffer, node), [r], node, r.time)
  {
    hide PushBack, Evicted;
    assert EvictedAll(map[], r.time - WINDOW) == map[];
    assert WindowOf([], [], node, r.time);
    Appended([], [], r, node);
  }

  /** Adding a reading to a buffer that is a window keeps it one. */
  lemma Appended(b: NodeBuffer, init: seq<Reading>, r: Reading, node: nat)
    requires WindowOf(b, init, node, r.time)
    ensures WindowOf(if node == r.node then PushBack(b, r.time, r.value) else b, init + [r], node, r.time)
    ensures [] + [r] == [r]
  {
    hide PushBack, Contents;
    assert (init + [r])[..|init + [r]| - 1] == init;
    if node == r.node {
      PushBackAppends(b, r.time, r.value);
    }
  }

  /** A node's buffer once the cleaning due at time `now` is done. */
  ghost function CleanedOf(b: NodeBuffer, last: int, now: int): NodeBuffer {
    if now != last then Evicted(b, now - WINDOW) else b
  }

  lemma Cleaned(b: NodeBuffer, history: seq<Reading>, node: nat, last: int, now: int)
    requires WindowOf(b, history, node, last) && last <= now
    ensures WindowOf(CleanedOf(b, last, now), history, node, now)
  {
    EvictedIsSince(b, now - WINDOW);
    RecentSince(history, node, last - WINDOW, now - WINDOW);
    EvictedTimes(b, now - WINDOW, last);
  }

  lemma {:induction false} EvictedTimes(b: NodeBuffer, t: int, last: int)
    requires forall i :: 0 <= i < |b| ==> b[i].time <= last
    ensures forall i :: 0 <= i < |Evicted(b, t)| ==> Evicted(b, t)[i].time <= last
  {
    if b != [] && b[0].time < t {
      EvictedTimes(b[1..], t, last);
    }
  }

  lemma NextAdd(s: Fields, init: seq<Reading>, r: Reading, node: nat)
    requires WindowOf(CleanedOf(Of(s.lastMinuteBuffer, node), s.lastTimeAddedEntry, r.time), init, node, r.time)
    ensures WindowOf(Of(Added(s, r.time, r.node, r.value).lastMinuteBuffer, node), init + [r], node, r.time)
  {
    hide PushBack, WindowOf;
    Appended(CleanedOf(Of(s.lastMinuteBuffer, node), s.lastTimeAddedEntry, r.time), init, r, node);
  }
}
