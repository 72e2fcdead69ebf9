/** How a duty-cycle vector travels: split into frames of three values each, and added slot by slot
    into the receiver's accumulator. */
module Framing {
  import opened Globals
  import opened Vectors
  import opened FixedPoint
  import CanId
  import Sequences

  const CAN_CONSENSUS: bv8 := 6

  type Payload = d: seq<byte> | |d| == 8 witness [0, 0, 0, 0, 0, 0, 0, 0]

  datatype Frame = Frame(id: bv32, dlc: byte, data: Payload)

  /** Frames one vector takes. */
  function NumMessages(n: nat): (c: nat)
    requires 1 <= n
  {
    (n - 1) / 3 + 1
  }

  // The sender.

  /** The frame buffer after the first `i` slots of chunk `c` have been written over `buf`. */
  function Slots(n: nat, val: Vec, c: nat, i: nat, buf: Payload): Payload
    requires n <= |val| && i <= 3
  {
    if i == 0 then buf
    else
      var b := Slots(n, val, c, i - 1, buf);
      var pos := c * 3 + i - 1;
      if pos < n then b[(i - 1) * 2 := High(Quantise(val[pos]))][(i - 1) * 2 + 1 := Low(Quantise(val[pos]))] else b
  }

  function Chunk(n: nat, val: Vec, c: byte, buf: Payload): Payload
    requires n <= |val|
  {
    Slots(n, val, c, 3, buf)[6 := c]
  }

  /** The first `m` frames of a vector; each is written over what the buffer held before. */
  function Burst(n: nat, val: Vec, buf: Payload, m: nat): (frames: seq<Payload>)
    requires n <= |val| && m <= 256
    ensures |frames| == m
  {
    if m == 0 then []
    else
      var before := Burst(n, val, buf, m - 1);
      before + [Chunk(n, val, m - 1, if m == 1 then buf else before[m - 2])]
  }

  /** A vector as its receivers see it. */
  function AsReceived(val: Vec): (rx: Vec)
    ensures |rx| == |val|
  {
    seq(|val|, i requires 0 <= i < |val| => Received(val[i]))
  }

  /** `data` carries chunk `c` of a vector received as `rx`: the chunk number and, for every entry of
      the vector that falls in the chunk, its value. The slots past the vector's end are
      unconstrained. */
  ghost predicate Carries(n: nat, data: Payload, c: nat, rx: Vec)
    requires n <= |rx|
  {
    && data[6] == c
    && forall i :: 0 <= i < 3 && c * 3 + i < n ==> Dequantise(Join(data[i * 2], data[i * 2 + 1])) == rx[c * 3 + i]
  }

  lemma {:induction false} SlotsWritten(n: nat, val: Vec, c: nat, i: nat, buf: Payload)
    requires n <= |val| && i <= 3
    ensures var b := Slots(n, val, c, i, buf);
            forall j :: 0 <= j < i && c * 3 + j < n ==>
              b[j * 2] == High(Quantise(val[c * 3 + j])) && b[j * 2 + 1] == Low(Quantise(val[c * 3 + j]))
  {
    if i > 0 {
      SlotsWritten(n, val, c, i - 1, buf);
    }
  }

  lemma ChunkCarries(n: nat, val: Vec, c: byte, buf: Payload)
    requires n <= |val|
    ensures Carries(n, Chunk(n, val, c, buf), c, AsReceived(val))
  {
    SlotsWritten(n, val, c, 3, buf);
    var data := Chunk(n, val, c, buf);
    forall i | 0 <= i < 3 && c * 3 + i < n
      ensures Dequantise(Join(data[i * 2], data[i * 2 + 1])) == AsReceived(val)[c * 3 + i]
    {
      SplitJoin(Quantise(val[c * 3 + i]), data[i * 2], data[i * 2 + 1]);
    }
  }

  /** Frame `c` of a burst carries chunk `c`, whatever the buffer held before the first frame. */
  lemma {:induction false} BurstCarries(n: nat, val: Vec, buf: Payload, m: nat, c: nat)
    requires n <= |val| && c < m <= 256
    ensures Carries(n, Burst(n, val, buf, m)[c], c, AsReceived(val))
  {
    if c == m - 1 {
      var before := Burst(n, val, buf, m - 1);
      ChunkCarries(n, val, c, if m == 1 then buf else before[m - 2]);
    } else {
      BurstCarries(n, val, buf, m - 1, c);
    }
  }

  /** Every entry of the vector falls in exactly one of its frames. */
  lemma SlotInBurst(n: nat, s: nat)
    requires s < n
    ensures s / 3 < NumMessages(n) && s / 3 * 3 + s % 3 == s
  {
  }

  class Communication {
    const sendingData: array<byte>
    var bus: seq<Frame>

    ghost predicate Valid()
      reads this
    {
      sendingData.Length == 8
    }

    constructor ()
      ensures Valid() && fresh(sendingData) && bus == []
    {
      sendingData := new byte[8](_ => 0);
      bus := [];
    }

    /** The body of the send loop: chunk `msgI` written over what the buffer holds. */
    method FillChunk(n: nat, val: array<real>, msgI: byte)
      requires Valid() && n <= MAX_NUM_NODES && n <= val.Length
      modifies sendingData
      ensures sendingData[..] == Chunk(n, val[..n], msgI, old(sendingData[..]))
    {
      ghost var buf: Payload := sendingData[..];
      var i := 0;
      while i < 3 && msgI * 3 + i < n
        invariant 0 <= i <= 3
        invariant i == 0 || msgI * 3 + i <= n
        invariant sendingData[..] == Slots(n, val[..n], msgI, i, buf)
      {
        var aux := Quantise(val[msgI * 3 + i]);
        sendingData[i * 2] := High(aux);
        sendingData[i * 2 + 1] := Low(aux);
        i := i + 1;
      }
      SlotsPastEnd(n, val[..n], msgI, i, buf);
      sendingData[6] := msgI;
    }

    /** sendConsensusDutyCycle: one frame per three values. Bytes of the buffer that a frame does not
        write keep what earlier frames left in them. */
    method SendConsensusDutyCycle(nodeId: bv8, n: nat, val: array<real>)
      requires Valid() && 1 <= n <= MAX_NUM_NODES && n <= val.Length
      modifies this`bus, sendingData
      ensures bus == old(bus) + Frames(nodeId, Burst(n, val[..n], old(sendingData[..]), NumMessages(n)))
    {
      var numMessages := NumMessages(n);
      var msgI := 0;
      ghost var buf: Payload := sendingData[..];
      ghost var sent: seq<Payload> := [];
      while msgI < numMessages
        invariant 0 <= msgI <= numMessages <= 3
        invariant sent == Burst(n, val[..n], buf, msgI)
        invariant bus == old(bus) + Frames(nodeId, sent)
        invariant sendingData[..] == if msgI == 0 then buf else sent[msgI - 1]
      {
        FillChunk(n, val, msgI);
        var frame := Frame(CanId.MessageId(0, nodeId, CAN_CONSENSUS), 7, sendingData[..]);
        FramesAppend(nodeId, sent, frame.data);
        assert old(bus) + Frames(nodeId, sent + [frame.data]) == bus + [frame];
        bus := bus + [frame];
        sent := sent + [frame.data];
        msgI := msgI + 1;
      }
    }
  }

  /** The inner loop stops at the vector's end; the slots after it are left as they were. */
  lemma {:induction false} SlotsPastEnd(n: nat, val: Vec, c: nat, i: nat, buf: Payload)
    requires n <= |val| && i <= 3 && (i == 3 || c * 3 + i >= n)
    ensures Slots(n, val, c, 3, buf) == Slots(n, val, c, i, buf)
    decreases 3 - i
  {
    if i < 3 {
      SlotsPastEnd(n, val, c, i + 1, buf);
    }
  }

  /** The broadcast consensus frames with these payloads. */
  function Frames(nodeId: bv8, payloads: seq<Payload>): (frames: seq<Frame>)
    ensures |frames| == |payloads|
  {
    seq(|payloads|, i requires 0 <= i < |payloads| => Frame(CanId.MessageId(0, nodeId, CAN_CONSENSUS), 7, payloads[i]))
  }

  lemma FramesAppend(nodeId: bv8, payloads: seq<Payload>, data: Payload)
    ensures Frames(nodeId, payloads + [data])
         == Frames(nodeId, payloads) + [Frame(CanId.MessageId(0, nodeId, CAN_CONSENSUS), 7, data)]
  {
  }

  /** Byte by byte, the bytes of a frame hold the chunk's values, high byte first. */
  lemma {:induction false} BurstBytes(n: nat, val: Vec, buf: Payload, m: nat, c: nat, i: nat)
    requires n <= |val| && c < m <= 256 && i < 3 && c * 3 + i < n
    ensures var data := Burst(n, val, buf, m)[c];
            data[6] == c && data[i * 2] == High(Quantise(val[c * 3 + i])) && data[i * 2 + 1] == Low(Quantise(val[c * 3 + i]))
  {
    if c == m - 1 {
      var before := Burst(n, val, buf, m - 1);
      SlotsWritten(n, val, c, 3, if m == 1 then buf else before[m - 2]);
    } else {
      BurstBytes(n, val, buf, m - 1, c, i);
    }
  }

  /** What a vector looks like on the bus: as many frames of three values as it takes, with the extended
      identifier of a consensus broadcast and seven bytes each. Frame `c` names itself in its last byte, and
      its bytes 2i and 2i + 1 hold, modulo 65536, the whole number `r` nearest to 32767 / 300 of entry
      3c + i. */
  lemma OnTheWire(nodeId: bv8, n: nat, val: Vec, buf: Payload, c: nat, i: nat) returns (r: int)
    requires 1 <= n == |val| && n <= 768
    ensures var frames := Frames(nodeId, Burst(n, val, buf, NumMessages(n)));
            && 3 * (|frames| - 1) < n <= 3 * |frames|
            && (c < |frames| && i < 3 && c * 3 + i < n ==>
                  && frames[c].id >> 16 == 0x8000 && (frames[c].id >> 8) & 0xFF == nodeId as bv32 && frames[c].id & 0xFF == 6
                  && frames[c].dlc == 7 && frames[c].data[6] == c
                  && -0.5 <= r as real - val[c * 3 + i] * 32767.0 / 300.0 <= 0.5
                  && (frames[c].data[i * 2] * 256 + frames[c].data[i * 2 + 1] - r) % 65536 == 0)
  {
    r := 0;
    if c < NumMessages(n) && i < 3 && c * 3 + i < n {
      BroadcastId(nodeId);
      BurstBytes(n, val, buf, NumMessages(n), c, i);
      r := BytesSent(val[c * 3 + i]);
    }
  }

  lemma BroadcastId(nodeId: bv8)
    ensures var id := CanId.MessageId(0, nodeId, CAN_CONSENSUS);
            id >> 16 == 0x8000 && (id >> 8) & 0xFF == nodeId as bv32 && id & 0xFF == 6
  {
  }

  // The receiver.

  /** One of the three slots of a frame, added at its position; positions are 8-bit. The test lets
      position `n` through, one past the vector. */
  function AddSlot(n: nat, acc: Vec, data: Payload, i: nat): (r: Vec)
    requires n < |acc| && i < 3
    ensures |r| == |acc|
  {
    var pos := (data[6] * 3 + i) % 0x100;
    if pos <= n then acc[pos := acc[pos] + Dequantise(Join(data[i * 2], data[i * 2 + 1]))] else acc
  }

  /** The first `m` slots of a frame added. */
  function AddSlots(n: nat, acc: Vec, data: Payload, m: nat): (r: Vec)
    requires n < |acc| && m <= 3
    ensures |r| == |acc|
  {
    if m == 0 then acc else AddSlot(n, AddSlots(n, acc, data, m - 1), data, m - 1)
  }

  function AddFrame(n: nat, acc: Vec, data: Payload): (r: Vec)
    requires n < |acc|
    ensures |r| == |acc|
  {
    AddSlots(n, acc, data, 3)
  }

  /** Below `n`, a frame adds exactly its own chunk's values; stale bytes past the vector's end reach
      no entry below `n`. */
  lemma AddFrameEffect(n: nat, acc: Vec, data: Payload, c: nat, rx: Vec, s: nat)
    requires s < n <= |rx| && n < |acc| && c * 3 + 2 < 0x100
    requires Carries(n, data, c, rx)
    ensures AddFrame(n, acc, data)[s] == acc[s] + (if s / 3 == c then rx[s] else 0.0)
  {
    SlotEffect(n, acc, data, c, rx, 0, s);
    SlotEffect(n, AddSlots(n, acc, data, 1), data, c, rx, 1, s);
    SlotEffect(n, AddSlots(n, acc, data, 2), data, c, rx, 2, s);
    assert AddSlots(n, acc, data, 1) == AddSlot(n, acc, data, 0);
    assert AddSlots(n, acc, data, 2) == AddSlot(n, AddSlots(n, acc, data, 1), data, 1);
  }

  /** The three slots of any frame, byte by byte: value `i` goes to position 3 times the last byte plus `i`,
      modulo 256, if that is at most `n`, and nothing else changes. */
  lemma SlotsAreAdded(n: nat, acc: Vec, data: Payload, p: nat)
    requires p < |acc| && n < |acc|
    ensures var first: int := data[6] as int * 3;
            AddFrame(n, acc, data)[p] == acc[p] +
              if p > n then 0.0
              else if p == first % 256 then Value(data[0], data[1])
              else if p == (first + 1) % 256 then Value(data[2], data[3])
              else if p == (first + 2) % 256 then Value(data[4], data[5])
              else 0.0
  {
    hide Dequantise, Join, Value;
    ValueIs(data[0], data[1]);
    ValueIs(data[2], data[3]);
    ValueIs(data[4], data[5]);
    var one, two := AddSlots(n, acc, data, 1), AddSlots(n, acc, data, 2);
    assert AddSlots(n, acc, data, 0) == acc;
    assert one == AddSlot(n, acc, data, 0) && two == AddSlot(n, one, data, 1);
  }

  /** Two bytes as a signed number, high byte first, in steps of 300 / 32767. */
  ghost function Value(high: byte, low: byte): real {
    (high * 256 + low - if high >= 128 then 65536 else 0) as real * 300.0 / 32767.0
  }

  lemma ValueIs(high: byte, low: byte)
    ensures Dequantise(Join(high, low)) == Value(high, low)
  {
    BytesReceived(high, low);
  }

  lemma SlotEffect(n: nat, acc: Vec, data: Payload, c: nat, rx: Vec, i: nat, s: nat)
    requires s < n <= |rx| && n < |acc| && c * 3 + 2 < 0x100 && i < 3
    requires Carries(n, data, c, rx)
    ensures AddSlot(n, acc, data, i)[s] == acc[s] + (if s == c * 3 + i then rx[s] else 0.0)
  {
  }

  /** The test on the position keeps every frame of a burst inside the receiver's array exactly when
      there are fewer nodes than the array has entries. */
  lemma StaysInArray(n: nat)
    requires 1 <= n <= MAX_NUM_NODES
    ensures (forall c: nat, i: nat :: c < NumMessages(n) && i < 3 && SlotPosition(c, i) <= n ==> SlotPosition(c, i) < 7)
            <==> n < 7
  {
    if n == MAX_NUM_NODES {
      assert SlotPosition(2, 1) == n;
    }
  }

  function SlotPosition(c: nat, i: nat): nat { c * 3 + i }

  // Reassembly.

  /** One frame reaching a receiver, with the sender and chunk it came from. Only the payload is
      visible to the receiver's code. */
  datatype Delivery = Delivery(sender: nat, chunk: nat, data: Payload)

  function AddAll(n: nat, acc: Vec, ds: seq<Delivery>): (r: Vec)
    requires n < |acc|
    ensures |r| == |acc|
  {
    if ds == [] then acc else AddFrame(n, AddAll(n, acc, ds[..|ds| - 1]), ds[|ds| - 1].data)
  }

  type Tag = (nat, nat)

  function Tags(ds: seq<Delivery>): (tags: seq<Tag>)
    ensures |tags| == |ds|
  {
    seq(|ds|, k requires 0 <= k < |ds| => (ds[k].sender, ds[k].chunk))
  }

  /** Every chunk of `m` senders, in one particular order. */
  function AllTags(m: nat, chunks: nat): seq<Tag> {
    if m == 0 then [] else AllTags(m - 1, chunks) + SenderTags(m - 1, chunks)
  }

  function SenderTags(i: nat, chunks: nat): seq<Tag> {
    if chunks == 0 then [] else SenderTags(i, chunks - 1) + [(i, chunks - 1)]
  }

  /** What the chunk `tag` adds at entry `s`. */
  ghost function Share(rxs: seq<Vec>, s: nat, tag: Tag): real {
    if tag.0 < |rxs| && s < |rxs[tag.0]| && s / 3 == tag.1 then rxs[tag.0][s] else 0.0
  }

  ghost function Shares(rxs: seq<Vec>, s: nat, tags: seq<Tag>): real {
    if tags == [] then 0.0 else Shares(rxs, s, tags[..|tags| - 1]) + Share(rxs, s, tags[|tags| - 1])
  }

  /** The sum over the first `m` vectors of entry `s`. */
  ghost function Column(rxs: seq<Vec>, s: nat, m: nat): real
    requires m <= |rxs| && forall i :: 0 <= i < m ==> s < |rxs[i]|
  {
    if m == 0 then 0.0 else Column(rxs, s, m - 1) + rxs[m - 1][s]
  }

  ghost predicate Genuine(n: nat, rxs: seq<Vec>, d: Delivery) {
    && d.sender < |rxs|
    && n <= |rxs[d.sender]|
    && d.chunk * 3 + 2 < 0x100
    && Carries(n, d.data, d.chunk, rxs[d.sender])
  }

  lemma {:induction false} AddAllShares(n: nat, acc: Vec, rxs: seq<Vec>, ds: seq<Delivery>, s: nat)
    requires s < n < |acc|
    requires forall k :: 0 <= k < |ds| ==> Genuine(n, rxs, ds[k])
    ensures AddAll(n, acc, ds)[s] == acc[s] + Shares(rxs, s, Tags(ds))
  {
    if ds != [] {
      var init, last := ds[..|ds| - 1], ds[|ds| - 1];
      AddAllShares(n, acc, rxs, init, s);
      AddFrameEffect(n, AddAll(n, acc, init), last.data, last.chunk, rxs[last.sender], s);
      assert Tags(ds)[..|ds| - 1] == Tags(init);
    }
  }

  lemma {:induction false} SharesConcat(rxs: seq<Vec>, s: nat, a: seq<Tag>, b: seq<Tag>)
    ensures Shares(rxs, s, a + b) == Shares(rxs, s, a) + Shares(rxs, s, b)
  {
    if b == [] {
      assert a + b == a;
    } else {
      var ab := a + b;
      assert ab[..|ab| - 1] == a + b[..|b| - 1];
      SharesConcat(rxs, s, a, b[..|b| - 1]);
    }
  }

  lemma SharesRemove(rxs: seq<Vec>, s: nat, left: seq<Tag>, t: Tag, right: seq<Tag>)
    ensures Shares(rxs, s, left + [t] + right) == Shares(rxs, s, left + right) + Share(rxs, s, t)
  {
    SharesConcat(rxs, s, left + [t], right);
    SharesConcat(rxs, s, left, right);
    assert (left + [t])[..|left + [t]| - 1] == left;
  }

  /** The order of arrival does not matter. */
  lemma {:induction false} SharesPermuted(rxs: seq<Vec>, s: nat, a: seq<Tag>, b: seq<Tag>)
    requires multiset(a) == multiset(b)
    ensures Shares(rxs, s, a) == Shares(rxs, s, b)
  {
    if a == [] {
      assert |multiset(b)| == 0;
    } else {
      var init, t := a[..|a| - 1], a[|a| - 1];
      assert a == init + [t];
      var left, right := Sequences.TakeOut(init, t, b);
      SharesPermuted(rxs, s, init, left + right);
      SharesRemove(rxs, s, left, t, right);
    }
  }

  lemma {:induction false} SenderShares(rxs: seq<Vec>, s: nat, i: nat, chunks: nat)
    requires i < |rxs| && s < |rxs[i]|
    ensures Shares(rxs, s, SenderTags(i, chunks)) == if s / 3 < chunks then rxs[i][s] else 0.0
  {
    if chunks > 0 {
      SenderShares(rxs, s, i, chunks - 1);
      var tags := SenderTags(i, chunks);
      assert tags[..|tags| - 1] == SenderTags(i, chunks - 1);
    }
  }

  lemma {:induction false} AllShares(rxs: seq<Vec>, s: nat, m: nat, chunks: nat)
    requires m <= |rxs| && (forall i :: 0 <= i < m ==> s < |rxs[i]|) && s / 3 < chunks
    ensures Shares(rxs, s, AllTags(m, chunks)) == Column(rxs, s, m)
  {
    if m == 0 {
      assert AllTags(0, chunks) == [];
    } else {
      hide AllTags, Shares, Column;
      AllShares(rxs, s, m - 1, chunks);
      LastSender(rxs, s, m, chunks);
      ColumnStep(rxs, s, m);
    }
  }

  lemma ColumnStep(rxs: seq<Vec>, s: nat, m: nat)
    requires 0 < m <= |rxs| && forall i :: 0 <= i < m ==> s < |rxs[i]|
    ensures Column(rxs, s, m) == Column(rxs, s, m - 1) + rxs[m - 1][s]
  {
  }

  lemma LastSender(rxs: seq<Vec>, s: nat, m: nat, chunks: nat)
    requires 0 < m <= |rxs| && s < |rxs[m - 1]| && s / 3 < chunks
    ensures Shares(rxs, s, AllTags(m, chunks)) == Shares(rxs, s, AllTags(m - 1, chunks)) + rxs[m - 1][s]
  {
    hide Share, Shares, SenderTags;
    SenderShares(rxs, s, m - 1, chunks);
    SharesConcat(rxs, s, AllTags(m - 1, chunks), SenderTags(m - 1, chunks));
  }

  /** Whatever the order in which all chunks of all senders arrive, every entry below `n` gains
      exactly the sum of the senders' values as received. */
  lemma Reassembly(n: nat, acc: Vec, vals: seq<Vec>, ds: seq<Delivery>, s: nat)
    requires s < n < |acc|
    requires forall i :: 0 <= i < |vals| ==> |vals[i]| == n
    requires forall k :: 0 <= k < |ds| ==> Genuine(n, AllReceived(vals), ds[k])
    requires multiset(Tags(ds)) == multiset(AllTags(|vals|, NumMessages(n)))
    ensures AddAll(n, acc, ds)[s] == acc[s] + Column(AllReceived(vals), s, |vals|)
  {
    var rxs := AllReceived(vals);
    AddAllShares(n, acc, rxs, ds, s);
    SharesPermuted(rxs, s, Tags(ds), AllTags(|rxs|, NumMessages(n)));
    SlotInBurst(n, s);
    AllShares(rxs, s, |rxs|, NumMessages(n));
  }

  function AllReceived(vals: seq<Vec>): (rxs: seq<Vec>)
    ensures |rxs| == |vals|
  {
    seq(|vals|, i requires 0 <= i < |vals| => AsReceived(vals[i]))
  }

  /** So the gain is off by at most half a quantisation step per sender, if the values sent lie in
      the coded range. */
  lemma {:induction false} ColumnNear(vals: seq<Vec>, s: nat, m: nat)
    requires m <= |vals| && forall i :: 0 <= i < |vals| ==> s < |vals[i]| && -300.0 <= vals[i][s] <= 300.0
    ensures -(m as real * (150.0 / 32767.0)) <= Column(AllReceived(vals), s, m) - Column(vals, s, m) <= m as real * (150.0 / 32767.0)
  {
    if m > 0 {
      ColumnNear(vals, s, m - 1);
      ReceivedNear(vals[m - 1][s]);
      assert m as real * (150.0 / 32767.0) == (m - 1) as real * (150.0 / 32767.0) + 150.0 / 32767.0;
    }
  }
}
