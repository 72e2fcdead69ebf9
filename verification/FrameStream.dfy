/** The ring buffer between the interrupt handler and the main loop: ten slots, two indices, and a lock
    that tells a full buffer from an empty one. */
module FrameStream {
  const CAPACITY: nat := 10

  function Wrap(i: nat): (w: nat)
    requires i < 2 * CAPACITY
    ensures w < CAPACITY
  {
    if i < CAPACITY then i else i - CAPACITY
  }

  /** `n` slots from slot `r` on, around the ring. */
  ghost function Ring<F>(b: seq<F>, r: nat, n: nat): (q: seq<F>)
    requires |b| == CAPACITY && r < CAPACITY && n <= CAPACITY
    ensures |q| == n && forall i :: 0 <= i < n ==> q[i] == b[Wrap(r + i)]
  {
    seq(n, i requires 0 <= i < n => b[Wrap(r + i)])
  }

  lemma RingPut<F>(b: seq<F>, r: nat, n: nat, f: F)
    requires |b| == CAPACITY && r < CAPACITY && n < CAPACITY
    ensures Ring(b[Wrap(r + n) := f], r, n + 1) == Ring(b, r, n) + [f]
  {
    var q := Ring(b[Wrap(r + n) := f], r, n + 1);
    forall i | 0 <= i < n ensures q[i] == Ring(b, r, n)[i] {
      assert Wrap(r + i) != Wrap(r + n);
    }
  }

  lemma RingGet<F>(b: seq<F>, r: nat, n: nat)
    requires |b| == CAPACITY && r < CAPACITY && 0 < n <= CAPACITY
    ensures Ring(b, r, n)[0] == b[r] && Ring(b, Wrap(r + 1), n - 1) == Ring(b, r, n)[1..]
  {
    var q := Ring(b, Wrap(r + 1), n - 1);
    forall i | 0 <= i < n - 1 ensures q[i] == Ring(b, r, n)[1..][i] {
      assert Wrap(Wrap(r + 1) + i) == Wrap(r + (i + 1));
    }
  }

  // Histories of calls, on the abstract queue.

  datatype Call<F> = Put(frame: F) | Get

  /** The queue, the frames accepted and the frames delivered so far, and how many were refused. */
  datatype History<F> = History(queue: seq<F>, accepted: seq<F>, delivered: seq<F>, refused: nat)

  function After<F>(h: History<F>, c: Call<F>): History<F> {
    match c
    case Put(f) =>
      if |h.queue| < CAPACITY then h.(queue := h.queue + [f], accepted := h.accepted + [f]) else h.(refused := h.refused + 1)
    case Get =>
      if h.queue != [] then h.(queue := h.queue[1..], delivered := h.delivered + [h.queue[0]]) else h
  }

  function AfterAll<F>(calls: seq<Call<F>>): History<F> {
    if calls == [] then History([], [], [], 0)
    else After(AfterAll(calls[..|calls| - 1]), calls[|calls| - 1])
  }

  function Puts<F>(calls: seq<Call<F>>): nat {
    if calls == [] then 0 else Puts(calls[..|calls| - 1]) + if calls[|calls| - 1].Put? then 1 else 0
  }

  /** For every interleaving of calls, what was accepted is what was delivered followed by what is held:
      no accepted frame is lost, doubled or overtaken, and every other frame was refused. */
  lemma {:induction false} Fifo<F>(calls: seq<Call<F>>)
    ensures var h := AfterAll(calls);
            && h.accepted == h.delivered + h.queue
            && |h.queue| <= 10
            && |h.accepted| + h.refused == Puts(calls)
  {
    if calls != [] {
      Fifo(calls[..|calls| - 1]);
    }
  }

  class CanFrameStream<F(0)> {
    const cfBuffer: array<F>
    var readIndex: nat
    var writeIndex: nat
    var writeLock: bool
    ghost var history: History<F>

    /** The queue the ring holds is the one the history of calls leads to. */
    ghost predicate Valid()
      reads this, cfBuffer
    {
      Indices() && history.queue == Queue()
    }

    ghost predicate Indices()
      reads this
    {
      && cfBuffer.Length == CAPACITY && readIndex < CAPACITY && writeIndex < CAPACITY
      && (writeLock ==> readIndex == writeIndex)
    }

    ghost function Size(): (n: nat)
      requires Indices()
      reads this
      ensures n <= CAPACITY && (n == CAPACITY <==> writeLock) && (n == 0 <==> !writeLock && readIndex == writeIndex)
      ensures writeIndex == Wrap(readIndex + n)
    {
      if writeLock then CAPACITY
      else if readIndex <= writeIndex then writeIndex - readIndex
      else writeIndex + CAPACITY - readIndex
    }

    /** The frames held, oldest first. */
    ghost function Queue(): (q: seq<F>)
      requires Indices()
      reads this, cfBuffer
      ensures |q| == Size()
    {
      Ring(cfBuffer[..], readIndex, Size())
    }

    constructor ()
      ensures Valid() && fresh(cfBuffer) && Queue() == [] && history == AfterAll([])
    {
      cfBuffer := new F[CAPACITY];
      readIndex, writeIndex, writeLock := 0, 0, false;
      history := AfterAll([]);
    }

    method Put(frame: F) returns (ok: bool)
      requires Valid()
      modifies this`writeIndex, this`writeLock, this`history, cfBuffer
      ensures Valid() && history == After(old(history), Call.Put(frame))
      ensures ok <==> |old(Queue())| < 10
      ensures Queue() == if ok then old(Queue()) + [frame] else old(Queue())
    {
      ok := Store(frame);
      history := After(history, Call.Put(frame));
    }

    method Store(frame: F) returns (ok: bool)
      requires Indices()
      modifies this`writeIndex, this`writeLock, cfBuffer
      ensures Indices()
      ensures ok <==> |old(Queue())| < 10
      ensures Queue() == if ok then old(Queue()) + [frame] else old(Queue())
    {
      hide Ring;
      if writeLock {
        return false;
      }
      RingPut(cfBuffer[..], readIndex, Size(), frame);
      cfBuffer[writeIndex] := frame;
      writeIndex := writeIndex + 1;
      writeIndex := writeIndex % CAPACITY;
      if writeIndex == readIndex {
        writeLock := true;
      }
      assert Size() == old(Size()) + 1;
      assert cfBuffer[..] == old(cfBuffer[..])[old(writeIndex) := frame];
      return true;
    }

    /** `frame` keeps its value when there is nothing to get. */
    method Get(before: F) returns (ok: bool, frame: F)
      requires Valid()
      modifies this`readIndex, this`writeLock, this`history
      ensures Valid() && history == After(old(history), Call.Get)
      ensures ok <==> old(Queue()) != []
      ensures ok ==> frame == old(Queue())[0] && Queue() == old(Queue())[1..]
      ensures !ok ==> frame == before && Queue() == old(Queue())
    {
      hide Ring;
      frame := before;
      history := After(history, Call.Get);
      if !writeLock && readIndex == writeIndex {
        return false, frame;
      }
      RingGet(cfBuffer[..], readIndex, Size());
      assert Wrap(readIndex + 1) == (readIndex + 1) % CAPACITY;
      if writeLock && readIndex == writeIndex {
        writeLock := false;
      }
      frame := cfBuffer[readIndex];
      readIndex := readIndex + 1;
      readIndex := readIndex % CAPACITY;
      assert Size() == old(Size()) - 1;
      return true, frame;
    }
  }
}
