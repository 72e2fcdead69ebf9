/** The hub's aggregator of commands to all nodes: one counter, one flag and one accumulator, and what
    goes out on the serial port. */
module SerialComm {
  import Sequences

  type byte = x: int | 0 <= x < 256

  function Sum(values: seq<real>): real {
    if values == [] then 0.0 else Sum(values[..|values| - 1]) + values[|values| - 1]
  }

  /** The fields, the number of nodes the node knows, and the responses sent so far. */
  datatype Fields = Fields(waiting: byte, running: bool, total: real, numTotalNodes: nat, responses: seq<real>)

  /** What executing a command does to the aggregator: a get leaves it alone, a reset clears it and
      forgets the other nodes. */
  datatype Kind = Get | Reset

  function ResetFields(s: Fields): Fields {
    s.(waiting := 0, running := false, total := 0.0, numTotalNodes := 1)
  }

  /** sendTotalIfAllValueForTotalReceived. */
  function SendTotalIfAll(s: Fields): Fields {
    if s.waiting == 0 then s.(responses := s.responses + [s.total], running := false) else s
  }

  /** The destination-0 branch of readSerial; `value` is the hub's own result. */
  function TotalCommand(s: Fields, kind: Kind, value: real): Fields
    requires 1 <= s.numTotalNodes <= 256
  {
    var started := s.(waiting := s.numTotalNodes - 1, running := true);
    var executed := if kind == Reset then ResetFields(started) else started;
    SendTotalIfAll(executed.(total := value))
  }

  /** receivedCommandResponseFromCAN; the counter is eight bits wide. */
  function ReceivedReply(s: Fields, value: real): Fields {
    if !s.running then s.(responses := s.responses + [value])
    else SendTotalIfAll(s.(total := s.total + value, waiting := (s.waiting - 1) % 256))
  }

  class SerialComm {
    var numNodesWaitingResult: byte
    var runningTotalCommand: bool
    var totalCommandResult: real
    var numTotalNodes: nat
    var serial: seq<real>

    ghost function State(): Fields
      reads this
    {
      Fields(numNodesWaitingResult, runningTotalCommand, totalCommandResult, numTotalNodes, serial)
    }

    method SendResponse(value: real)
      modifies this`serial
      ensures State() == old(State()).(responses := old(State()).responses + [value])
    {
      serial := serial + [value];
    }

    method SendTotalIfAllValueForTotalReceived()
      modifies this`serial, this`runningTotalCommand
      ensures State() == SendTotalIfAll(old(State()))
    {
      if numNodesWaitingResult == 0 {
        SendResponse(totalCommandResult);
        runningTotalCommand := false;
      }
    }

    /** executeCommand's effect on the aggregator. */
    method ExecuteCommand(kind: Kind)
      modifies this
      ensures State() == if kind == Reset then ResetFields(old(State())) else old(State())
    {
      if kind == Reset {
        numTotalNodes := 1;
        ResetSerialComm();
      }
    }

    method ResetSerialComm()
      modifies this`numNodesWaitingResult, this`runningTotalCommand, this`totalCommandResult
      ensures State() == ResetFields(old(State())).(numTotalNodes := old(State()).numTotalNodes)
    {
      numNodesWaitingResult := 0;
      runningTotalCommand := false;
      totalCommandResult := 0.0;
    }

    /** The destination-0 branch of readSerial. */
    method ReadTotalCommand(kind: Kind, ownResult: real)
      requires 1 <= numTotalNodes <= 256
      modifies this
      ensures State() == TotalCommand(old(State()), kind, ownResult)
    {
      numNodesWaitingResult := numTotalNodes - 1;
      runningTotalCommand := true;
      ExecuteCommand(kind);
      totalCommandResult := ownResult;
      SendTotalIfAllValueForTotalReceived();
    }

    method ReceivedCommandResponseFromCAN(value: real)
      modifies this`serial, this`runningTotalCommand, this`totalCommandResult, this`numNodesWaitingResult
      ensures State() == ReceivedReply(old(State()), value)
    {
      if !runningTotalCommand {
        SendResponse(value);
      } else {
        totalCommandResult := totalCommandResult + value;
        numNodesWaitingResult := (numNodesWaitingResult - 1) % 256;
        SendTotalIfAllValueForTotalReceived();
      }
    }
  }

  // One command and its replies.

  function Replies(s: Fields, values: seq<real>): Fields {
    if values == [] then s else ReceivedReply(Replies(s, values[..|values| - 1]), values[|values| - 1])
  }

  /** While replies are missing nothing is sent; the last one brings the total. */
  lemma {:induction false} Collecting(s: Fields, values: seq<real>)
    requires s.running && 1 <= s.waiting && |values| <= s.waiting
    ensures var s' := Replies(s, values);
            if |values| < s.waiting then
              s' == s.(waiting := s.waiting - |values|, total := s.total + Sum(values))
            else
              s' == s.(waiting := 0, running := false, total := s.total + Sum(values), responses := s.responses + [s.total + Sum(values)])
  {
    if values != [] {
      Collecting(s, values[..|values| - 1]);
    }
  }

  /** A get to all nodes sends exactly one response, the hub's value plus those of all others, after the
      last reply and not before; whatever state earlier commands left. */
  lemma TotalGet(s: Fields, value: real, replies: seq<real>, k: nat)
    requires 1 <= s.numTotalNodes <= 256 && |replies| == s.numTotalNodes - 1 && k <= |replies|
    ensures var after := Replies(TotalCommand(s, Get, value), replies[..k]);
            && after.responses == s.responses + (if k == |replies| then [value + Sum(replies)] else [])
            && (after.running <==> k < |replies|) && after.waiting == |replies| - k && after.numTotalNodes == s.numTotalNodes
  {
    hide ReceivedReply, ResetFields;
    assert replies[..|replies|] == replies;
    var started := TotalCommand(s, Get, value);
    if s.numTotalNodes > 1 {
      hide Sum, Replies;
      Collecting(started, replies[..k]);
    }
  }

  /** A sum is what its parts add up to. */
  lemma SumOfOne(x: real)
    ensures Sum([]) == 0.0 && Sum([x]) == x
  {
    assert [x][..0] == [];
  }

  /** With one other node, the response is the sum of the two values. */
  lemma TotalOfTwo(s: Fields, value: real, reply: real)
    requires s.numTotalNodes == 2
    ensures Replies(TotalCommand(s, Get, value), [reply]).responses == s.responses + [value + reply]
  {
    AllReplies(s, value, [reply]);
    SumOfOne(reply);
  }

  /** The replies may come in any order. */
  lemma {:induction false} SumPermuted(a: seq<real>, b: seq<real>)
    requires multiset(a) == multiset(b)
    ensures Sum(a) == Sum(b)
  {
    if a == [] {
      assert |multiset(b)| == 0;
    } else {
      var init, x := a[..|a| - 1], a[|a| - 1];
      assert a == init + [x];
      var left, right := Sequences.TakeOut(init, x, b);
      SumPermuted(init, left + right);
      SumWithout(left, x, right);
    }
  }

  lemma {:induction false} SumConcat(a: seq<real>, b: seq<real>)
    ensures Sum(a + b) == Sum(a) + Sum(b)
  {
    if b == [] {
      assert a + b == a;
    } else {
      assert (a + b)[..|a + b| - 1] == a + b[..|b| - 1];
      SumConcat(a, b[..|b| - 1]);
    }
  }

  lemma SumWithout(left: seq<real>, x: real, right: seq<real>)
    ensures Sum(left + [x] + right) == Sum(left + right) + x
  {
    SumConcat(left + [x], right);
    SumConcat(left, [x]);
    SumConcat(left, right);
    assert [x][..0] == [];
  }

  lemma AllReplies(s: Fields, value: real, replies: seq<real>)
    requires 1 <= s.numTotalNodes <= 256 && |replies| == s.numTotalNodes - 1
    ensures Replies(TotalCommand(s, Get, value), replies).responses == s.responses + [value + Sum(replies)]
  {
    assert replies[..|replies|] == replies;
    TotalGet(s, value, replies, |replies|);
  }

  /** The same total goes out whatever the order of the replies. */
  lemma TotalGetAnyOrder(s: Fields, value: real, replies: seq<real>, replies': seq<real>)
    requires 1 <= s.numTotalNodes <= 256 && |replies| == s.numTotalNodes - 1 && multiset(replies') == multiset(replies)
    ensures Replies(TotalCommand(s, Get, value), replies').responses == Replies(TotalCommand(s, Get, value), replies).responses
  {
    Sequences.SameLength(replies, replies');
    SumPermuted(replies, replies');
    AllReplies(s, value, replies);
    AllReplies(s, value, replies');
  }

  /** A reset to all nodes clears the aggregator in the middle of its own command: the hub's own result
      goes out at once, and so does every reply. */
  lemma {:induction false} TotalReset(s: Fields, value: real, replies: seq<real>)
    requires 1 <= s.numTotalNodes <= 256
    ensures var after := Replies(TotalCommand(s, Reset, value), replies);
            && after.responses == s.responses + [value] + replies
            && (|replies| == s.numTotalNodes - 1 ==> |after.responses| == |s.responses| + s.numTotalNodes)
            && !after.running && after.waiting == 0 && after.numTotalNodes == 1
  {
    if replies != [] {
      TotalReset(s, value, replies[..|replies| - 1]);
      assert s.responses + [value] + replies == s.responses + [value] + replies[..|replies| - 1] + [replies[|replies| - 1]];
    }
  }
}
