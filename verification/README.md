# Verification of the distributed lighting controller

The repository is the firmware of up to seven Arduino luminaires on one CAN bus, and a PC server. The
nodes register each other, calibrate how much each LED lights each desk, and then run fifty rounds of a
distributed optimisation (ADMM) that decides how bright each LED shall be. This project models that
firmware in Dafny and proves what its protocols and algorithms guarantee. `dafny verify dfyconfig.toml`
checks all of it.

The state that the firmware changes in place is modelled by classes and arrays (`Solver`, `Framing`,
`ConsensusNode`, `CalibrationNode`, `Registry`, `FrameStream`, `CanId`, `Controller`,
`LastMinuteBuffer`, `SerialComm`). Each method is proved equal to a function on values; the theorems are
about these functions, about runs of several nodes that each execute them, and about histories of calls.

- **The local solver** (`Solver`, `Vectors`). Every node solves a strictly convex quadratic program with
  one linear and two box constraints in closed form: six candidates, a feasibility check with a tolerance
  and a comparison of costs. `SolveIsOptimal` proves the choice globally optimal for every problem with
  rho > 0, whatever the gains are, through optimality certificates (multipliers); `SentIsOptimal` carries
  this over to every vector sent in a run.
- **Framing** (`FixedPoint`, `Framing`, `CanId`). The 16-bit fixed-point code, the split of a vector into
  frames of three values, the receiver's accumulation in any order of arrival, the identifier layout and
  the masks and filters.
- **The barrier** (`Barrier`). The skeleton shared by both protocols: members broadcast bursts over one
  totally ordered bus and pass a round when they have counted enough frames, although frames carry no
  round.
- **Consensus** (`ConsensusNode`, `ConsensusProtocol`, `ConsensusResults`, `ConsensusDrift`,
  `ConsensusLiveness`). n nodes over the barrier: lockstep, exact sums, drift, progress, termination,
  backlog, and the final reference. Three files look at what surrounds the rounds: the ring buffers
  between bus and main loop (`ConsensusBuffers`), nodes that consume frames at any time
  (`ConsensusOverrun`), and nodes that call `init()` one after the other (`ConsensusHandOver`).
  `ConsensusWitness` holds a run that shows the divisor at work.
- **Calibration** (`CalibrationNode`, `CalibrationProtocol`, `CalibrationResults`,
  `CalibrationLiveness`). n nodes over the same barrier with one READY frame per round and LED frames in
  between: agreement on the phase, one gain matrix, exactly which residuals arrive, termination.
  `SlopesAreFound` says what the matrix holds: the slope of each node's light in each LED's level.
- **Smaller components** (`Registry`, `FrameStream`, `Controller`, `LastMinuteBuffer`, `SerialComm`).

## Assumptions

Floats are reals; rounding happens only in the 16-bit code of the bus. The bus delivers every frame, in
one order, to every other node. Within one burst the frames may win the bus in any order. All nodes agree
on their number and on rho, and nobody restarts during a run. Sensor readings, clocks and the results of
executed commands are inputs. Further:

- Scheduling: a node whose count is complete makes its next main-loop pass before it consumes another
  counted frame. The firmware's loop, which empties the receive buffer before that pass, does not ensure
  it. For consensus the rule is exactly what is needed: without it a node's count passes its target if and
  only if the node consumed such a frame, it then waits for good, and a run ends with every node off if
  and only if that happened to no node (`CountPassesIff`, `MaximalFreeRunEndsIff`); and for any two nodes
  it does happen in some run (`OverrunHappens`).
- Transmission: a node hands new frames to its controller only when its earlier ones have left. Passes
  that broadcast nothing do not wait for that.
- Start of consensus: all nodes have called `init()` before frames are consumed. Again this is exact: if
  the nodes call it one by one, a run ends with every node off if and only if no node consumed a frame
  before its own `init()`, which sets the count back to zero (`EndsIffNoneEarly`); and for two or more
  nodes that happens in some run (`EarlyHappens`).
- Buffers: the rounds are stated without the ring buffers; with at most three nodes the buffers are proved
  to refuse nothing and to change nothing (`ConsensusBuffers`), provided that a buffer holds at most
  10 - 2 E frames of other kinds at a time, where E is the number of frames a node expects per round (6
  frames with three nodes, 8 with two).
- Consensus runs on fewer nodes than the arrays have entries; `StaysInArray` shows that with seven nodes
  the receiver would write past its array.

## Findings

- The divisor of the averages is the number of frames counted plus one. It is the number of nodes exactly
  when there are at most three (`DivisorIsNodes`); with more nodes equal values no longer average to
  themselves and the multipliers drift even without quantisation error (`AverageOfEquals`, `BalanceKept`;
  `DriftHappens` is such a run of four nodes). The drift bounds are therefore stated for at most three
  nodes, everything else for any number.
- A gain that is measured negative is not adopted by the other nodes: with several nodes an entry of the
  gain matrix is agreed on exactly when it is not negative (`GainsAgree`; `NegativeGainHappens` is a run
  in which it is not).
- A residual that reaches a node before its first calibration pass is filed as a gain and lost as a
  residual (`ResidualArrives`, `EarlyResidualHappens`). nodeLedOn is zero, not -1, until that pass.
- A consensus frame consumed too early, before the pass that its predecessors completed or before
  `init()`, keeps the node from ever ending (see the assumptions).
- A candidate of the solver whose formula divides by zero has a cost that is not a number and never wins
  the comparison; optimality holds without it.
- A reset sent to all nodes clears the aggregator in the middle of its own command, so n responses go out
  instead of one (`TotalReset`).
- A comment in `src/main.cpp` says the index table starts at 1; the code starts at 0, and so does the model.

## Model

| member | source | states |
|---|---|---|
| Solver.MultiplyTwoArrays | src/consensus.cpp:250-258 | the loop computes the dot product |
| Vectors.DotIs | src/consensus.cpp:250-258 | the dot product is zero on empty vectors and grows by the product of the entries added |
| Solver.EvaluateCost | src/consensus.cpp:37-48 | the loop computes the augmented Lagrangian of the vector |
| Solver.CheckFeasibility | src/consensus.cpp:50-61 | accepts exactly the vectors whose own entry is in -0.01 to 100.01 and whose light is at least liRef - residual - 0.01 |
| Solver.CostIs | src/consensus.cpp:37-48 | the cost is the own energy plus, for every node, the multiplier times the distance from the average and half of rho times its square |
| Solver.ComputeZ | src/consensus.cpp:74-84 | z is rho times the average minus the multiplier, less the energy cost at the own entry |
| Solver.FillUnconstrained | src/consensus.cpp:76-84 | the first candidate, entry by entry |
| Solver.FillLinear | src/consensus.cpp:97-100 | the candidate on the linear boundary, entry by entry |
| Solver.FillCorner | src/consensus.cpp:155-160 | the candidates on the linear boundary and a box bound, entry by entry |
| Solver.TryCandidate | src/consensus.cpp:86-95 | a candidate replaces the best vector in place exactly if it passes the check and is strictly cheaper |
| Solver.TryAll | src/consensus.cpp:63-193 | the six trials in the code's order leave the chosen vector and nothing else in the array |
| Solver.SolveIsCheapest | src/consensus.cpp:86-192 | the result is the start vector or a tolerated vector with its true cost, and no tolerated candidate is cheaper |
| Solver.CertifiedIsOptimal | src/consensus.cpp:37-61 | a feasible vector that is the unconstrained minimiser moved along the active constraints with signs right is cheaper than or as cheap as every feasible vector |
| Solver.SomeCandidateCertified | src/consensus.cpp:73-183 | whenever a feasible vector exists, one of the six candidates exists, is exactly feasible and carries such a certificate |
| Solver.SolveWithinLimits | src/consensus.cpp:50-61 | every result but the start vector has its own entry in -0.01 to 100.01 and light of at least liRef - residual - 0.01 |
| Solver.SolveIsOptimal | src/consensus.cpp:63-193 | if some vector meeting the exact constraints costs under 100000, the result meets these limits and costs no more than every vector meeting the exact constraints |
| Solver.SolvePicksFirst | src/consensus.cpp:86-192 | the result is the first in the order of trial among the cheapest candidates within the limits |
| Solver.SolveFailsIff | src/consensus.cpp:65-71 | the result is all -1 exactly when no candidate within the limits costs under 100000 |
| FixedPoint.SplitJoin | src/communication.cpp:297-299 | the signed 16-bit value is recovered from its two bytes, and from no other two |
| FixedPoint.ReceivedNear | src/communication.cpp:294-295 | in [-300, 300] the received value is within 150/32767 of the sent one |
| FixedPoint.ReceivedExact | src/communication.cpp:176-178 | multiples of the quantisation step travel unchanged |
| FixedPoint.BytesSent | src/communication.cpp:294-299 | the two bytes sent, high byte first, are the whole number nearest to 32767/300 of the value modulo 65536, halves away from zero |
| FixedPoint.BytesReceived | src/communication.cpp:176-178 | two bytes received are a signed number, high byte first, in steps of 300/32767 |
| Framing.Communication.FillChunk | src/communication.cpp:290-302 | the inner loop writes exactly the chunk's slots below n and the chunk number over the frame buffer |
| Framing.Communication.SendConsensusDutyCycle | src/communication.cpp:280-308 | the bus gains the frames of the vector, in order, with what the buffer held in the bytes not written |
| Framing.BurstCarries | src/communication.cpp:288-307 | frame c of a burst carries chunk c of the vector whatever the buffer held before |
| Framing.OnTheWire | src/communication.cpp:280-308 | a vector takes the least number of frames of three values, broadcast with type 6, the sender's id and seven bytes; byte 6 of frame c is c, and bytes 2i and 2i + 1 hold entry 3c + i, high byte first |
| Framing.SlotsAreAdded | src/communication.cpp:167-184 | whatever the eight bytes are, exactly the positions 3 m, 3 m + 1 and 3 m + 2 modulo 256 that are at most n gain the values of their bytes |
| Framing.AddFrameEffect | src/communication.cpp:167-184 | below n a received frame adds its own chunk's values and nothing else, stale bytes included |
| Framing.StaysInArray | src/communication.cpp:172-181 | the position test keeps bursts inside the array exactly when n is less than the array's length |
| Framing.Reassembly | src/communication.cpp:165-185 | for any order of arrival of all chunks of all senders every entry below n gains exactly the sum of the senders' values as received |
| Framing.ColumnNear | src/communication.cpp:280-308 | that sum is within half a step per sender of the true sum |
| CanId.PrepareId | lib/arduino-mcp2515/src/mcp2515.cpp:509-527 | the four bytes written are the identifier layout of the controller's registers; the rest of the buffer is untouched |
| CanId.LayoutBits | lib/arduino-mcp2515/src/mcp2515.cpp:509-527 | which bits of an identifier stand in which register, for both formats, and which register bits are fixed |
| CanId.RoundTrip | lib/arduino-mcp2515/src/mcp2515.cpp:509-527 | every 29-bit and 11-bit identifier is read back in its own format (CAN 2.0 Part B, section 3.2.1) |
| CanId.SendMessage | lib/arduino-mcp2515/src/mcp2515.cpp:579-608 | lengths over eight fail; otherwise the transmit buffer holds identifier, length, remote bit and data of the frame |
| CanId.ReadMessage | lib/arduino-mcp2515/src/mcp2515.cpp:629-664 | lengths over eight fail; otherwise the frame is the one the registers describe |
| CanId.ReadIdentifier | lib/arduino-mcp2515/src/mcp2515.cpp:637-644 | the step by step accumulation decodes the identifier registers |
| CanId.SendReceive | lib/arduino-mcp2515/src/mcp2515.cpp:589-591 | a can_id survives the journey exactly when it has no error flag and no bits its format cannot carry |
| CanId.FrameRoundTrip | lib/arduino-mcp2515/src/mcp2515.cpp:579-664 | length, remote flag and identifier written by sendMessage are what readMessage reads |
| CanId.MessageIdBytes | src/communication.cpp:7-10 | the bytes of an identifier built by canMessageId are 0x80, destination, sender and type |
| CanId.Addressing | src/communication.cpp:7-33 | a frame built by canMessageId passes a node's masks and filters exactly when its destination is 0 or that node, and parses back to its type and sender |
| Barrier.TransmitInv | src/communication.cpp:284-307 | putting a queued frame on the bus keeps the barrier's invariant, and the frame was not there before |
| Barrier.NextIsDue | src/consensus.cpp:210-216 | the next frame a waiting member consumes is of its own round and new to it, although frames carry no round |
| Barrier.DeliverInv | src/communication.cpp:184-184 | consuming a frame keeps the invariant |
| Barrier.PassInv | src/consensus.cpp:224-225 | passing a complete round keeps the invariant |
| Barrier.Lockstep | src/consensus.cpp:195-248 | rounds of any two members differ by at most one, and the one behind has queued its burst |
| Barrier.CountIsEnough | src/consensus.cpp:212-215 | the count never exceeds the number expected and reaches it exactly when the frames consumed are the frames due |
| Barrier.UnreadBound | include/can_frame_stream.h:29-40 | at most two bursts per other member are unread on the bus |
| ConsensusNode.Consensus.Init | src/consensus.cpp:7-35 | the object is ready to iterate: 100 times every gain is 255 times its entry of the gain matrix, so that gains times percentages are gains times PWM levels; norms and number of expected frames are right and the vectors are cleared below n |
| ConsensusNode.LightIsPwmLight | src/consensus.cpp:23-24 | with gains so scaled, the light of any vector of percentages is the sum of the measured gains times its PWM levels |
| ConsensusNode.Consensus.ConsensusIterate | src/consensus.cpp:63-193 | the best vector is overwritten with the solver's choice for the current averages and multipliers |
| ConsensusNode.Consensus.UpdateVectors | src/consensus.cpp:219-223 | new averages and multipliers from the accumulator, in place |
| ConsensusNode.Consensus.UpdateState | src/consensus.cpp:217-247 | the whole UPDATE state, and exactly after the 50th update the dot product of dutyCycleBest and ki plus the residual as new reference |
| ConsensusNode.UpdatedIs | src/consensus.cpp:217-236 | entry by entry, the average over the count plus one, the multiplier moved by rho times the distance from it, the cleared accumulator, and off after update 50 |
| ConsensusNode.Consensus.ConsensusMain | src/consensus.cpp:195-248 | one call runs through the chain of states exactly as MainPass says, sending at most one vector and setting at most one reference |
| ConsensusNode.Consensus.ReceivedConsensus | src/communication.cpp:165-185 | a received frame is added slot by slot and counted |
| ConsensusProtocol.PassParts | src/consensus.cpp:195-248 | a pass is a sending part, an updating part, or both in this order, depending on phase and count |
| ConsensusProtocol.AllHeard | src/consensus.cpp:219-223 | with every frame due heard the accumulator holds the sum of everybody else's vectors |
| ConsensusProtocol.StepInv | src/consensus.cpp:195-248 | every transmission, delivery and main-loop pass of any node keeps the system invariant |
| ConsensusResults.RunInv | src/main.cpp:76-137 | every state of every run satisfies the invariant |
| ConsensusResults.Lockstep | src/consensus.cpp:195-248 | in every reachable state update counts differ by at most one and no node counts more frames than it expects |
| ConsensusResults.ExactSums | src/consensus.cpp:217-226 | every update of every node used exactly the same round's vectors of all other nodes, each once, over ((n - 1) / 3 + 1) (n - 1) + 1, and moved the multiplier by rho times the distance from that average |
| ConsensusResults.SolvesRound | src/consensus.cpp:63-205 | every vector sent in a run is the solver's choice for the node's own data and its averages and multipliers of that round, zero in the first |
| ConsensusResults.SentIsOptimal | src/consensus.cpp:63-205 | so in every run a vector sent is within the limits and optimal for its round's problem whenever that is feasible below the initial bound |
| ConsensusResults.DivisorIsNodes | src/consensus.cpp:11-11 | frames expected plus one is the number of nodes exactly when there are at most three |
| ConsensusResults.AverageOfEquals | src/consensus.cpp:221-221 | nodes that send the same value average to it exactly when there are at most three or the value is zero |
| ConsensusDrift.DriftExact | src/consensus.cpp:219-223 | for n up to 3, n times the sum of all multipliers after t updates is rho (n - 1) times what quantisation took in t rounds |
| ConsensusDrift.DriftBound | src/consensus.cpp:219-223 | so with values in [-300, 300] that sum is at most t rho (n - 1) 150/32767 in absolute value |
| ConsensusDrift.NoDrift | src/consensus.cpp:219-223 | and zero if nothing is lost to quantisation |
| ConsensusDrift.BalanceKept | src/consensus.cpp:219-223 | for any number of nodes, a round whose values travel unchanged keeps the sum of all multipliers exactly when there are at most three nodes or the values sum to zero |
| ConsensusDrift.AveragesNear | src/consensus.cpp:221-221 | any two nodes' averages of one round differ by at most 300/(32767 n) |
| ConsensusLiveness.Progress | src/consensus.cpp:195-236 | no deadlock: while some node is not off some move is possible, single node included |
| ConsensusLiveness.RunsEnd | src/consensus.cpp:232-236 | every run is bounded by an explicit number of moves |
| ConsensusLiveness.MaximalRunEnds | src/consensus.cpp:232-246 | a run that cannot go on has every node off after exactly 50 vectors, 50 updates and one reference, the light of its last vector by its own gains plus its residual |
| ConsensusLiveness.LogBound | src/communication.cpp:280-308 | the bus never carries more than the frames of 50 rounds |
| ConsensusLiveness.Backlog | include/can_frame_stream.h:29-40 | frames not yet consumed by a node number at most twice those of a round; with at most three nodes fewer than the buffer holds |
| ConsensusLiveness.Completed | src/consensus.cpp:195-248 | every run can be completed, with every node ended |
| ConsensusLiveness.ReferenceIs | src/consensus.cpp:232-245 | in every reachable state a node that is off has set exactly one reference, the dot product of its 50th vector and its gains plus its residual, and any other node none |
| ConsensusLiveness.ReferenceMet | src/consensus.cpp:232-245 | the reference set at the end is at least the requested one minus 0.01 exactly when the last solve found a candidate or the vector of -1s is bright enough |
| ConsensusLiveness.ReferenceMetIfFeasible | src/consensus.cpp:232-245 | any exactly feasible vector costing under 100000 at the last solve is enough for that |
| ConsensusWitness.FirstSolve | src/consensus.cpp:63-193 | a node lit by its own LED alone first asks for exactly its reference from itself and nothing from the others |
| ConsensusWitness.DriftHappens | src/consensus.cpp:219-223 | a complete run of four nodes in which nothing is lost to quantisation in the first round and the multipliers no longer sum to zero after it |
| ConsensusBuffers.TakeIs | src/main.cpp:101-109 | getting a consensus frame from a node's buffer is consuming the bus frame at its cursor, after its own frames |
| ConsensusBuffers.EventInv | include/can_frame_stream.h:29-52 | with at most three nodes every event, arrivals and frames of other kinds included, keeps buffers and rounds right |
| ConsensusBuffers.NeverRefused | include/can_frame_stream.h:29-40 | with at most three nodes no buffer refuses a frame in any run, and its consensus frames are exactly the other nodes' frames between cursor and arrival position, in order |
| ConsensusBuffers.FitsIff | include/can_frame_stream.h:12-12 | two bursts of every other node fit in the buffer exactly with at most three nodes |
| ConsensusBuffers.Progress | src/main.cpp:76-137 | the buffers cause no deadlock |
| ConsensusBuffers.EndsOff | src/main.cpp:76-137 | with at most three nodes a run that can only go on by frames of other kinds has every node ended and nothing refused |
| ConsensusOverrun.OverrunSticks | src/consensus.cpp:210-216 | a waiting node that counted one frame too many never updates again |
| ConsensusOverrun.ShadowStep | src/main.cpp:101-109 | a free run behaves like one that keeps the scheduling rule and in which the overrun nodes have stopped consuming |
| ConsensusOverrun.CountPassesIff | src/consensus.cpp:210-216 | in every free run a node's count passes its target exactly if the node was overrun, and then the node waits |
| ConsensusOverrun.MaximalFreeRunEndsIff | src/main.cpp:101-134 | a free run that cannot go on has every node off exactly when no node was overrun |
| ConsensusOverrun.OverrunHappens | src/main.cpp:101-134 | for any two nodes there is a free run in which one drain of the buffer overruns node 1 |
| ConsensusHandOver.EventCounts | src/consensus.cpp:7-35 | sent, counted and early frames fit together after every event, init() included, under no scheduling rule |
| ConsensusHandOver.EarlyNeverEnds | src/consensus.cpp:13-16 | a node that consumed another's frame before its init() never does its last update |
| ConsensusHandOver.EndsIffNoneEarly | src/consensus.cpp:7-35 | a run that cannot go on ends with every node off exactly when no node consumed a frame before its own init() |
| ConsensusHandOver.EarlyHappens | src/consensus.cpp:7-35 | for any two or more nodes there is a run in which node 1 does |
| CalibrationNode.CalibrationFSM.constructor | src/calibrationFSM.cpp:5-18 | the object is in the state calibration starts from |
| CalibrationNode.CalibrationFSM.SetGain | src/calibrationFSM.cpp:198-201 | one entry of the matrix is replaced |
| CalibrationNode.CalibrationFSM.IncrementNodesReady | src/calibrationFSM.cpp:172-175 | only the count changes |
| CalibrationNode.CalibrationFSM.RunStateInit | src/calibrationFSM.cpp:35-50 | the residual is stored and broadcast, the node counts itself, no LED is on |
| CalibrationNode.CalibrationFSM.RunStateWaitReady | src/calibrationFSM.cpp:62-94 | when all are ready the phase advances, and exactly the owner of the next LED announces it |
| CalibrationNode.CalibrationFSM.RunStateWaitLedOn | src/calibrationFSM.cpp:101-111 | the flag is used up and the transient begins |
| CalibrationNode.CalibrationFSM.RunStateWaitTransient | src/calibrationFSM.cpp:117-143 | after the transient the reading is stored; the first sends -1, the second stores and sends the gain, 220 times which is what it read more |
| CalibrationNode.SlopeIsMeasured | src/calibrationFSM.cpp:122-139 | from readings o + 20 g and o + 240 g the gain stored and sent is exactly g, for every offset o and slope g |
| CalibrationNode.CalibrationFSM.Loop | src/calibrationFSM.cpp:148-170 | one pass is the current state's runner |
| CalibrationNode.CalibrationFSM.ReceivedGainOrResidual | src/calibrationFSM.cpp:182-193 | the value is filed under the receiver's own nodeLedOn |
| CalibrationNode.CalibrationFSM.OnReady | src/communication.cpp:81-99 | a READY frame is counted, and its value filed unless negative |
| CalibrationNode.CalibrationFSM.OnLedOn | src/communication.cpp:100-103 | the flag is raised |
| CalibrationProtocol.LedCausal | src/calibrationFSM.cpp:66-87 | a phase's LED frame is out only when every node has sent the READY frame before it |
| CalibrationProtocol.FlagsLed | src/communication.cpp:100-103 | an LED frame of another node is of the next phase the receiver waits for, and consuming it keeps the flag right |
| CalibrationProtocol.ReadyTables | src/communication.cpp:81-99 | a READY value lands in the column of its own phase, a residual in the residuals, -1 nowhere |
| CalibrationProtocol.StepInv | src/calibrationFSM.cpp:35-201 | every transmission, delivery and pass of any node keeps the system invariant |
| CalibrationResults.RunInv | src/calibrationFSM.cpp:148-170 | every state of every run satisfies the invariant |
| CalibrationResults.SamePhase | src/calibrationFSM.cpp:62-111 | any two nodes waiting for an LED or its transient agree on whose LED and which reading |
| CalibrationResults.OnlyOwnerAnnounces | src/calibrationFSM.cpp:81-87 | whoever has an LED frame to send owns the phase everybody is in |
| CalibrationResults.LedOnIsOwnPhases | src/calibrationFSM.cpp:101-111 | the flag of a waiting node is up exactly when its own phase's owner has announced its own reading |
| CalibrationResults.ReadingOfPhase | src/calibrationFSM.cpp:117-135 | a reading is stored in the place its phase gives it |
| CalibrationResults.DoneCounts | src/calibrationFSM.cpp:62-143 | a node that is done sent exactly 2n + 1 READY and two LED frames |
| CalibrationResults.FinalTables | src/calibrationFSM.cpp:182-201 | every entry of every node's gain and residual tables at the end |
| CalibrationResults.GainsAgree | src/communication.cpp:91-95 | with several nodes all agree on an entry exactly when the second reading was not below the first, and then 220 times the entry is their difference |
| CalibrationResults.OneGainMatrix | src/calibrationFSM.cpp:62-143 | with non-negative gains all nodes end with one matrix: 220 times entry [i][k] is node i's second less its first reading in node k's LED phases |
| CalibrationResults.SlopesAreFound | src/calibrationFSM.cpp:62-143 | if node i's readings there are o + 20 g and o + 240 g, every node ends with exactly g as entry [i][k] |
| CalibrationResults.ResidualArrives | src/calibrationFSM.cpp:182-188 | a node ends with another's residual exactly when it is zero, or positive and not too early |
| CalibrationResults.EarlyResidualIsLost | src/calibrationFSM.cpp:35-50 | three first moves of two nodes after which every complete run ends with a wrong residual |
| CalibrationLiveness.EarlyResidualHappens | src/calibrationFSM.cpp:35-50 | such a complete run exists |
| CalibrationLiveness.NegativeGainHappens | src/communication.cpp:91-95 | a complete run of two nodes in which a gain is measured negative and the two end with different entries for it |
| CalibrationLiveness.Progress | src/calibrationFSM.cpp:62-143 | no deadlock: while some node is not done some move is possible |
| CalibrationLiveness.RunsEnd | src/calibrationFSM.cpp:62-143 | every run is bounded by the measure of the start |
| CalibrationLiveness.MaximalRunEnds | src/calibrationFSM.cpp:62-143 | a run that cannot go on has every node done and exactly n (2n + 1) READY and 2n LED frames on the bus |
| CalibrationLiveness.Completed | src/calibrationFSM.cpp:62-143 | every run can be completed, whatever the sensors read from then on |
| Registry.Registry.constructor | src/main.cpp:46-61 | after setup the list holds the own id alone |
| Registry.Registry.RegisterNewNode | src/main.cpp:144-186 | the list becomes the sorted insertion of the id, zeros follow it, and the table inverts it |
| Registry.Registry.InsertSorted | src/main.cpp:149-170 | the nested loops insert in place at the sorted position |
| Registry.Registry.RewriteTable | src/main.cpp:176-180 | the table holds every listed id's last position and zero elsewhere |
| Registry.Registry.ResetGlob | src/main.cpp:188-199 | list and table are those of the own id alone again |
| Registry.InsertAllKeeps | src/main.cpp:144-186 | any sequence of ids leaves an ascending list of exactly these elements |
| Registry.DistinctIds | src/main.cpp:144-186 | distinct ids leave the strictly ascending list of exactly these ids, which the index inverts |
| Registry.NodesAgree | src/main.cpp:144-186 | nodes that know the same ids have the same list, whatever the order they heard them in |
| Registry.SameArrays | src/main.cpp:144-186 | nodes with the same list have identical arrays, zeros and table included |
| FrameStream.CanFrameStream.Put | include/can_frame_stream.h:29-40 | refuses exactly when ten frames are held, else appends, and extends the history of calls accordingly |
| FrameStream.CanFrameStream.Get | include/can_frame_stream.h:42-52 | reports empty exactly when none are held, else removes the oldest, and extends the history accordingly |
| FrameStream.Fifo | include/can_frame_stream.h:29-52 | over every interleaving accepted frames are delivered frames followed by held frames |
| Controller.Controller.Calc | src/controller.cpp:14-42 | one call's new fields, the PWM value returned is the whole part of u in 0 to 255, and with no error and an empty integral it is the most PWM steps that fit in luxRef - residualRead |
| Controller.Controller.LimitOutput | src/controller.cpp:27-39 | the sum of the three parts cut off at 0 and 255, and the integral recomputed when it is |
| Controller.Controller.ControllerReset | src/controller.cpp:44-47 | both fields are zero again |
| Controller.FeedforwardIs | src/controller.cpp:20-20 | the feedforward is the whole number next to (luxRef - residualRead) / systemGain towards zero, whatever the signs |
| Controller.FeedforwardAlone | src/controller.cpp:14-42 | after a reset and without error the output u is whole and u gain <= luxRef - residualRead < (u + 1) gain |
| Controller.IntegralIsRest | src/controller.cpp:21-39 | saturated or not, the integral is the output less feedforward and proportional part |
| Controller.PositionalIsVelocity | src/controller.cpp:14-42 | over every run the output is that of the clamped velocity form |
| Controller.StepIs | src/controller.cpp:20-39 | between two calls the output moves by the change of the feedforward, 20 times the change of the error and 0.0015 times sampling time times error, cut off at 0 and 255 |
| Controller.UnlimitedRun | src/controller.cpp:20-27 | in a run that never saturates the output is the feedforward, 20 times the last error and 0.0015 times the sum of sampling times times errors |
| Controller.UnlimitedIff | src/controller.cpp:30-39 | all outputs of a run are these sums exactly when all these sums lie in 0 to 255 |
| Controller.NoHiddenState | src/controller.cpp:30-39 | runs that end in the same output and input go on alike, however long they were saturated |
| Controller.LeavesSaturation | src/controller.cpp:30-34 | from either bound the output moves at once by that change when it leads back inside |
| LastMinuteBuffer.LastMinuteBuffer.AddToLastMinuteBuffer | SCDTR-PC/SCDTR-PC/LastMinuteBuffer.cpp:7-22 | one add, with cleaning only when the second changed |
| LastMinuteBuffer.LastMinuteBuffer.RemoveOldLastMinuteBufferEntries | SCDTR-PC/SCDTR-PC/LastMinuteBuffer.cpp:27-56 | every node's entries are erased from the front up to the first recent one |
| LastMinuteBuffer.EvictedIsSince | SCDTR-PC/SCDTR-PC/LastMinuteBuffer.cpp:41-54 | stopping at the first recent entry removes exactly the old readings |
| LastMinuteBuffer.BufferIsWindow | SCDTR-PC/SCDTR-PC/LastMinuteBuffer.cpp:7-56 | after any history under a clock that never goes back every node's buffer is that node's readings of the last 60 seconds, in order |
| SerialComm.SerialComm.ReadTotalCommand | src/serialComm.cpp:42-60 | the destination-0 branch, for a get and for a reset |
| SerialComm.SerialComm.ReceivedCommandResponseFromCAN | src/serialComm.cpp:252-270 | a reply is passed on, or added and counted down |
| SerialComm.SerialComm.SendTotalIfAllValueForTotalReceived | src/serialComm.cpp:276-286 | the total goes out exactly when nothing is waited for |
| SerialComm.SerialComm.ResetSerialComm | src/serialComm.cpp:325-331 | the aggregator is cleared |
| SerialComm.TotalGet | src/serialComm.cpp:42-60 | a get to all nodes sends exactly one response, the sum of all values, after the last reply and not before |
| SerialComm.TotalOfTwo | src/serialComm.cpp:252-270 | with one other node the response is the sum of the two values |
| SerialComm.TotalGetAnyOrder | src/serialComm.cpp:252-270 | in whatever order the replies come |
| SerialComm.TotalReset | src/serialComm.cpp:201-213 | a reset to all nodes sends the hub's result and every reply, n responses in all, and leaves the hub knowing itself alone |

## Left out

- SPI transfers, bit rates, operating modes, interrupt flags and the choice among transmit buffers of the controller: hardware access without an algorithm of its own.
- `Luminaire`, `Simulador`, EEPROM, analogue input and the conversion between voltage and lux: readings are arbitrary inputs.
- The offset residualArray[nodeId] that `src/calibrationFSM.cpp` line 123 subtracts from both readings of a gain: it cancels, so a reading is an input less its offset.
- The brightness of the LED during calibration: the owner switches it off on its own timer, so nothing is claimed about it.
- resetConsensus and resetCalib, and restarts during a run: resetCalib keeps nodeLedOn, so a second calibration does not start from the state modelled here.
- The low-pass filter, the metrics, the hub's discovery of its PC, sendListNodesToPC, commands to single nodes, and the server's network and console code.
- CalibrationNode.CalibrationFSM.OnReady: needs a sender id of at most 20, because the firmware's index table ends there.
- Lost frames and exhausted transmit buffers: excluded by the assumptions above.
- Floating-point rounding outside the bus code, and the bytes of a float in a READY frame, which are copied unchanged.
- The local arrays z, diff and dutyCycleTest of the solver are sequences; the members are arrays.
- A fixed-point value out of the 16-bit range, which C++ leaves open: the model keeps its low 16 bits.
- Registry.Registry.RegisterNewNode: needs an id in 1 to 20 and a free place, because the firmware's arrays end there.
- CanId.SendMessage: fills the buffer and checks the length; the error flags the controller raises afterwards are hardware.
- Convergence of the fifty rounds to the global optimum: fifty iterations do not decide it.
- LastMinuteBuffer.BufferIsWindow: takes one clock reading per add; the code reads the clock again inside the cleaning.
- Controller.Controller.Calc: feedforward is an unbounded integer; the width of int on the board is not modelled, and a zero gain is excluded because the conversion of an infinite value is undefined.
