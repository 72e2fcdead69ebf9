/** The identifier layer of the MCP2515 driver: packing a CAN identifier into the four identifier
    registers, reading it back, and the test that masks and filters perform. */
module CanId {
  import opened Globals

  const EFF_FLAG: bv32 := 0x8000_0000
  const RTR_FLAG: bv32 := 0x4000_0000
  const EFF_MASK: bv32 := 0x1FFF_FFFF
  const SFF_MASK: bv32 := 0x0000_07FF
  const EXIDE: bv8 := 0x08
  const RTR_BIT: bv8 := 0x40
  const DLC_MASK: bv8 := 0x0F

  /** The registers SIDH, SIDL, EID8, EID0, in the order the driver transfers them. */
  datatype Registers = Registers(sidh: bv8, sidl: bv8, eid8: bv8, eid0: bv8)

  ghost function RegistersIn(buffer: array<bv8>): Registers
    requires buffer.Length >= 4
    reads buffer
  {
    Registers(buffer[0], buffer[1], buffer[2], buffer[3])
  }

  /** The register layout the datasheet gives: an extended identifier is 11 standard bits, split
      8 and 3 over SIDH and SIDL, followed by 18 extension bits, split 2, 8, 8 over SIDL, EID8
      and EID0. */
  function Layout(ext: bool, id: bv32): Registers {
    if ext then
      Registers(((id >> 21) & 0xFF) as bv8,
                ((((id >> 18) & 0x7) << 5) | ((id >> 16) & 0x3) | 0x08) as bv8,
                ((id >> 8) & 0xFF) as bv8,
                (id & 0xFF) as bv8)
    else
      Registers(((id >> 3) & 0xFF) as bv8, ((id & 0x7) << 5) as bv8, 0, 0)
  }

  /** Where the bits of an identifier are: the 29 bits of an extended one, from the top, are SIDH, the three
      high bits of SIDL, its two low bits, EID8 and EID0, with bit 3 of SIDL set; the 11 bits of a standard one
      are SIDH and the three high bits of SIDL, and everything else is zero. */
  lemma LayoutBits(ext: bool, id: bv32)
    ensures var r := Layout(ext, id);
            if ext
            then (r.sidh as bv32 << 21) | ((r.sidl >> 5) as bv32 << 18) | ((r.sidl & 0x03) as bv32 << 16)
                 | (r.eid8 as bv32 << 8) | r.eid0 as bv32 == id & 0x1FFF_FFFF
                 && r.sidl & 0x1C == 0x08
            else (r.sidh as bv32 << 3) | (r.sidl >> 5) as bv32 == id & 0x7FF && r.sidl & 0x1F == 0 && r.eid8 == r.eid0 == 0
  {
    if ext {
      ExtendedLayoutBits(id);
    } else {
      StandardLayoutBits(id);
    }
  }

  lemma ExtendedLayoutBits(id: bv32)
    ensures var r := Layout(true, id);
            && (r.sidh as bv32 << 21) | ((r.sidl >> 5) as bv32 << 18) | ((r.sidl & 0x03) as bv32 << 16)
               | (r.eid8 as bv32 << 8) | r.eid0 as bv32 == id & 0x1FFF_FFFF
            && r.sidl & 0x1C == 0x08
  {
  }

  lemma StandardLayoutBits(id: bv32)
    ensures var r := Layout(false, id);
            (r.sidh as bv32 << 3) | (r.sidl >> 5) as bv32 == id & 0x7FF && r.sidl & 0x1F == 0 && r.eid8 == r.eid0 == 0
  {
  }

  /** The driver's 16-bit intermediates for an extended identifier give the layout's bytes. */
  lemma ExtendedBytes(id: bv32, low: bv16, high: bv16)
    requires low == (id & 0xFFFF) as bv16 && high == ((id >> 16) & 0xFFFF) as bv16
    ensures high & 0x03 <= 0xFF && (high & 0x1C) << 3 <= 0xFF
    ensures Layout(true, id) == Registers(((high >> 5) & 0xFF) as bv8, (((high & 0x03) as bv8) + (((high & 0x1C) << 3) as bv8)) | EXIDE,
                                          (low >> 8) as bv8, (low & 0xFF) as bv8)
  {
  }

  lemma StandardBytes(id: bv32, low: bv16)
    requires low == (id & 0xFFFF) as bv16
    ensures (low & 0x07) << 5 <= 0xFF
    ensures Layout(false, id) == Registers(((low >> 3) & 0xFF) as bv8, ((low & 0x07) << 5) as bv8, 0, 0)
  {
  }

  /** prepareId: fills the first four bytes of `buffer` step by step, with 16-bit intermediates. */
  method PrepareId(buffer: array<bv8>, ext: bool, id: bv32)
    requires buffer.Length >= 4
    modifies buffer
    ensures RegistersIn(buffer) == Layout(ext, id)
    ensures forall i :: 4 <= i < buffer.Length ==> buffer[i] == old(buffer[i])
  {
    var canid: bv16 := (id & 0x0FFFF) as bv16;
    if ext {
      ghost var low := canid;
      buffer[3] := (canid & 0xFF) as bv8;
      buffer[2] := (canid >> 8) as bv8;
      canid := ((id >> 16) & 0xFFFF) as bv16;
      ExtendedBytes(id, low, canid);
      buffer[1] := (canid & 0x03) as bv8;
      buffer[1] := buffer[1] + (((canid & 0x1C) << 3) as bv8);
      buffer[1] := buffer[1] | EXIDE;
      buffer[0] := ((canid >> 5) & 0xFF) as bv8;
    } else {
      StandardBytes(id, canid);
      buffer[0] := ((canid >> 3) & 0xFF) as bv8;
      buffer[1] := ((canid & 0x07) << 5) as bv8;
      buffer[3] := 0;
      buffer[2] := 0;
    }
  }

  /** readMessage's decoding of the identifier registers. */
  function Identifier(r: Registers): bv32 {
    var sid := ((r.sidh as bv32) << 3) + ((r.sidl >> 5) as bv32);
    if r.sidl & EXIDE == EXIDE then
      ((((((sid << 2) + ((r.sidl & 0x03) as bv32)) << 8) + (r.eid8 as bv32)) << 8) + (r.eid0 as bv32)) | EFF_FLAG
    else
      sid
  }

  /** The can_id readMessage stores: the identifier with the remote-request flag. */
  function ReadId(r: Registers, rtr: bool): bv32 {
    if rtr then Identifier(r) | RTR_FLAG else Identifier(r)
  }

  // A frame's journey: can_id, registers, can_id.

  function Mask(ext: bool): bv32 { if ext then EFF_MASK else SFF_MASK }

  predicate IsExtended(canId: bv32) { canId & EFF_FLAG != 0 }
  predicate IsRemote(canId: bv32) { canId & RTR_FLAG != 0 }

  /** sendMessage's choice of format and identifier for a can_id with flags. */
  function SentRegisters(canId: bv32): Registers {
    Layout(IsExtended(canId), canId & Mask(IsExtended(canId)))
  }

  /** Every identifier survives packing and unpacking, in its own format; nothing outside the
      format's bits does. */
  lemma RoundTrip(ext: bool, id: bv32)
    ensures Identifier(Layout(ext, id)) == (id & Mask(ext)) | (if ext then EFF_FLAG else 0)
  {
    if ext {
      RoundTripExtended(id);
    } else {
      RoundTripStandard(id);
    }
  }

  lemma RoundTripExtended(id: bv32)
    ensures Identifier(Layout(true, id)) == (id & EFF_MASK) | EFF_FLAG
  {
  }

  lemma RoundTripStandard(id: bv32)
    ensures Identifier(Layout(false, id)) == id & SFF_MASK
  {
  }

  /** A frame sent with can_id `canId` is read with the same can_id, provided the can_id has no
      error flag and no identifier bits its format cannot carry. */
  lemma SendReceive(canId: bv32)
    ensures ReadId(SentRegisters(canId), IsRemote(canId)) == canId
            <==> canId & (if canId & 0x8000_0000 != 0 then 0xDFFF_FFFF else 0xC000_07FF) == canId
  {
    FlagBits(canId);
    if IsExtended(canId) {
      Extended(canId);
    } else {
      Standard(canId);
    }
  }

  lemma FlagBits(canId: bv32)
    ensures IsExtended(canId) <==> canId & 0x8000_0000 != 0
    ensures EFF_FLAG | RTR_FLAG | EFF_MASK == 0xDFFF_FFFF && EFF_FLAG | RTR_FLAG | SFF_MASK == 0xC000_07FF
  {
  }

  lemma Extended(canId: bv32)
    requires IsExtended(canId)
    ensures ReadId(SentRegisters(canId), IsRemote(canId)) == canId & (EFF_FLAG | RTR_FLAG | EFF_MASK)
  {
    if IsRemote(canId) {
      ExtendedRemote(canId);
    } else {
      ExtendedData(canId);
    }
  }

  lemma Standard(canId: bv32)
    requires !IsExtended(canId)
    ensures ReadId(SentRegisters(canId), IsRemote(canId)) == canId & (EFF_FLAG | RTR_FLAG | SFF_MASK)
  {
    if IsRemote(canId) {
      StandardRemote(canId);
    } else {
      StandardData(canId);
    }
  }

  lemma ExtendedRemote(canId: bv32)
    requires IsExtended(canId) && IsRemote(canId)
    ensures ReadId(SentRegisters(canId), true) == canId & (EFF_FLAG | RTR_FLAG | EFF_MASK)
  {
  }

  lemma ExtendedData(canId: bv32)
    requires IsExtended(canId) && !IsRemote(canId)
    ensures ReadId(SentRegisters(canId), false) == canId & (EFF_FLAG | RTR_FLAG | EFF_MASK)
  {
  }

  lemma StandardRemote(canId: bv32)
    requires !IsExtended(canId) && IsRemote(canId)
    ensures ReadId(SentRegisters(canId), true) == canId & (EFF_FLAG | RTR_FLAG | SFF_MASK)
  {
  }

  lemma StandardData(canId: bv32)
    requires !IsExtended(canId) && !IsRemote(canId)
    ensures ReadId(SentRegisters(canId), false) == canId & (EFF_FLAG | RTR_FLAG | SFF_MASK)
  {
  }

  // Whole frames.

  const MAX_DLEN: nat := 8
  const RXB_CTRL_RTR: bv8 := 0x08

  datatype CanFrame = CanFrame(canId: bv32, dlc: nat, data: seq<bv8>)

  function Dlc(register: bv8): nat { (register & DLC_MASK) as nat }

  /** The DLC register sendMessage writes. */
  function DlcRegister(dlc: nat, remote: bool): bv8
    requires dlc <= MAX_DLEN
  {
    if remote then (dlc as bv8) | RTR_BIT else dlc as bv8
  }

  lemma DlcRegisterIs(dlc: nat, canId: bv32)
    requires dlc <= 8
    ensures DlcRegister(dlc, IsRemote(canId)) == dlc as bv8 | (if canId & 0x4000_0000 != 0 then 0x40 else 0)
  {
    OrZero(dlc as bv8);
  }

  lemma OrZero(b: bv8)
    ensures b | 0 == b
  {
  }

  lemma DlcRoundTrip(dlc: nat, remote: bool)
    requires dlc <= MAX_DLEN
    ensures Dlc(DlcRegister(dlc, remote)) == dlc && (DlcRegister(dlc, remote) & RTR_BIT != 0 <==> remote)
  {
    var b := dlc as bv8;
    assert b <= 8;
    LowBits(b);
  }

  lemma LowBits(b: bv8)
    requires b <= 8
    ensures b & DLC_MASK == b && (b | RTR_BIT) & DLC_MASK == b && b & RTR_BIT == 0 && (b | RTR_BIT) & RTR_BIT != 0
  {
  }

  /** sendMessage: fills the transmit buffer SIDH, SIDL, EID8, EID0, DLC, data. */
  method SendMessage(buffer: array<bv8>, frame: CanFrame) returns (ok: bool)
    requires buffer.Length == 13 && |frame.data| == MAX_DLEN
    modifies buffer
    ensures ok <==> frame.dlc <= 8
    ensures ok ==>
              && RegistersIn(buffer) == SentRegisters(frame.canId)
              && buffer[4] == frame.dlc as bv8 | (if frame.canId & 0x4000_0000 != 0 then 0x40 else 0)
              && buffer[5..5 + frame.dlc] == frame.data[..frame.dlc]
  {
    hide SentRegisters, DlcRegister, IsRemote;
    if frame.dlc > MAX_DLEN {
      return false;
    }
    PrepareSent(buffer, frame.canId);
    buffer[4] := DlcRegister(frame.dlc, IsRemote(frame.canId));
    DlcRegisterIs(frame.dlc, frame.canId);
    CopyIn(buffer, frame.data, frame.dlc);
    return true;
  }

  method PrepareSent(buffer: array<bv8>, canId: bv32)
    requires buffer.Length >= 4
    modifies buffer
    ensures RegistersIn(buffer) == SentRegisters(canId)
  {
    hide Layout, Mask, IsExtended;
    var ext := IsExtended(canId);
    var id := canId & Mask(ext);
    PrepareId(buffer, ext, id);
  }

  /** The memcpy of the data bytes. */
  method CopyIn(buffer: array<bv8>, data: seq<bv8>, n: nat)
    requires n <= MAX_DLEN && n <= |data| && buffer.Length == 13
    modifies buffer
    ensures buffer[..5] == old(buffer[..5]) && buffer[5..5 + n] == data[..n]
    ensures RegistersIn(buffer) == old(RegistersIn(buffer)) && buffer[4] == old(buffer[4])
  {
    for i := 0 to n
      invariant forall k :: 0 <= k < 5 ==> buffer[k] == old(buffer[k])
      invariant buffer[5..5 + i] == data[..i]
    {
      buffer[5 + i] := data[i];
    }
  }

  /** readMessage: a length over eight is an error. */
  method ReadMessage(rxb: array<bv8>, ctrl: bv8) returns (frame: Option<CanFrame>)
    requires rxb.Length == 13
    ensures var dlc := (rxb[4] & 0x0F) as nat;
            frame == if dlc > 8 then None
                     else Some(CanFrame(ReadId(RegistersIn(rxb), ctrl & 0x08 != 0), dlc, rxb[5..5 + dlc]))
  {
    hide Identifier;
    var id := ReadIdentifier(rxb);
    var dlc := Dlc(rxb[4]);
    if dlc > MAX_DLEN {
      return None;
    }
    if ctrl & RXB_CTRL_RTR != 0 {
      id := id | RTR_FLAG;
    }
    var data: seq<bv8> := [];
    for i := 0 to dlc
      invariant data == rxb[5..5 + i]
    {
      data := data + [rxb[5 + i]];
    }
    return Some(CanFrame(id, dlc, data));
  }

  /** The identifier, accumulated register by register. */
  method ReadIdentifier(rxb: array<bv8>) returns (id: bv32)
    requires rxb.Length >= 4
    ensures id == Identifier(RegistersIn(rxb))
  {
    id := ((rxb[0] as bv32) << 3) + ((rxb[1] >> 5) as bv32);
    if rxb[1] & EXIDE == EXIDE {
      id := (id << 2) + ((rxb[1] & 0x03) as bv32);
      id := (id << 8) + (rxb[2] as bv32);
      id := (id << 8) + (rxb[3] as bv32);
      id := id | EFF_FLAG;
    }
  }

  /** What sendMessage writes, readMessage reads back: the length always, the identifier exactly when its
      format carries all of it. */
  lemma FrameRoundTrip(canId: bv32, dlc: nat)
    requires dlc <= MAX_DLEN
    ensures var register := DlcRegister(dlc, IsRemote(canId));
            && Dlc(register) == dlc
            && (ReadId(SentRegisters(canId), register & RTR_BIT != 0) == canId
                <==> canId & (if canId & 0x8000_0000 != 0 then 0xDFFF_FFFF else 0xC000_07FF) == canId)
  {
    hide Identifier, Layout, Dlc, DlcRegister, IsRemote, IsExtended, Mask, SentRegisters, ReadId;
    DlcRoundTrip(dlc, IsRemote(canId));
    SendReceive(canId);
  }

  // Addressing.

  /** canMessageId: destination, sender and type in the three low bytes, extended format. */
  function MessageId(destination: bv8, sender: bv8, messageType: bv8): bv32 {
    ((destination as bv32) << 16) | ((sender as bv32) << 8) | (messageType as bv32) | EFF_FLAG
  }

  /** What `received` reads from a can_id. */
  function MessageType(canId: bv32): bv8 { (canId & 0x0000_00FF) as bv8 }
  function MessageSender(canId: bv32): bv8 { ((canId & 0x0000_FF00) >> 8) as bv8 }

  /** The controller's test for an extended frame: the filter must be an extended one
      and agree with the frame wherever the mask has a one. */
  predicate Matches(mask: Registers, filter: Registers, frame: Registers) {
    && filter.sidl & EXIDE == frame.sidl & EXIDE
    && mask.sidh & (filter.sidh ^ frame.sidh) == 0
    && mask.sidl & (filter.sidl ^ frame.sidl) & 0xE3 == 0
    && mask.eid8 & (filter.eid8 ^ frame.eid8) == 0
    && mask.eid0 & (filter.eid0 ^ frame.eid0) == 0
  }

  /** The masks and filters Communication::init leaves in place: RXF0 and RXF1 on the first
      receive buffer, RXF2 and RXF3 on the second, RXF4 and RXF5 as reset left them. */
  predicate Accepted(nodeId: bv8, frame: Registers) {
    var mask := Layout(true, 0x00FF_0000);
    var broadcast := Layout(true, 0);
    var own := Layout(true, (nodeId as bv32) << 16);
    var unused := Layout(false, 0);
    var firstBuffer := Matches(mask, broadcast, frame) || Matches(mask, own, frame);
    var secondBuffer := Matches(mask, broadcast, frame) || Matches(mask, own, frame) || Matches(mask, unused, frame);
    firstBuffer || secondBuffer
  }

  /** A frame built by canMessageId reaches exactly the nodes it is meant for, and there parses
      back to its type and sender. */
  lemma Addressing(destination: bv8, sender: bv8, messageType: bv8, nodeId: bv8)
    ensures var frame := SentRegisters(MessageId(destination, sender, messageType));
            var back := ReadId(frame, IsRemote(MessageId(destination, sender, messageType)));
            && (Accepted(nodeId, frame) <==> destination == 0 || destination == nodeId)
            && back == MessageId(destination, sender, messageType)
            && MessageType(back) == messageType && MessageSender(back) == sender
  {
    SendReceive(MessageId(destination, sender, messageType));
    MessageFields(destination, sender, messageType);
    FilterBits(destination, sender, messageType, nodeId);
  }

  lemma MessageFields(destination: bv8, sender: bv8, messageType: bv8)
    ensures var id := MessageId(destination, sender, messageType);
            && IsExtended(id) && !IsRemote(id) && id & (EFF_FLAG | RTR_FLAG | EFF_MASK) == id
            && MessageType(id) == messageType && MessageSender(id) == sender
  {
    MessageFlags(destination, sender, messageType);
    MessageBytes(destination, sender, messageType);
  }

  lemma MessageFlags(destination: bv8, sender: bv8, messageType: bv8)
    ensures var id := MessageId(destination, sender, messageType);
            IsExtended(id) && !IsRemote(id) && id & (EFF_FLAG | RTR_FLAG | EFF_MASK) == id
  {
  }

  lemma MessageBytes(destination: bv8, sender: bv8, messageType: bv8)
    ensures MessageType(MessageId(destination, sender, messageType)) == messageType
    ensures MessageSender(MessageId(destination, sender, messageType)) == sender
  {
  }

  /** The identifier's bytes from the top: 0x80, destination, sender, type. */
  lemma MessageIdBytes(destination: bv8, sender: bv8, messageType: bv8)
    ensures var id := MessageId(destination, sender, messageType);
            && id >> 24 == 0x80 && (id >> 16) & 0xFF == destination as bv32
            && (id >> 8) & 0xFF == sender as bv32 && id & 0xFF == messageType as bv32
  {
  }

  lemma FilterBits(destination: bv8, sender: bv8, messageType: bv8, nodeId: bv8)
    ensures var frame := Layout(true, MessageId(destination, sender, messageType) & EFF_MASK);
            Accepted(nodeId, frame) <==> destination == 0 || destination == nodeId
  {
  }
}
