/** The 16-bit fixed-point code of a duty cycle on the bus: one value in [-300, 300] per two bytes. */
module FixedPoint {
  type byte = x: int | 0 <= x < 256
  type int16 = x: int | -0x8000 <= x < 0x8000

  /** round(): to the nearest integer, halves away from zero. */
  function Round(x: real): int {
    if x >= 0.0 then (x + 0.5).Floor else -((-x + 0.5).Floor)
  }

  /** Conversion to a signed 16-bit integer, keeping the low 16 bits. */
  function ToInt16(v: int): int16 {
    if v % 0x1_0000 >= 0x8000 then v % 0x1_0000 - 0x1_0000 else v % 0x1_0000
  }

  function Quantise(v: real): int16 {
    ToInt16(Round(v * 32767.0 / 300.0))
  }

  function Dequantise(aux: int16): real {
    aux as real * 300.0 / 32767.0
  }

  /** What a receiver makes of a value sent to it. */
  function Received(v: real): real {
    Dequantise(Quantise(v))
  }

  /** (aux >> 8) & 0xFF and aux & 0xFF. */
  function High(aux: int16): byte { aux / 0x100 % 0x100 }
  function Low(aux: int16): byte { aux % 0x100 }

  /** The receiver's reassembly: two bytes to an unsigned and then to a signed 16-bit value. */
  function Join(high: byte, low: byte): int16 {
    ToInt16(high * 0x100 + low)
  }

  /** The byte split is undone exactly, sign included, and only by these two bytes. */
  lemma SplitJoin(aux: int16, high: byte, low: byte)
    ensures Join(high, low) == aux <==> high == High(aux) && low == Low(aux)
  {
    hide ToInt16, High, Low;
    var u := if aux < 0 then aux + 0x1_0000 else aux;
    HighLow(aux, u);
    LowBits(high * 0x100 + low);
    if high * 0x100 + low == u {
      Digits(high, low, High(aux), Low(aux));
    }
  }

  lemma LowBits(v: int)
    requires 0 <= v < 0x1_0000
    ensures ToInt16(v) == if v >= 0x8000 then v - 0x1_0000 else v
  {
  }

  lemma HighLow(aux: int16, u: int)
    requires u == if aux < 0 then aux + 0x1_0000 else aux
    ensures u == High(aux) * 0x100 + Low(aux)
  {
  }

  lemma Digits(high: byte, low: byte, high': byte, low': byte)
    requires high * 0x100 + low == high' * 0x100 + low'
    ensures high == high' && low == low'
  {
  }

  /** Half a quantisation step. */
  const HALF_STEP: real := 150.0 / 32767.0

  /** Within the coded range the value received is within half a step of the value sent. */
  lemma ReceivedNear(v: real)
    requires -300.0 <= v <= 300.0
    ensures -150.0 / 32767.0 <= Received(v) - v <= 150.0 / 32767.0
  {
    var x := v * 32767.0 / 300.0;
    assert -32767.0 <= x <= 32767.0;
    var r := Round(x);
    assert -0.5 <= r as real - x <= 0.5;
    assert -0x8000 <= r < 0x8000;
    assert ToInt16(r) == r;
  }

  /** Multiples of the step inside the range travel unchanged. */
  lemma ReceivedExact(q: int16)
    requires -32767 <= q
    ensures Received(q as real * 300.0 / 32767.0) == q as real * 300.0 / 32767.0
  {
    assert Dequantise(q) * 32767.0 / 300.0 == q as real;
    assert Round(q as real) == q;
  }

  // The code on the wire.

  /** The two bytes sent for `v`, high byte first, are the whole number `r` nearest to 32767 / 300 of it,
      modulo 65536; of two nearest ones the one farther from zero. */
  lemma BytesSent(v: real) returns (r: int)
    ensures -0.5 <= r as real - v * 32767.0 / 300.0 <= 0.5
    ensures r as real - v * 32767.0 / 300.0 == 0.5 ==> v > 0.0
    ensures r as real - v * 32767.0 / 300.0 == -0.5 ==> v < 0.0
    ensures (High(Quantise(v)) * 256 + Low(Quantise(v)) - r) % 65536 == 0
  {
    r := Round(v * 32767.0 / 300.0);
    var aux: int := Quantise(v);
    Congruent(r);
    HighLow(aux, if aux < 0 then aux + 0x1_0000 else aux);
  }

  lemma Congruent(v: int)
    ensures (ToInt16(v) - v) % 65536 == 0 && (ToInt16(v) + 65536 - v) % 65536 == 0
  {
  }

  /** The value a receiver makes of two bytes: a signed number, high byte first, in steps of 300 / 32767. */
  lemma BytesReceived(high: byte, low: byte)
    ensures Dequantise(Join(high, low)) * 32767.0 == (high * 256 + low - if high >= 128 then 65536 else 0) as real * 300.0
  {
    LowBits(high * 0x100 + low);
  }
}
