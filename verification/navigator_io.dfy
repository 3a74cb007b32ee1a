/**
 * The hardware-bound I/O backend: each channel is one bit of one port byte
 * of the board's digital-output (or digital-input) register. Setting an
 * output is a read-modify-write of that byte; reading an input tests one
 * bit. The vendor objects are replaced by two byte arrays, one per register,
 * indexed by port, and by two flags saying whether the vendor call on that
 * register raises an exception (which the backend swallows).
 */
module Navigator {

  /** The channels whose port index fits the byte the vendor call takes. */
  const ChannelCount: int := 2048
  /** Port indices are bytes. */
  const PortCount: int := 256

  /** The port byte holding a channel (`channel / 8`). */
  function PortOf(channel: int): (port: nat)
    requires 0 <= channel < ChannelCount
    ensures port < PortCount
    ensures 8 * port <= channel < 8 * port + 8
  {
    channel / 8
  }

  /** The bit of the port byte holding a channel (`channel % 8`). */
  function BitOf(channel: int): (bit: nat)
    requires 0 <= channel < ChannelCount
    ensures bit < 8
    ensures 8 * PortOf(channel) + bit == channel
  {
    channel % 8
  }

  /** Bit `j` (0 = least significant) of byte `b` is set. */
  predicate BitSet(b: bv8, j: nat)
    requires j < 8
  {
    (b >> j) & 1 == 1
  }

  /** The one-bit mask `1 << bit`. */
  function Mask(bit: nat): (m: bv8)
    requires bit < 8
    ensures forall j :: 0 <= j < 8 ==> (BitSet(m, j) <==> j == bit)
  {
    1 << bit
  }

  /** The new port byte: the mask's bit raised when `state` holds, cleared otherwise. */
  function Update(current: bv8, mask: bv8, state: bool): (r: bv8)
    ensures r & mask == (if state then mask else 0)
    ensures r & !mask == current & !mask
  {
    if state then current | mask else current & !mask
  }

  /** Testing a byte against a one-bit mask reads that bit. */
  lemma MaskTestsBit(b: bv8, bit: nat)
    requires bit < 8
    ensures (b & Mask(bit) != 0) == BitSet(b, bit)
  {
  }

  /** The updated byte has bit `bit` equal to `state`. */
  lemma UpdateSetsBit(current: bv8, bit: nat, state: bool)
    requires bit < 8
    ensures BitSet(Update(current, Mask(bit), state), bit) == state
  {
  }

  /** The updated byte keeps its other seven bits. */
  lemma UpdateKeepsOtherBits(current: bv8, bit: nat, state: bool, j: nat)
    requires bit < 8 && j < 8 && j != bit
    ensures BitSet(Update(current, Mask(bit), state), j) == BitSet(current, j)
  {
  }

  /** Updating twice with the same bit and state gives what updating once gives. */
  lemma UpdateIdempotent(current: bv8, bit: nat, state: bool)
    requires bit < 8
    ensures Update(Update(current, Mask(bit), state), Mask(bit), state) == Update(current, Mask(bit), state)
  {
  }

  /** Testing the channel's mask on a byte written for that channel gives the state written. */
  lemma ReadBackAfterUpdate(current: bv8, channel: int, state: bool)
    requires 0 <= channel < ChannelCount
    ensures var mask := Mask(BitOf(channel));
            (Update(current, mask, state) & mask != 0) == state
  {
    UpdateSetsBit(current, BitOf(channel), state);
    MaskTestsBit(Update(current, Mask(BitOf(channel)), state), BitOf(channel));
  }

  /** The register after `SetOutput`: only the channel's port byte changes, unless the vendor call fails. */
  function AfterSetOutput(ports: seq<bv8>, fault: bool, channel: int, state: bool): (r: seq<bv8>)
    requires |ports| == PortCount && 0 <= channel < ChannelCount
    ensures |r| == PortCount
    ensures fault ==> r == ports
    ensures forall p :: 0 <= p < PortCount && p != PortOf(channel) ==> r[p] == ports[p]
  {
    if fault then ports
    else ports[PortOf(channel) := Update(ports[PortOf(channel)], Mask(BitOf(channel)), state)]
  }

  /** Setting a channel twice to the same state leaves the register as setting it once. */
  lemma SetOutputIdempotent(ports: seq<bv8>, fault: bool, channel: int, state: bool)
    requires |ports| == PortCount && 0 <= channel < ChannelCount
    ensures var once := AfterSetOutput(ports, fault, channel, state);
            AfterSetOutput(once, fault, channel, state) == once
  {
    UpdateIdempotent(ports[PortOf(channel)], BitOf(channel), state);
  }

  /** Without a vendor failure, the channel's bit in the register is the state written, and no other channel changes. */
  lemma SetOutputEffect(ports: seq<bv8>, channel: int, state: bool, other: int)
    requires |ports| == PortCount && 0 <= channel < ChannelCount && 0 <= other < ChannelCount
    ensures var r := AfterSetOutput(ports, false, channel, state);
            BitSet(r[PortOf(other)], BitOf(other))
              == if other == channel then state else BitSet(ports[PortOf(other)], BitOf(other))
  {
    if other == channel {
      UpdateSetsBit(ports[PortOf(channel)], BitOf(channel), state);
    } else if PortOf(other) == PortOf(channel) {
      UpdateKeepsOtherBits(ports[PortOf(channel)], BitOf(channel), state, BitOf(other));
    }
  }

  class NavigatorIO {
    /** The digital-output register, one byte per port. */
    const outputPorts: array<bv8>
    /** The digital-input register, one byte per port. */
    const inputPorts: array<bv8>
    /** The vendor's output-register read or write raises an exception. */
    var outputFault: bool
    /** The vendor's input-register read raises an exception. */
    var inputFault: bool

    ghost predicate Valid()
      reads this
    {
      outputPorts.Length == PortCount && inputPorts.Length == PortCount
    }

    constructor (outputs: array<bv8>, inputs: array<bv8>)
      requires outputs.Length == PortCount && inputs.Length == PortCount
      ensures Valid() && outputPorts == outputs && inputPorts == inputs
      ensures !outputFault && !inputFault
    {
      outputPorts := outputs;
      inputPorts := inputs;
      outputFault := false;
      inputFault := false;
    }

    /**
     * Reads the channel's port byte, raises or clears the channel's bit and
     * writes the byte back. A vendor exception is swallowed and leaves the
     * register as it was (the console lines are not modelled).
     */
    method SetOutput(channel: int, state: bool)
      requires Valid() && 0 <= channel < ChannelCount
      modifies outputPorts
      ensures outputPorts[..] == AfterSetOutput(old(outputPorts[..]), outputFault, channel, state)
      ensures !outputFault ==> BitSet(outputPorts[PortOf(channel)], BitOf(channel)) == state
    {
      var port := PortOf(channel);
      var bit := BitOf(channel);
      var mask := Mask(bit);
      if !outputFault {
        var currentValue := outputPorts[port];
        var newValue := Update(currentValue, mask, state);
        UpdateSetsBit(currentValue, bit, state);
        outputPorts[port] := newValue;
        assert outputPorts[..] == old(outputPorts[..])[port := newValue];
      }
    }

    /** Tests the channel's bit of its input port byte; a vendor exception gives `false`. */
    method GetInput(channel: int) returns (result: bool)
      requires Valid() && 0 <= channel < ChannelCount
      ensures result == (!inputFault && BitSet(inputPorts[PortOf(channel)], BitOf(channel)))
    {
      var port := PortOf(channel);
      var bit := BitOf(channel);
      var mask := Mask(bit);
      if inputFault {
        return false;
      }
      var value := inputPorts[port];
      result := value & mask != 0;
      MaskTestsBit(value, bit);
    }
  }
}
