/**
 * The software-simulated I/O backend: a dictionary from channel to the last
 * state written to it. Reading a channel never written gives `false`.
 */
module MockIo {

  /** The value `GetInput` reports for a channel, given the dictionary's contents. */
  function Lookup(states: map<int, bool>, channel: int): (state: bool)
    ensures channel !in states ==> !state
    ensures channel in states ==> state == states[channel]
  {
    if channel in states then states[channel] else false
  }

  class MockIoController {
    var inputStates: map<int, bool>

    constructor ()
      ensures inputStates == map[]
    {
      inputStates := map[];
    }

    /** Records `state` as the channel's value (the console line is not modelled). */
    method SetOutput(channel: int, state: bool)
      modifies this
      ensures inputStates == old(inputStates)[channel := state]
      ensures inputStates.Keys == old(inputStates.Keys) + {channel}
      ensures Lookup(inputStates, channel) == state
      ensures forall c :: c != channel ==> Lookup(inputStates, c) == Lookup(old(inputStates), c)
    {
      inputStates := inputStates[channel := state];
    }

    /** The channel's last written state, or `false` if it was never written; changes nothing. */
    method GetInput(channel: int) returns (state: bool)
      ensures state == Lookup(inputStates, channel)
    {
      state := Lookup(inputStates, channel);
    }
  }

  /** After writing `state` to a channel, reading it back gives `state`. */
  lemma ReadBack(states: map<int, bool>, channel: int, state: bool)
    ensures Lookup(states[channel := state], channel) == state
  {
  }

  /** A channel that was never written reads as `false`. */
  lemma DefaultIsFalse(states: map<int, bool>, channel: int)
    requires channel !in states
    ensures !Lookup(states, channel)
  {
  }

  /** Writing one channel leaves every other channel's entry, present or absent, as it was. */
  lemma WriteFrame(states: map<int, bool>, channel: int, state: bool, other: int)
    requires other != channel
    ensures other in states[channel := state] <==> other in states
    ensures other in states ==> states[channel := state][other] == states[other]
  {
  }

  /** A later write to the same channel overwrites an earlier one. */
  lemma LastWriteWins(states: map<int, bool>, channel: int, first: bool, second: bool)
    ensures states[channel := first][channel := second] == states[channel := second]
    ensures Lookup(states[channel := first][channel := second], channel) == second
  {
  }

  /** A sequence of writes followed by a read: the read sees the last write to that channel. */
  function ApplyWrites(states: map<int, bool>, writes: seq<(int, bool)>): map<int, bool>
    decreases |writes|
  {
    if writes == [] then states
    else ApplyWrites(states[writes[0].0 := writes[0].1], writes[1..])
  }

  /** The index of the last write to `channel` in `writes`, if any. */
  function LastWriteTo(writes: seq<(int, bool)>, channel: int): (k: int)
    ensures -1 <= k < |writes|
    ensures k >= 0 ==> writes[k].0 == channel
    ensures forall j :: k < j < |writes| ==> writes[j].0 != channel
    decreases |writes|
  {
    if writes == [] then -1
    else if writes[|writes| - 1].0 == channel then |writes| - 1
    else LastWriteTo(writes[..|writes| - 1], channel)
  }

  /** Last write wins over any number of writes: a read returns the last value written there, else the original. */
  lemma {:induction false} ReadAfterWrites(states: map<int, bool>, writes: seq<(int, bool)>, channel: int)
    ensures var k := LastWriteTo(writes, channel);
            Lookup(ApplyWrites(states, writes), channel)
              == if k >= 0 then writes[k].1 else Lookup(states, channel)
    decreases |writes|
  {
    if writes != [] {
      var rest := writes[1..];
      ReadAfterWrites(states[writes[0].0 := writes[0].1], rest, channel);
      var k := LastWriteTo(writes, channel);
      var k' := LastWriteTo(rest, channel);
      if k' >= 0 {
        assert rest[k'] == writes[k' + 1];
        LastWriteIsUnique(writes, channel, k' + 1);
      } else {
        assert forall j :: 0 < j < |writes| ==> writes[j].0 != channel by {
          forall j | 0 < j < |writes| ensures writes[j].0 != channel {
            assert rest[j - 1] == writes[j];
          }
        }
        if writes[0].0 == channel {
          LastWriteIsUnique(writes, channel, 0);
        } else {
          assert forall j :: 0 <= j < |writes| ==> writes[j].0 != channel;
          NoWriteTo(writes, channel);
        }
      }
    }
  }

  /** The contract of `LastWriteTo` pins it down: the last index writing the channel is it. */
  lemma LastWriteIsUnique(writes: seq<(int, bool)>, channel: int, k: int)
    requires 0 <= k < |writes| && writes[k].0 == channel
    requires forall j :: k < j < |writes| ==> writes[j].0 != channel
    ensures LastWriteTo(writes, channel) == k
  {
  }

  /** With no write to the channel, `LastWriteTo` finds none. */
  lemma NoWriteTo(writes: seq<(int, bool)>, channel: int)
    requires forall j :: 0 <= j < |writes| ==> writes[j].0 != channel
    ensures LastWriteTo(writes, channel) == -1
  {
  }
}
