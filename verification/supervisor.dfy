/**
 * The host's connection supervisor: the retry loop, the heartbeat loop, and
 * the coupling between the connection flag, the fail-safe output on channel 0
 * and the disconnect audit log.
 *
 * The transport is not modelled; each outer iteration is driven by an
 * `Attempt`: either the connect call throws a `Failure`, or it succeeds and
 * the heartbeat loop then sees a sequence of per-cycle outcomes. The I/O
 * backend is the simulated one (`MockIo`), and the audit log keeps reasons
 * only (no timestamps, no file).
 *
 * The pure functions below say what one step does to a `SupervisorState`;
 * the class `Supervisor` runs the loops on its fields and is proved to agree
 * with them.
 */
module Supervision {
  import opened Classifier
  import MockIo

  const DefaultPort: int := 5000
  const MaxPort: int := 65535
  /** The output channel that signals "link not confirmed". */
  const FailSafeChannel: int := 0

  predicate ValidPort(port: int) {
    0 < port <= MaxPort
  }

  /** The configured port, or the default when the configured one is out of range. */
  function NormalizePort(configured: int): (port: int)
    ensures ValidPort(port)
    ensures ValidPort(configured) ==> port == configured
    ensures !ValidPort(configured) ==> port == DefaultPort
  {
    if configured <= 0 || configured > MaxPort then DefaultPort else configured
  }

  /** Normalising an already normalised port changes nothing. */
  lemma NormalizePortIdempotent(configured: int)
    ensures NormalizePort(NormalizePort(configured)) == NormalizePort(configured)
  {
  }

  /** How one heartbeat cycle (write, read, inter-cycle delay) ends. */
  datatype CycleOutcome =
    | Ok             // a non-empty response was read and the delay elapsed
    | TimedOut       // the 30-second budget for the write and read ran out
    | ZeroBytes      // the read returned no bytes: the device closed the connection
    | ResetOrAbort   // an I/O exception wrapping a connection reset or abort
    | OtherError     // any other exception
    | Cancelled      // the shutdown signal fired during the cycle

  /** One iteration of the retry loop, as the transport lets it happen. */
  datatype Attempt =
    | ConnectFails(failure: Failure, networkAvailable: bool)
    | Connects(cycles: seq<CycleOutcome>)

  /** The state the supervisor owns: the connection flag, the I/O backend's channels, the audit log and the shutdown flag. */
  datatype SupervisorState = SupervisorState(
    connected: bool,
    outputs: map<int, bool>,
    audit: seq<DisconnectReason>,
    cancelled: bool)

  const Initial: SupervisorState := SupervisorState(false, map[], [], false)

  /** The outcomes that leave the heartbeat loop by `break`. */
  predicate EndsHeartbeat(outcome: CycleOutcome)
    ensures EndsHeartbeat(outcome) <==> !(outcome.Ok? || outcome.TimedOut? || outcome.Cancelled?)
  {
    outcome.ZeroBytes? || outcome.ResetOrAbort? || outcome.OtherError?
  }

  /** A successful connect: the flag is raised and the fail-safe output cleared. */
  function AfterConnect(s: SupervisorState): (t: SupervisorState)
    ensures t.connected && FailSafeChannel in t.outputs && !t.outputs[FailSafeChannel]
    ensures t.outputs.Keys == s.outputs.Keys + {FailSafeChannel}
    ensures forall c :: c != FailSafeChannel ==> MockIo.Lookup(t.outputs, c) == MockIo.Lookup(s.outputs, c)
    ensures t.audit == s.audit && t.cancelled == s.cancelled
  {
    s.(connected := true, outputs := s.outputs[FailSafeChannel := false])
  }

  /**
   * The handler of an exception that reaches the retry loop: one audit record
   * with the reason; if the link was up, the fail-safe output is asserted and
   * the flag lowered, otherwise nothing else changes.
   */
  function AfterFailure(s: SupervisorState, reason: DisconnectReason): (t: SupervisorState)
    ensures t.audit == s.audit + [reason]
    ensures !t.connected && t.cancelled == s.cancelled
    ensures s.connected ==> FailSafeChannel in t.outputs && t.outputs[FailSafeChannel]
    ensures forall c :: c != FailSafeChannel ==> MockIo.Lookup(t.outputs, c) == MockIo.Lookup(s.outputs, c)
    ensures !s.connected ==> t.outputs == s.outputs
    ensures t.outputs.Keys == s.outputs.Keys + (if s.connected then {FailSafeChannel} else {})
  {
    if s.connected then
      s.(audit := s.audit + [reason], outputs := s.outputs[FailSafeChannel := true], connected := false)
    else
      s.(audit := s.audit + [reason])
  }

  /**
   * The heartbeat loop. Timed-out and successful cycles continue; a
   * cancelled cycle continues too, and the loop guard then stops; the other
   * outcomes `break`. Nothing but the shutdown flag can change.
   */
  function AfterCycles(s: SupervisorState, cycles: seq<CycleOutcome>): (t: SupervisorState)
    ensures t == s || t == s.(cancelled := true)
    ensures t.cancelled <==> s.cancelled || CancelledBeforeEnd(cycles)
    decreases |cycles|
  {
    if cycles == [] || s.cancelled then s
    else match cycles[0]
      case Ok | TimedOut => AfterCycles(s, cycles[1..])
      case Cancelled => AfterCycles(s.(cancelled := true), cycles[1..])
      case ZeroBytes | ResetOrAbort | OtherError => s
  }

  /** A `Cancelled` cycle comes before any cycle that ends the heartbeat loop. */
  predicate CancelledBeforeEnd(cycles: seq<CycleOutcome>)
    decreases |cycles|
  {
    cycles != [] && !EndsHeartbeat(cycles[0]) && (cycles[0].Cancelled? || CancelledBeforeEnd(cycles[1..]))
  }

  /** One iteration of the retry loop. */
  function AfterAttempt(s: SupervisorState, a: Attempt): (t: SupervisorState)
    ensures a.ConnectFails? ==> t.audit == s.audit + [Classify(a.failure, a.networkAvailable)] && !t.connected
    ensures a.Connects? ==> t.audit == s.audit && t.connected && FailSafeChannel in t.outputs && !t.outputs[FailSafeChannel]
    ensures t.cancelled <==> s.cancelled || (a.Connects? && CancelledBeforeEnd(a.cycles))
    ensures s.outputs.Keys <= t.outputs.Keys
  {
    match a
    case ConnectFails(f, networkAvailable) => AfterFailure(s, Classify(f, networkAvailable))
    case Connects(cycles) => AfterCycles(AfterConnect(s), cycles)
  }

  /** The retry loop: it runs until the attempts are exhausted or the shutdown flag is seen. */
  function AfterRun(s: SupervisorState, attempts: seq<Attempt>): (t: SupervisorState)
    ensures s.cancelled ==> t == s
    ensures s.audit <= t.audit && |t.audit| <= |s.audit| + |attempts|
    ensures s.outputs.Keys <= t.outputs.Keys
    decreases |attempts|
  {
    if attempts == [] || s.cancelled then s
    else AfterRun(AfterAttempt(s, attempts[0]), attempts[1..])
  }

  /**
   * The fail-safe invariant: while connected the fail-safe channel holds
   * `false`; once it has been written at all it holds `!connected`.
   */
  predicate FailSafeConsistent(s: SupervisorState) {
    && (s.connected ==> FailSafeChannel in s.outputs)
    && (FailSafeChannel in s.outputs ==> s.outputs[FailSafeChannel] == !s.connected)
  }

  /** No attempt's heartbeat loop sees the shutdown signal. */
  predicate NoShutdown(attempts: seq<Attempt>) {
    forall i :: 0 <= i < |attempts| && attempts[i].Connects? ==> Cancelled !in attempts[i].cycles
  }

  /** The number of failed connect attempts, counted from the back. */
  function FailedConnectCount(attempts: seq<Attempt>): nat
    decreases |attempts|
  {
    if attempts == [] then 0
    else FailedConnectCount(attempts[..|attempts| - 1]) + (if attempts[|attempts| - 1].ConnectFails? then 1 else 0)
  }

  /** The same count taken from the front. */
  lemma {:induction false} FailedConnectCountFront(attempts: seq<Attempt>)
    requires attempts != []
    ensures FailedConnectCount(attempts)
            == (if attempts[0].ConnectFails? then 1 else 0) + FailedConnectCount(attempts[1..])
    decreases |attempts|
  {
    if |attempts| > 1 {
      var front := attempts[..|attempts| - 1];
      FailedConnectCountFront(front);
      assert front[1..] == attempts[1..][..|attempts[1..]| - 1];
    }
  }

  /** The audit records the failed connect attempts would produce, in order: one per failed attempt. */
  function FailureReasons(attempts: seq<Attempt>): (reasons: seq<DisconnectReason>)
    ensures |reasons| == FailedConnectCount(attempts)
    decreases |attempts|
  {
    if attempts == [] then []
    else
      FailedConnectCountFront(attempts);
      var rest := FailureReasons(attempts[1..]);
      match attempts[0]
      case ConnectFails(f, networkAvailable) => [Classify(f, networkAvailable)] + rest
      case Connects(_) => rest
  }

  lemma InitialIsConsistent()
    ensures FailSafeConsistent(Initial)
  {
  }

  /** One iteration of the retry loop keeps the fail-safe invariant. */
  lemma AttemptKeepsFailSafe(s: SupervisorState, a: Attempt)
    requires FailSafeConsistent(s)
    ensures FailSafeConsistent(AfterAttempt(s, a))
  {
    if a.Connects? {
      var t := AfterConnect(s);
      assert FailSafeConsistent(t);
    }
  }

  /** The whole retry loop keeps the fail-safe invariant. */
  lemma {:induction false} RunKeepsFailSafe(s: SupervisorState, attempts: seq<Attempt>)
    requires FailSafeConsistent(s)
    ensures FailSafeConsistent(AfterRun(s, attempts))
    decreases |attempts|
  {
    if attempts != [] && !s.cancelled {
      AttemptKeepsFailSafe(s, attempts[0]);
      RunKeepsFailSafe(AfterAttempt(s, attempts[0]), attempts[1..]);
    }
  }

  /**
   * Once a connection has succeeded (the fail-safe channel has been written),
   * the fail-safe output equals "not connected" after every later step.
   */
  lemma FailSafeTracksConnection(s: SupervisorState, attempts: seq<Attempt>)
    requires FailSafeConsistent(s) && FailSafeChannel in s.outputs
    ensures var t := AfterRun(s, attempts);
            FailSafeChannel in t.outputs && t.outputs[FailSafeChannel] == !t.connected
  {
    RunKeepsFailSafe(s, attempts);
  }

  /**
   * Without a shutdown, the retry loop processes every attempt and appends
   * exactly one audit record per failed connect attempt, the classified reason.
   */
  lemma {:induction false} AuditRecordsFailedConnects(s: SupervisorState, attempts: seq<Attempt>)
    requires !s.cancelled && NoShutdown(attempts)
    ensures AfterRun(s, attempts).audit == s.audit + FailureReasons(attempts)
    ensures |AfterRun(s, attempts).audit| == |s.audit| + FailedConnectCount(attempts)
    ensures !AfterRun(s, attempts).cancelled
    decreases |attempts|
  {
    if attempts != [] {
      var t := AfterAttempt(s, attempts[0]);
      if attempts[0].Connects? {
        assert Cancelled !in attempts[0].cycles;
        NoCancelledCycle(AfterConnect(s), attempts[0].cycles);
      }
      assert NoShutdown(attempts[1..]) by {
        forall i | 0 <= i < |attempts[1..]| && attempts[1..][i].Connects?
          ensures Cancelled !in attempts[1..][i].cycles
        {
          assert attempts[1..][i] == attempts[i + 1];
        }
      }
      AuditRecordsFailedConnects(t, attempts[1..]);
      match attempts[0]
      case ConnectFails(f, networkAvailable) =>
        assert FailureReasons(attempts) == [Classify(f, networkAvailable)] + FailureReasons(attempts[1..]);
        assert t.audit == s.audit + [Classify(f, networkAvailable)];
        assert s.audit + FailureReasons(attempts) == t.audit + FailureReasons(attempts[1..]);
      case Connects(_) =>
        assert FailureReasons(attempts) == FailureReasons(attempts[1..]);
    }
  }

  /** Without a `Cancelled` outcome, the heartbeat loop changes nothing. */
  lemma {:induction false} NoCancelledCycle(s: SupervisorState, cycles: seq<CycleOutcome>)
    requires Cancelled !in cycles
    ensures AfterCycles(s, cycles) == s
    decreases |cycles|
  {
    if cycles != [] && !s.cancelled && !EndsHeartbeat(cycles[0]) {
      NoCancelledCycle(s, cycles[1..]);
    }
  }

  /**
   * However the heartbeat loop ends without a shutdown (device closed, reset,
   * other error, link gone), the link stays "connected": no audit record is
   * written and the fail-safe output stays cleared.
   */
  lemma HeartbeatExitKeepsConnected(s: SupervisorState, cycles: seq<CycleOutcome>)
    requires Cancelled !in cycles
    ensures var t := AfterAttempt(s, Connects(cycles));
            && t.connected
            && t.outputs[FailSafeChannel] == false
            && t.audit == s.audit
  {
    NoCancelledCycle(AfterConnect(s), cycles);
  }

  /**
   * After a lost link, the fail-safe output is asserted, and the loss is
   * audited, only when a later connect attempt fails.
   */
  lemma FailSafeDeferredToNextFailure(s: SupervisorState, cycles: seq<CycleOutcome>, f: Failure, networkAvailable: bool)
    requires !s.cancelled && Cancelled !in cycles
    ensures var t := AfterRun(s, [Connects(cycles), ConnectFails(f, networkAvailable)]);
            && !t.connected
            && FailSafeChannel in t.outputs && t.outputs[FailSafeChannel] == true
            && t.audit == s.audit + [Classify(f, networkAvailable)]
  {
    NoCancelledCycle(AfterConnect(s), cycles);
    var u := AfterAttempt(s, Connects(cycles));
    assert [Connects(cycles), ConnectFails(f, networkAvailable)][1..] == [ConnectFails(f, networkAvailable)];
    assert AfterRun(u, [ConnectFails(f, networkAvailable)]) == AfterAttempt(u, ConnectFails(f, networkAvailable));
  }

  /** A connect that times out before any connection: recorded as `Timeout`, fail-safe untouched. */
  lemma ConnectTimeoutBeforeConnecting(f: Failure, networkAvailable: bool)
    requires IsTimeoutLike(f.kind)
    ensures var t := AfterRun(Initial, [ConnectFails(f, networkAvailable)]);
            t.audit == [Timeout] && t.outputs == map[] && !t.connected
  {
    assert AfterRun(Initial, [ConnectFails(f, networkAvailable)])
        == AfterRun(AfterAttempt(Initial, ConnectFails(f, networkAvailable)), []);
  }

  /**
   * Before the first successful connect, failed attempts never write the
   * fail-safe channel: it stays absent from the backend, so reading it gives
   * `false` although the link is down.
   */
  lemma {:induction false} NoFailSafeBeforeFirstConnect(s: SupervisorState, attempts: seq<Attempt>)
    requires !s.connected && FailSafeChannel !in s.outputs
    requires forall i :: 0 <= i < |attempts| ==> attempts[i].ConnectFails?
    ensures var t := AfterRun(s, attempts);
            && !t.connected
            && t.outputs == s.outputs
            && !MockIo.Lookup(t.outputs, FailSafeChannel)
    decreases |attempts|
  {
    if attempts != [] && !s.cancelled {
      assert attempts[0].ConnectFails?;
      assert forall i :: 0 <= i < |attempts[1..]| ==> attempts[1..][i] == attempts[i + 1];
      NoFailSafeBeforeFirstConnect(AfterAttempt(s, attempts[0]), attempts[1..]);
    }
  }

  /**
   * A shutdown during the heartbeat loop ends both loops with the link still
   * flagged as connected and the fail-safe output cleared; nothing is audited,
   * and any further attempts are never made.
   */
  lemma ShutdownLeavesConnected(s: SupervisorState, cycles: seq<CycleOutcome>, later: seq<Attempt>)
    requires !s.cancelled && CancelledBeforeEnd(cycles)
    ensures var t := AfterRun(s, [Connects(cycles)] + later);
            && t.cancelled && t.connected
            && FailSafeChannel in t.outputs && !t.outputs[FailSafeChannel]
            && t.audit == s.audit
  {
    var attempts := [Connects(cycles)] + later;
    assert attempts[0] == Connects(cycles);
  }

  class Supervisor {
    /** The port the connect calls use. */
    const port: int
    /** The I/O backend; channel 0 is the fail-safe output. */
    const io: MockIo.MockIoController
    var isConnected: bool
    var audit: seq<DisconnectReason>
    /** The shutdown signal has fired. */
    var cancelled: bool

    function State(): SupervisorState
      reads this, io
    {
      SupervisorState(isConnected, io.inputStates, audit, cancelled)
    }

    /** Normalises the configured port and starts disconnected, with an empty audit log. */
    constructor (configuredPort: int, backend: MockIo.MockIoController)
      ensures port == NormalizePort(configuredPort) && io == backend
      ensures State() == SupervisorState(false, backend.inputStates, [], false)
    {
      port := NormalizePort(configuredPort);
      io := backend;
      isConnected := false;
      audit := [];
      cancelled := false;
    }

    /** The connect call returned: raise the flag and clear the fail-safe output. */
    method OnConnected()
      modifies this, io
      ensures State() == AfterConnect(old(State()))
    {
      isConnected := true;
      io.SetOutput(FailSafeChannel, false);
    }

    /** An exception reached the retry loop: classify it, audit it, and assert the fail-safe output if the link was up. */
    method OnConnectFailed(f: Failure, networkAvailable: bool)
      modifies this, io
      ensures State() == AfterFailure(old(State()), Classify(f, networkAvailable))
    {
      var reason := Classify(f, networkAvailable);
      if isConnected {
        audit := audit + [reason];
        io.SetOutput(FailSafeChannel, true);
        isConnected := false;
      } else {
        audit := audit + [reason];
      }
    }

    /** The heartbeat loop, driven by the outcome of each cycle. */
    method RunHeartbeat(cycles: seq<CycleOutcome>)
      modifies this
      ensures State() == AfterCycles(old(State()), cycles)
    {
      var i := 0;
      while i < |cycles| && !cancelled
        invariant 0 <= i <= |cycles|
        invariant AfterCycles(State(), cycles[i..]) == AfterCycles(old(State()), cycles)
      {
        var outcome := cycles[i];
        if EndsHeartbeat(outcome) {
          break;
        }
        if outcome.Cancelled? {
          cancelled := true;
        }
        i := i + 1;
      }
    }

    /** One iteration of the retry loop. */
    method RunAttempt(a: Attempt)
      modifies this, io
      ensures State() == AfterAttempt(old(State()), a)
    {
      match a
      case ConnectFails(f, networkAvailable) =>
        OnConnectFailed(f, networkAvailable);
      case Connects(cycles) =>
        OnConnected();
        RunHeartbeat(cycles);
    }

    /** The retry loop, until the attempts run out or the shutdown flag is seen; it keeps the fail-safe invariant. */
    method Run(attempts: seq<Attempt>)
      modifies this, io
      ensures State() == AfterRun(old(State()), attempts)
      ensures FailSafeConsistent(old(State())) ==> FailSafeConsistent(State())
    {
      var i := 0;
      while i < |attempts| && !cancelled
        invariant 0 <= i <= |attempts|
        invariant AfterRun(State(), attempts[i..]) == AfterRun(old(State()), attempts)
      {
        RunAttempt(attempts[i]);
        i := i + 1;
      }
      if FailSafeConsistent(old(State())) {
        RunKeepsFailSafe(old(State()), attempts);
      }
    }
  }
}
