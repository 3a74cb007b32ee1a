# Device link supervisor: a Dafny model

This project models the host side of a device-link supervisor. The host keeps
a TCP connection to a device alive. While the link is up, it sends a heartbeat
every cycle. It classifies why a connection failed, records each failure in an
audit log, and drives digital output channel 0 as a fail-safe signal:
`false` means the link is confirmed, `true` means it was lost.

The model has four modules:

- `Classifier` (`classifier.dfy`) models `DetectDisconnectReason`. A caught
  exception is a `Failure` value with three parts: the exception's type
  (timeout, cancellation, socket exception with its code, or anything else),
  the code of a socket exception wrapped inside it, and its message. The
  operating-system query "is any network interface up" becomes a boolean
  parameter. `Classify` is a total pure function onto the five
  `DisconnectReason` values. Lemmas state its precedence and which failures
  give each reason.
- `Supervision` (`supervisor.dfy`) models the connection logic of `MainSync`
  and its port normalisation. Pure functions (`AfterConnect`, `AfterFailure`,
  `AfterCycles`, `AfterAttempt`, `AfterRun`) say what each event does to a
  `SupervisorState`. That state holds the connection flag, the I/O backend's
  channel dictionary, the audit log of reasons and the shutdown flag. The
  class `Supervisor` holds the same state in fields and runs the two loops
  (`Run`, `RunHeartbeat`) with `while` loops. Each method is proved to agree
  with the matching pure function. Lemmas show three things: the fail-safe
  invariant is preserved, the audit log gets exactly one record per failed
  connect attempt, and a heartbeat-loop exit leaves the link marked connected.
- `MockIo` (`mock_io.dfy`) models the simulated I/O backend, a
  `MockIoController` class with a `map<int, bool>` field. The supervisor uses
  it as its I/O backend.
- `Navigator` (`navigator_io.dfy`) models the hardware backend's bit
  arithmetic. A channel maps to a port byte and a bit. The method reads the
  byte, raises or clears one bit through a mask, and writes the byte back.
  The vendor's output and input registers are two `array<bv8>` of 256 port
  bytes. A flag per register says whether the vendor call throws; the backend
  swallows that exception.

The model follows the code as written. Five behaviours of that code are
worth knowing, because a reader of the host's log or of channel 0 could
expect otherwise:

- **Heartbeat-loop exits.** A zero-byte read, a reset/abort or any other
  heartbeat error leaves the heartbeat loop by `break`
  (HostApp/Host.cs:93, 113, 118). Control never reaches the `catch` at
  HostApp/Host.cs:122. So there is no classification, no audit record and no
  fail-safe assertion, and `isConnected` stays true. Channel 0 stays `false`
  while the link is down. It becomes `true`, and the loss is audited, only
  when a later connect attempt throws (`HeartbeatExitKeepsConnected`,
  `FailSafeDeferredToNextFailure`).
- **Reconnecting.** A successful reconnect after such an exit clears channel 0
  again while `isConnected` is already true. So the clear is not limited to a
  transition into the connected state.
- **Audit records.** Every failed connect attempt appends an audit record,
  including repeated retries while disconnected (HostApp/Host.cs:133-138).
  A single outage therefore produces one record per retry, not one record.
- **Before the first connect.** While no connect has ever succeeded, a failed
  attempt takes the branch at HostApp/Host.cs:133-138, which does not write
  channel 0. The channel stays absent from the backend, so reading it gives
  `false` ("link confirmed") through every retry until the first connect
  succeeds (`NoFailSafeBeforeFirstConnect`).
- **Shutdown while connected.** A shutdown during the heartbeat loop is caught
  as a timeout (HostApp/Host.cs:102-107). The loop guards at
  HostApp/Host.cs:61 and 77 then end both loops. `isConnected` stays true,
  channel 0 stays `false`, and nothing is audited
  (`ShutdownLeavesConnected`).

## Model

| member | source | states |
|---|---|---|
| `Classifier.Classify` | HostApp/Host.cs:145-191 | total over all failures; the result is `Timeout` exactly when the exception is a timeout or cancellation; with no code at either level, `Unknown` only when no closing phrase is in the message and the network is up |
| `Classifier.DirectSocketReason` | HostApp/Host.cs:150-165 | the switch over a directly caught socket exception's code never yields `Timeout` |
| `Classifier.InnerSocketReason` | HostApp/Host.cs:166-181 | the switch over a wrapped socket exception's code never yields `Timeout` |
| `Classifier.DecidingCode` | HostApp/Host.cs:150-181 | the code the classifier decides on is absent exactly when there is no socket exception at either level |
| `Classifier.SwitchesAgree` | HostApp/Host.cs:152-180 | the two switches map every socket code, listed or not, to the same reason |
| `Classifier.TimeoutPrecedence` | HostApp/Host.cs:147-148 | a timeout or cancellation classifies as `Timeout` whatever code, wrapped exception, message or network flag it carries |
| `Classifier.DirectCodeDecides` | HostApp/Host.cs:150-165 | a socket exception is classified by its code alone; the wrapped exception, message and network flag are not consulted |
| `Classifier.InnerCodeDecides` | HostApp/Host.cs:166-181 | any wrapped socket code, including unlisted ones, decides the result; the message and network flag are not consulted |
| `Classifier.FallbackOnlyWithoutCodes` | HostApp/Host.cs:182-190 | if the message or the network flag changes the result, there is no timeout and no socket code at either level |
| `Classifier.ClassifyCharacterization` | HostApp/Host.cs:145-191 | for each of `PortBlocked`, `DeviceClosed`, `EthernetUnplugged`, `Unknown`, exactly which failures give it (both directions) |
| `Classifier.RefusedIsPortBlocked` | HostApp/Host.cs:150-181 | connection refused at either level, without a timeout, is `PortBlocked` |
| `Classifier.Contains` | HostApp/Host.cs:182-184 | the empty phrase is found in every message, and a phrase longer than the message is never found |
| `Classifier.MentionsClosedSocket` | HostApp/Host.cs:182-184 | the message test holds exactly when one of the three closing phrases occurs at some index of the message |
| `Classifier.ContainsIffOccurs` | HostApp/Host.cs:182-184 | the case-sensitive substring test holds exactly when the phrase occurs at some index of the message |
| `Classifier.ClosedPhraseIsDeviceClosed` | HostApp/Host.cs:182-185 | with no timeout and no code, a message containing "Disconnected", "socket closed" or "connection was closed" gives `DeviceClosed` |
| `Supervision.NormalizePort` | HostApp/Host.cs:55-59 | the result is always in (0, 65535]; an in-range port is kept; an out-of-range one becomes 5000 |
| `Supervision.NormalizePortIdempotent` | HostApp/Host.cs:55-59 | normalising twice equals normalising once |
| `Supervision.AfterConnect` | HostApp/Host.cs:71-73 | a successful connect sets connected, writes `false` to channel 0, adds channel 0 to the dictionary's keys, and changes no other channel and not the audit log |
| `Supervision.AfterFailure` | HostApp/Host.cs:122-138 | an exception reaching the retry loop appends exactly its reason to the audit log and leaves the link disconnected; if connected before, channel 0 becomes `true` and is added to the keys, otherwise the channels are unchanged; no other channel changes |
| `Supervision.EndsHeartbeat` | HostApp/Host.cs:90-119 | a cycle ends the heartbeat loop exactly when it is not a successful, timed-out or cancelled cycle |
| `Supervision.AfterCycles` | HostApp/Host.cs:77-120 | the heartbeat loop changes nothing but the shutdown flag, which becomes set exactly when a cancelled cycle comes before any loop-ending cycle |
| `Supervision.AfterAttempt` | HostApp/Host.cs:63-141 | a failed connect appends its classified reason and leaves the link down; a successful one leaves the audit log alone, the link up and channel 0 `false`; the shutdown flag is set exactly when it was, or a cancelled cycle comes before any loop-ending one; no channel is removed |
| `Supervision.AfterRun` | HostApp/Host.cs:61-142 | after shutdown has been observed nothing changes; the audit log only grows, by at most one record per attempt; no channel is ever removed from the backend's dictionary |
| `Supervision.FailureReasons` | HostApp/Host.cs:122-138 | the records failed connects produce number exactly the failed connect attempts |
| `Supervision.InitialIsConsistent` | HostApp/Host.cs:23 | the start state (disconnected, empty dictionary) satisfies the fail-safe invariant |
| `Supervision.AttemptKeepsFailSafe` | HostApp/Host.cs:63-141 | one retry-loop iteration keeps the fail-safe invariant |
| `Supervision.RunKeepsFailSafe` | HostApp/Host.cs:61-142 | the whole retry loop keeps the fail-safe invariant |
| `Supervision.FailSafeTracksConnection` | HostApp/Host.cs:72-137 | once a connection has succeeded, channel 0 equals "not connected" after every later step |
| `Supervision.AuditRecordsFailedConnects` | HostApp/Host.cs:122-138 | without shutdown, the audit log grows by exactly the classified reasons of the failed connect attempts, in order, one record per failed attempt |
| `Supervision.NoCancelledCycle` | HostApp/Host.cs:77-120 | a heartbeat loop with no cancelled cycle changes no state |
| `Supervision.HeartbeatExitKeepsConnected` | HostApp/Host.cs:90-119 | after a connect whose heartbeat loop ends by zero bytes, reset/abort, other error or link loss, the link is still marked connected, channel 0 is `false` and the audit log is unchanged |
| `Supervision.FailSafeDeferredToNextFailure` | HostApp/Host.cs:122-132 | a connect, a heartbeat-loop exit, then a failed connect: channel 0 is `true`, the link is disconnected, and one record with the failure's reason is appended |
| `Supervision.ConnectTimeoutBeforeConnecting` | HostApp/Host.cs:133-138 | a connect timeout from the start state is audited as `Timeout` and leaves channel 0 unwritten |
| `Supervision.NoFailSafeBeforeFirstConnect` | HostApp/Host.cs:122-138 | while every attempt fails and no connect has succeeded, the link stays down, the backend's channels are unchanged, and channel 0 reads `false` |
| `Supervision.ShutdownLeavesConnected` | HostApp/Host.cs:61-107 | a shutdown during the heartbeat loop ends the run with the link marked connected, channel 0 `false` and no audit record; later attempts are never made |
| `Supervision.Supervisor.constructor` | HostApp/Host.cs:55-59 | the supervisor uses the normalised port and starts disconnected with an empty audit log |
| `Supervision.Supervisor.OnConnected` | HostApp/Host.cs:71-73 | the new state is `AfterConnect` of the old |
| `Supervision.Supervisor.OnConnectFailed` | HostApp/Host.cs:122-138 | the new state is `AfterFailure` of the old state and the classified reason |
| `Supervision.Supervisor.RunHeartbeat` | HostApp/Host.cs:77-120 | the heartbeat loop's final state is `AfterCycles` of the initial one |
| `Supervision.Supervisor.RunAttempt` | HostApp/Host.cs:63-141 | one retry-loop iteration's final state is `AfterAttempt` of the initial one |
| `Supervision.Supervisor.Run` | HostApp/Host.cs:61-142 | the retry loop's final state is `AfterRun` of the initial one, and the fail-safe invariant holds at the end if it held at the start |
| `MockIo.MockIoController.constructor` | HostApp/MockIoController.cs:6 | the dictionary starts empty |
| `MockIo.MockIoController.SetOutput` | HostApp/MockIoController.cs:8-13 | the dictionary maps the channel to the state; the keys are the old keys plus the channel; every other channel reads as before |
| `MockIo.Lookup` | HostApp/MockIoController.cs:18 | a channel in the dictionary reads its stored state, a channel not in it reads `false` |
| `MockIo.MockIoController.GetInput` | HostApp/MockIoController.cs:15-19 | returns `Lookup` of the dictionary, without changing it |
| `MockIo.ReadBack` | HostApp/MockIoController.cs:12-18 | after writing a state to a channel, reading the channel gives that state |
| `MockIo.DefaultIsFalse` | HostApp/MockIoController.cs:18 | a channel never written reads `false` |
| `MockIo.WriteFrame` | HostApp/MockIoController.cs:12 | a write leaves every other channel's entry, present or absent, unchanged |
| `MockIo.LastWriteWins` | HostApp/MockIoController.cs:12 | a later write to a channel overwrites an earlier one |
| `MockIo.ReadAfterWrites` | HostApp/MockIoController.cs:8-19 | after any sequence of writes, a read returns the last value written to that channel, or the original value if it was not written |
| `Navigator.PortOf` | NavigatorIO.cs:40 | for channels 0..2047 the port index is below 256 and `8*port <= channel < 8*port + 8` |
| `Navigator.BitOf` | NavigatorIO.cs:41 | the bit index is below 8 and `8*port + bit == channel` |
| `Navigator.Mask` | NavigatorIO.cs:42 | the mask has exactly one set bit, at position `bit` |
| `Navigator.MaskTestsBit` | NavigatorIO.cs:69 | `(value & mask) != 0` holds exactly when bit `bit` of the value is set |
| `Navigator.Update` | NavigatorIO.cs:47 | the new byte's masked bits are all set when the state is true and all clear otherwise; its bits outside the mask equal the old byte's |
| `Navigator.UpdateSetsBit` | NavigatorIO.cs:47 | writing `current OR mask` sets the bit, writing `current AND NOT mask` clears it |
| `Navigator.UpdateKeepsOtherBits` | NavigatorIO.cs:47 | the other seven bits of the port byte are unchanged |
| `Navigator.UpdateIdempotent` | NavigatorIO.cs:47 | applying the same update twice gives the same byte as once |
| `Navigator.ReadBackAfterUpdate` | NavigatorIO.cs:45-71 | testing a channel's mask on a byte written for that channel gives the state written |
| `Navigator.AfterSetOutput` | NavigatorIO.cs:36-56 | the register keeps its size; a vendor failure leaves it unchanged; every port byte but the channel's is unchanged |
| `Navigator.SetOutputIdempotent` | NavigatorIO.cs:45-49 | setting a channel twice to the same state leaves the register as setting it once |
| `Navigator.SetOutputEffect` | NavigatorIO.cs:45-49 | without a failure, the channel's bit in the register is the state written, and every other channel's bit is unchanged |
| `Navigator.NavigatorIO.constructor` | NavigatorIO.cs:11-33 | the backend is bound to its two 256-byte registers, with no fault |
| `Navigator.NavigatorIO.SetOutput` | NavigatorIO.cs:36-56 | the register after the call is `AfterSetOutput` of the old register; without a fault the channel's bit equals the state |
| `Navigator.NavigatorIO.GetInput` | NavigatorIO.cs:58-78 | returns the channel's bit of the input register, or `false` when the vendor read fails |

## Left out

- The transport is not modelled: TCP connect, write and read, `client.Connected`, the 5 s connect and 30 s operation deadlines, and the 10 s waits (HostApp/Host.cs:65-102, 140). Each outer iteration is an abstract `Attempt`, and each heartbeat cycle is an abstract `CycleOutcome`. The heartbeat loop ending because the connection dropped is the end of the outcome sequence.
- The retry loop runs forever in the source. Here it runs over a finite sequence of attempts.
- The Ctrl-C handler and the shared cancellation source (HostApp/Host.cs:48-53) are not modelled. Shutdown appears only as a `Cancelled` heartbeat outcome: the exception is caught as a timeout and the loop guard then stops both loops. Shutdown while a connect is pending, or during the retry delay at HostApp/Host.cs:140 (where the delay throws out of the handler), is not modelled.
- Configuration loading and backend selection (HostApp/Host.cs:33-43, IoControllerFactory.cs) are not modelled. The configured port is a constructor parameter, and the supervisor is always wired to the simulated backend.
- The supervisor does not model an exception thrown by the backend's `SetOutput`, because the simulated backend never throws.
- `LogDisconnect` (HostApp/Host.cs:193-198) is not modelled: no file append and no timestamp. The audit log is the sequence of reasons.
- `NetworkInterface.GetIsNetworkAvailable()` is an operating-system query. It is the `networkAvailable` parameter.
- Exception messages are inputs. The platform's message texts are not modelled.
- Console output, hex rendering of the response, and UTF-8 decoding of the response (HostApp/Host.cs:96-100) are not modelled.
- The vendor classes and the `NavigatorIO` constructor's device selection (NavigatorIO.cs:11-33, 79) are not modelled. The registers are byte arrays. A vendor exception is a per-register flag. The error codes the vendor calls return, which the source ignores, are not modelled.
- Navigator.NavigatorIO.SetOutput: the "other bits unchanged" guarantee holds only when the vendor read succeeds or throws. If the read reports failure through its return code alone and the write then succeeds, the source writes a byte built from a value it never read (NavigatorIO.cs:45-49), which can change the other seven channels of that port. The model has no such silent read failure.
- Channels outside 0..2047 are excluded by precondition. For those channels the source's byte casts wrap around, or the channel is negative.
- The simulator (SimulatorApp/Simulator.cs), the logging-only `MockIO` (MockIO.cs) and the hardware smoke test (NavigatorIOTest.cs) are not part of this model.
