/**
 * The disconnect-cause classifier of the host (`DetectDisconnectReason`).
 *
 * A caught exception is modelled as a `Failure`: the exception's own type,
 * the socket error carried by its inner exception (when that inner exception
 * is a socket exception) and its message text. The one live query the
 * classifier makes, whether any network interface is up, is an explicit
 * boolean parameter.
 */
module Classifier {

  datatype Option<T> = None | Some(value: T)

  /** The five causes a disconnect can be attributed to. */
  datatype DisconnectReason = DeviceClosed | PortBlocked | EthernetUnplugged | Timeout | Unknown

  /**
   * A socket error code. The five codes the classifier names are constructors;
   * every other member of the platform's socket-error enumeration is `OtherCode`.
   */
  datatype SocketError =
    | ConnectionRefused
    | ConnectionReset
    | ConnectionAborted
    | NetworkDown
    | NetworkUnreachable
    | OtherCode

  /** The run-time type of the caught exception, as far as the classifier tests it. */
  datatype ExceptionType =
    | TimeoutException
    | OperationCanceled              // includes the task-cancelled subclass
    | SocketException(error: SocketError)
    | OtherException

  /** A caught exception: its type, the code of a socket exception wrapped inside it, and its message. */
  datatype Failure = Failure(kind: ExceptionType, innerSocket: Option<SocketError>, message: string)

  predicate IsTimeoutLike(kind: ExceptionType) {
    kind.TimeoutException? || kind.OperationCanceled?
  }

  /** The switch over the code of a socket exception caught directly. */
  function DirectSocketReason(error: SocketError): (r: DisconnectReason)
    ensures r != Timeout
  {
    match error
    case ConnectionRefused => PortBlocked
    case ConnectionReset | ConnectionAborted => DeviceClosed
    case NetworkDown | NetworkUnreachable => EthernetUnplugged
    case OtherCode => Unknown
  }

  /** The second switch, over the code of a wrapped socket exception (its cases are listed in another order). */
  function InnerSocketReason(error: SocketError): (r: DisconnectReason)
    ensures r != Timeout
  {
    match error
    case ConnectionReset | ConnectionAborted => DeviceClosed
    case ConnectionRefused => PortBlocked
    case NetworkDown | NetworkUnreachable => EthernetUnplugged
    case OtherCode => Unknown
  }

  /** `prefix` occurs at the very start of `s`. */
  predicate StartsWith(s: string, prefix: string) {
    |prefix| <= |s| && s[..|prefix|] == prefix
  }

  /**
   * Ordinal, case-sensitive substring test, as the platform's string `Contains`:
   * the empty needle is found in every string, and no needle longer than the
   * haystack is found.
   */
  predicate Contains(s: string, needle: string)
    ensures |needle| == 0 ==> Contains(s, needle)
    ensures Contains(s, needle) ==> |needle| <= |s|
    decreases |s|
  {
    StartsWith(s, needle) || (|s| > 0 && Contains(s[1..], needle))
  }

  /** `needle` occurs in `s` at index `i`. */
  ghost predicate OccursAt(s: string, needle: string, i: int) {
    0 <= i && i + |needle| <= |s| && s[i..i + |needle|] == needle
  }

  /** `Contains` holds exactly when the needle occurs at some index of the haystack. */
  lemma {:induction false} ContainsIffOccurs(s: string, needle: string)
    ensures Contains(s, needle) <==> exists i :: OccursAt(s, needle, i)
    decreases |s|
  {
    if StartsWith(s, needle) {
      assert OccursAt(s, needle, 0);
    } else if |s| > 0 {
      ContainsIffOccurs(s[1..], needle);
      if Contains(s[1..], needle) {
        var i :| OccursAt(s[1..], needle, i);
        assert s[i + 1..i + 1 + |needle|] == s[1..][i..i + |needle|];
        assert OccursAt(s, needle, i + 1);
      }
      if exists i :: OccursAt(s, needle, i) {
        var i :| OccursAt(s, needle, i);
        assert s[1..][i - 1..i - 1 + |needle|] == s[i..i + |needle|];
        assert OccursAt(s[1..], needle, i - 1);
      }
    }
  }

  /** The three phrases by which a message says that the peer closed the socket. */
  const ClosedPhrases: seq<string> := ["Disconnected", "socket closed", "connection was closed"]

  /** The message test: one of the three phrases occurs somewhere in the message. */
  predicate MentionsClosedSocket(message: string)
    ensures MentionsClosedSocket(message)
            <==> exists k, i :: 0 <= k < |ClosedPhrases| && OccursAt(message, ClosedPhrases[k], i)
  {
    ContainsIffOccurs(message, ClosedPhrases[0]);
    ContainsIffOccurs(message, ClosedPhrases[1]);
    ContainsIffOccurs(message, ClosedPhrases[2]);
    Contains(message, ClosedPhrases[0])
    || Contains(message, ClosedPhrases[1])
    || Contains(message, ClosedPhrases[2])
  }

  /**
   * The classifier, first match wins: a timeout or cancellation; a socket
   * exception's code; a wrapped socket exception's code; the message text;
   * the network-availability flag; otherwise `Unknown`.
   */
  function Classify(f: Failure, networkAvailable: bool): (r: DisconnectReason)
    ensures r == Timeout <==> IsTimeoutLike(f.kind)
    ensures r == Unknown && !IsTimeoutLike(f.kind) && !f.kind.SocketException? && f.innerSocket.None?
            ==> networkAvailable && !MentionsClosedSocket(f.message)
  {
    if IsTimeoutLike(f.kind) then Timeout
    else if f.kind.SocketException? then DirectSocketReason(f.kind.error)
    else if f.innerSocket.Some? then InnerSocketReason(f.innerSocket.value)
    else if MentionsClosedSocket(f.message) then DeviceClosed
    else if !networkAvailable then EthernetUnplugged
    else Unknown
  }

  /**
   * The socket code the classifier decides on, if any: the exception's own
   * code, else the code of the socket exception it wraps.
   */
  function DecidingCode(f: Failure): (c: Option<SocketError>)
    ensures c.None? <==> !f.kind.SocketException? && f.innerSocket.None?
  {
    if f.kind.SocketException? then Some(f.kind.error) else f.innerSocket
  }

  /** Both switches map every socket code to the same reason. */
  lemma SwitchesAgree(error: SocketError)
    ensures DirectSocketReason(error) == InnerSocketReason(error)
  {
  }

  /** A timeout or cancellation is `Timeout`, whatever else the failure carries. */
  lemma TimeoutPrecedence(f: Failure, networkAvailable: bool)
    requires IsTimeoutLike(f.kind)
    ensures Classify(f, networkAvailable) == Timeout
  {
  }

  /**
   * A socket exception is decided by its code alone: neither the wrapped
   * exception, nor the message, nor the network flag is consulted.
   */
  lemma DirectCodeDecides(f: Failure, g: Failure, n1: bool, n2: bool)
    requires f.kind.SocketException? && g.kind == f.kind
    ensures Classify(f, n1) == Classify(g, n2) == DirectSocketReason(f.kind.error)
  {
  }

  /**
   * Any wrapped socket code, listed or not, decides the result: the message
   * and the network flag are never consulted once one is present.
   */
  lemma InnerCodeDecides(f: Failure, message: string, n1: bool, n2: bool)
    requires !IsTimeoutLike(f.kind) && !f.kind.SocketException? && f.innerSocket.Some?
    ensures Classify(f, n1) == Classify(f.(message := message), n2) == InnerSocketReason(f.innerSocket.value)
  {
  }

  /**
   * The message and the network flag matter only when there is no timeout
   * and no socket code at either level.
   */
  lemma FallbackOnlyWithoutCodes(f: Failure, message: string, n1: bool, n2: bool)
    requires Classify(f, n1) != Classify(f.(message := message), n2)
    ensures !IsTimeoutLike(f.kind) && DecidingCode(f).None?
  {
  }

  /**
   * Which failures give each reason. `DeviceClosed`, `EthernetUnplugged` and
   * `Unknown` each have a coded and an uncoded way in; `PortBlocked` only a coded one.
   */
  lemma ClassifyCharacterization(f: Failure, networkAvailable: bool)
    ensures var r := Classify(f, networkAvailable);
            var code := DecidingCode(f);
            var uncoded := !IsTimeoutLike(f.kind) && code.None?;
            && (r == PortBlocked <==>
                  !IsTimeoutLike(f.kind) && code == Some(ConnectionRefused))
            && (r == DeviceClosed <==>
                  (!IsTimeoutLike(f.kind) && code in {Some(ConnectionReset), Some(ConnectionAborted)})
                  || (uncoded && MentionsClosedSocket(f.message)))
            && (r == EthernetUnplugged <==>
                  (!IsTimeoutLike(f.kind) && code in {Some(NetworkDown), Some(NetworkUnreachable)})
                  || (uncoded && !MentionsClosedSocket(f.message) && !networkAvailable))
            && (r == Unknown <==>
                  (!IsTimeoutLike(f.kind) && code.Some? && code.value.OtherCode?)
                  || (uncoded && !MentionsClosedSocket(f.message) && networkAvailable))
  {
  }

  /** A connection refused without a timeout is `PortBlocked`, at either level. */
  lemma RefusedIsPortBlocked(f: Failure, networkAvailable: bool)
    requires !IsTimeoutLike(f.kind) && DecidingCode(f) == Some(ConnectionRefused)
    ensures Classify(f, networkAvailable) == PortBlocked
  {
  }

  /** A message with one of the three phrases, and no code at either level, is `DeviceClosed`. */
  lemma ClosedPhraseIsDeviceClosed(f: Failure, phrase: string, networkAvailable: bool)
    requires phrase in ClosedPhrases
    requires !IsTimeoutLike(f.kind) && DecidingCode(f).None?
    requires exists i :: OccursAt(f.message, phrase, i)
    ensures Classify(f, networkAvailable) == DeviceClosed
  {
    var k :| 0 <= k < |ClosedPhrases| && ClosedPhrases[k] == phrase;
    var i :| OccursAt(f.message, phrase, i);
    assert OccursAt(f.message, ClosedPhrases[k], i);
  }
}
