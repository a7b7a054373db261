/** The retry policy around the text-generation calls, and what the wrappers built on it return
    when the connection or the call fails. The calls themselves are abstract: `online(k)` is
    the connectivity seen just before attempt `k`, and `outcome(k)` is what attempt `k` returns
    or throws. */
module AiRetry {
  import opened Wrappers
  import opened Text

  /** The parts of a thrown error the policy inspects. */
  datatype Failure = Failure(status: Option<int>, code: Option<int>, message: Option<string>)

  datatype Outcome<T> = Success(value: T) | Thrown(failure: Failure)

  /** The error thrown when the browser reports no connection. */
  const OfflineFailure: Failure := Failure(None, None, Some("OFFLINE_MODE"))

  predicate IsOfflineSignal(e: Failure) {
    e.message == Some("OFFLINE_MODE")
  }

  /** A temporarily unavailable service: status or code 503, or a message naming it. */
  predicate IsUnavailable(e: Failure) {
    e.status == Some(503) || e.code == Some(503)
    || (e.message.Some? && (Contains(e.message.value, "503")
                            || Contains(e.message.value, "UNAVAILABLE")))
  }

  /** An outcome the policy answers with another attempt (when attempts remain). */
  predicate Retriable<T>(o: Outcome<T>) {
    o.Thrown? && !IsOfflineSignal(o.failure) && IsUnavailable(o.failure)
  }

  /** How a run of the policy ended, how many times it invoked the operation, and the pauses
      it made between attempts, in milliseconds. */
  datatype Run<T> = Run(result: Outcome<T>, invocations: nat, waits: seq<nat>)

  /** `retryOperation(operation, retries, delay)` entered for attempt number `attempt`. Each
      retry first pauses for the current delay and then re-enters with one retry fewer and the
      delay doubled, checking connectivity afresh.

      The contract characterises the run completely: every pause answered a retriable failure
      of the attempt before it; the run stops at the first attempt that finds the connection
      down (without invoking the operation), that succeeds, that fails in another way, or
      that fails once the retries are used up, and it returns that attempt's own outcome. */
  function Retry<T>(online: nat -> bool, outcome: nat -> Outcome<T>, attempt: nat,
                    retries: nat, delay: nat): (r: Run<T>)
    decreases retries
    ensures |r.waits| <= retries
    ensures forall k :: attempt <= k < attempt + |r.waits| ==> online(k) && Retriable(outcome(k))
    ensures |r.waits| > 0 ==> r.waits[0] == delay
    ensures forall i :: 0 <= i < |r.waits| - 1 ==> r.waits[i + 1] == 2 * r.waits[i]
    ensures var last := attempt + |r.waits|;
            if !online(last) then r.result == Thrown(OfflineFailure) && r.invocations == last
            else r.result == outcome(last) && r.invocations == last + 1
                 && (|r.waits| < retries ==> !Retriable(outcome(last)))
  {
    if !online(attempt) then Run(Thrown(OfflineFailure), attempt, [])
    else
      match outcome(attempt)
      case Success(v) => Run(Success(v), attempt + 1, [])
      case Thrown(e) =>
        if IsOfflineSignal(e) then Run(Thrown(e), attempt + 1, [])
        else if retries > 0 && IsUnavailable(e) then
          var rest := Retry(online, outcome, attempt + 1, retries - 1, delay * 2);
          Run(rest.result, rest.invocations, [delay] + rest.waits)
        else Run(Thrown(e), attempt + 1, [])
  }

  const DefaultRetries: nat := 3
  const DefaultDelay: nat := 1000

  /** `retryOperation(operation)` with its default of three retries from a one-second delay. */
  function RetryOperation<T>(online: nat -> bool, outcome: nat -> Outcome<T>): Run<T> {
    Retry(online, outcome, 0, DefaultRetries, DefaultDelay)
  }

  /** With the defaults the operation runs at most four times, and the pauses are a prefix of
      one, two and four seconds. */
  lemma {:induction false} DefaultBounds<T>(online: nat -> bool, outcome: nat -> Outcome<T>)
    ensures RetryOperation(online, outcome).invocations <= DefaultRetries + 1
    ensures RetryOperation(online, outcome).waits <= [1000, 2000, 4000]
  {
    var w := RetryOperation(online, outcome).waits;
    if |w| > 0 { assert w[0] == 1000; }
    if |w| > 1 { assert w[1] == 2 * w[0]; }
    if |w| > 2 { assert w[2] == 2 * w[1]; }
  }

  /** With no connection the operation is never invoked and OFFLINE_MODE is thrown. */
  lemma OfflineNeverInvokes<T>(online: nat -> bool, outcome: nat -> Outcome<T>)
    requires !online(0)
    ensures RetryOperation(online, outcome) == Run(Thrown(OfflineFailure), 0, [])
  {
  }

  /** A first attempt that succeeds, or that fails with anything but an unavailable service,
      or with OFFLINE_MODE, ends the run with exactly that outcome. */
  lemma FirstOutcomeFinal<T>(online: nat -> bool, outcome: nat -> Outcome<T>)
    requires online(0) && !Retriable(outcome(0))
    ensures RetryOperation(online, outcome) == Run(outcome(0), 1, [])
  {
  }

  /** A service that stays unavailable on a live connection is tried four times, with pauses
      of one, two and four seconds, and its fourth failure is what the caller sees. */
  lemma {:induction false} StaysUnavailable<T>(online: nat -> bool, outcome: nat -> Outcome<T>)
    requires forall k :: online(k) && Retriable(outcome(k))
    ensures RetryOperation(online, outcome) == Run(outcome(3), 4, [1000, 2000, 4000])
  {
    var r := RetryOperation(online, outcome);
    assert Retriable(outcome(|r.waits|));
    assert r.waits[0] == 1000 && r.waits[1] == 2000 && r.waits[2] == 4000;
  }

  // ------------------------------------------------------------------ wrappers

  /** The text wrappers, each with the text it returns when the browser is offline and the
      text it returns when the retried call ends in an error. */
  datatype TextWrapper =
    | ChatMessage | NewsDigest | PilotBio | CircuitTips | AuditAnalysis | StandingsAnalysis
    | RegulationSearch | RaceSummary

  function OfflineText(w: TextWrapper): string {
    match w
    case ChatMessage => "Modo Offline: Función IA no disponible sin conexión."
    case NewsDigest => "KDO SYSTEM - MODO OFFLINE ACTIVADO"
    case PilotBio => "Perfil no disponible en modo offline."
    case CircuitTips => "Consejos de IA no disponibles sin conexión."
    case AuditAnalysis => "Análisis forense requiere conexión al servidor central."
    case StandingsAnalysis => "Análisis estratégico no disponible offline."
    case RegulationSearch => "Búsqueda inteligente desactivada en modo offline."
    case RaceSummary => "Resultados procesados sin resumen IA (Modo Offline)."
  }

  function FailureText(w: TextWrapper): string {
    match w
    case RaceSummary => "Resultados procesados automáticamente."
    case _ => OfflineText(w)
  }

  /** Every wrapper answers a failed call as it answers a missing connection, except the race
      summary, which says the results were processed automatically. */
  lemma FallbackTexts(w: TextWrapper)
    ensures w != RaceSummary ==> FailureText(w) == OfflineText(w)
    ensures FailureText(RaceSummary) != OfflineText(RaceSummary)
  {
    assert FailureText(RaceSummary)[22] != OfflineText(RaceSummary)[22];
  }

  /** A text wrapper: its own offline check, then the retried call inside a `try` whose
      `catch` returns the fallback. It always returns text, never an error. */
  function TextReply(w: TextWrapper, online: nat -> bool, outcome: nat -> Outcome<string>)
    : (r: string)
    ensures !online(0) ==> r == OfflineText(w)
    ensures online(0) && RetryOperation(online, outcome).result.Success? ==>
              r == RetryOperation(online, outcome).result.value
    ensures online(0) && RetryOperation(online, outcome).result.Thrown? ==> r == FailureText(w)
  {
    if !online(0) then OfflineText(w)
    else match RetryOperation(online, outcome).result
      case Success(text) => text
      case Thrown(_) => FailureText(w)
  }

  /** The reply is either the fallback or the text of one attempt that succeeded. */
  lemma ReplyIsFallbackOrAnAnswer(w: TextWrapper, online: nat -> bool,
                                  outcome: nat -> Outcome<string>)
    ensures var r := TextReply(w, online, outcome);
            r == OfflineText(w) || r == FailureText(w)
            || exists k: nat :: k <= DefaultRetries && outcome(k) == Success(r)
  {
    var run := RetryOperation(online, outcome);
    if online(0) && run.result.Success? {
      DefaultBounds(online, outcome);
      var k: nat := |run.waits|;
      assert outcome(k) == Success(TextReply(w, online, outcome));
    }
  }

  /** `parseRankingData(rawText)`: no connection gives an empty list; the reply text (or
      `'[]'` when empty) is parsed by `parse`, the stand-in for `JSON.parse`, and an
      unparsable reply also gives an empty list. The parse runs inside the retried operation
      and cannot throw, so it never causes a retry; an error of the call itself reaches the
      caller. */
  function ParseRanking<R>(online: nat -> bool, outcome: nat -> Outcome<string>,
                           parse: string -> Option<seq<R>>): (r: Outcome<seq<R>>)
    ensures !online(0) ==> r == Success([])
    ensures online(0) && RetryOperation(online, outcome).result.Thrown? ==>
              r == Thrown(RetryOperation(online, outcome).result.failure)
    ensures online(0) && RetryOperation(online, outcome).result.Success? ==>
              var text := RetryOperation(online, outcome).result.value;
              r == Success(parse(Or(text, "[]")).GetOr([]))
  {
    if !online(0) then Success([])
    else match RetryOperation(online, outcome).result
      case Success(text) => Success(parse(Or(text, "[]")).GetOr([]))
      case Thrown(e) => Thrown(e)
  }

  /** Model output that does not parse yields an empty ranking, not an error. */
  lemma UnparsableRankingIsEmpty<R>(online: nat -> bool, outcome: nat -> Outcome<string>,
                                    parse: string -> Option<seq<R>>)
    requires online(0) && RetryOperation(online, outcome).result.Success?
    requires parse(Or(RetryOperation(online, outcome).result.value, "[]")).None?
    ensures ParseRanking(online, outcome, parse) == Success([])
  {
  }

  /** The error `extractLicenseData` throws when offline, before any retry logic runs. */
  const LicenceOfflineFailure: Failure := Failure(None, None, Some("OFFLINE"))

  /** `extractLicenseData(image)`: no connection throws OFFLINE; otherwise the reply text (or
      `'{}'` when empty) is parsed inside the retried operation, and an unparsable reply
      yields null (`None`) rather than an error. */
  function ExtractLicence<L>(online: nat -> bool, outcome: nat -> Outcome<string>,
                             parse: string -> Option<L>): (r: Outcome<Option<L>>)
    ensures !online(0) ==> r == Thrown(LicenceOfflineFailure)
    ensures online(0) && RetryOperation(online, outcome).result.Thrown? ==>
              r == Thrown(RetryOperation(online, outcome).result.failure)
    ensures online(0) && RetryOperation(online, outcome).result.Success? ==>
              r == Success(parse(Or(RetryOperation(online, outcome).result.value, "{}")))
  {
    if !online(0) then Thrown(LicenceOfflineFailure)
    else match RetryOperation(online, outcome).result
      case Success(text) => Success(parse(Or(text, "{}")))
      case Thrown(e) => Thrown(e)
  }

  /** Model output that does not parse yields null, not an error. */
  lemma UnparsableLicenceIsNull<L>(online: nat -> bool, outcome: nat -> Outcome<string>,
                                   parse: string -> Option<L>)
    requires online(0) && RetryOperation(online, outcome).result.Success?
    requires parse(Or(RetryOperation(online, outcome).result.value, "{}")).None?
    ensures ExtractLicence(online, outcome, parse) == Success(None)
  {
  }
}
