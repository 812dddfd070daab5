/**
 * The setup-flow task that applies a WinGet configuration to a target compute
 * system through its extension (tools/SetupFlow/DevHome.SetupFlow/Models/ConfigureTargetTask.cs).
 *
 * Execute issues the request and blocks on a wait handle. Meanwhile three
 * handlers react to the operation: progress (which may carry a corrective-action
 * card session that the user must act on), the card session's status changes,
 * and completion, which records the result and releases the wait. Execute then
 * classifies the recorded result.
 *
 * The task's state is a TaskState value; each handler is a transition function
 * on it (ProgressStep, SessionChangedStep, CompletedStep), and the class
 * ConfigureTargetTask performs the same updates in place. Messages shown to the
 * user are recorded as (message text, severity) pairs; the wait handle is the
 * flag `signalled`. Events arrive one at a time, in order.
 */
module ConfigureTarget {
  import opened Wrappers

  type UInt32 = n: int | 0 <= n < 0x1_0000_0000

  /** `n++` on a uint in an unchecked context: wraps to 0 after 2^32 - 1. */
  function Increment(n: UInt32): (r: UInt32)
    ensures n < 0xFFFF_FFFF ==> r == n + 1
    ensures n == 0xFFFF_FFFF ==> r == 0
  {
    (n + 1) % 0x1_0000_0000
  }

  const InitialAttempts: UInt32 := 1
  const DefaultMaxAttempts: UInt32 := 3

  // ---------------------------------------------------------------------------
  // Messages

  /** MessageSeverityKind */
  datatype Severity = Info | Success | Warning | Error

  /** The text of a message, by string-resource key and arguments. */
  datatype MessageText =
    | ApplyingConfiguration(target: string)
    | ApplyConfigurationError(target: string)
    | ApplyConfigurationSuccess(target: string)
    | ApplyConfigurationRebootRequired(target: string)
    | ActionNeeded(attempt: UInt32, maxAttempts: UInt32)
    | ActionSuccess
    | ActionFailureRetry
    | ActionFailureEnd
    | ConfigurationStopped(resultInformation: string)
    /** The change wrapper's error text for display. */
    | ProgressErrors(display: string)
    /** The open-configuration result's error text. */
    | OpenConfigurationError(display: string)

  datatype Message = Message(text: MessageText, severity: Severity)

  /** ISetupTask.TaskMessages */
  datatype TaskMessages = TaskMessages(
    executing: MessageText, error: MessageText, finished: MessageText, needsReboot: MessageText)

  // ---------------------------------------------------------------------------
  // What the operation reports

  /** Identity of an IExtensionAdaptiveCardSession2 object. */
  type SessionId = nat

  /** A progress payload: a corrective-action card session, or change data whose wrapper may report errors. */
  datatype ConfigurationSetChangeData =
    | CorrectiveActionCardSession(session: SessionId)
    | ChangeData(errorMessages: Option<string>)

  datatype ProviderOperationStatus = ProviderSuccess | ProviderFailure

  /** SessionEnded, or any other kind of card-session event. */
  datatype SessionEventKind = SessionEnded | OtherSessionEvent

  datatype ExtensionAdaptiveCardSessionData = SessionData(eventKind: SessionEventKind, status: ProviderOperationStatus)

  /** The HRESULT an exception object carries. */
  type ErrorCode = int

  /** One configuration unit's result, as forwarded to the summary page. */
  datatype UnitResult = UnitResult(unit: string, resultCode: Option<ErrorCode>)

  /**
   * The properties the task reads from SDKApplyConfigurationResult and its open
   * and apply parts (OpenConfigSucceeded, OpenResult.ResultCode, ...).
   * `unitResults` is None when AreConfigUnitsAvailable is false.
   */
  datatype ResultView = ResultView(
    openConfigSucceeded: bool,
    openResultCode: Option<ErrorCode>,
    openErrorMessage: string,
    applyConfigSucceeded: bool,
    applyResultException: Option<ErrorCode>,
    unitResults: Option<seq<UnitResult>>,
    resultCode: Option<ErrorCode>)

  /** The completion payload: the wrapped result (None when building the wrapper throws) and ResultDescription. */
  datatype ApplyConfigurationResult = ApplyConfigurationResult(wrapped: Option<ResultView>, resultDescription: string)

  /** The events that reach the task while Execute waits. */
  datatype OperationEvent =
    | Progress(progressData: Option<ConfigurationSetChangeData>)
    | CardSessionStatusChanged(cardSession: SessionId, data: Option<ExtensionAdaptiveCardSessionData>)
    | Completed(applyConfigurationResult: ApplyConfigurationResult)

  // ---------------------------------------------------------------------------
  // The task's state and its transitions

  datatype TaskState = TaskState(
    computeSystemName: string,
    /** ExtensionAdaptiveCardSession */
    session: Option<SessionId>,
    /** The card sessions whose SessionStatusChanged event has the task's handler attached. */
    subscribed: set<SessionId>,
    /** The card panel shown in the action center, by the session it renders. */
    panel: Option<SessionId>,
    isAdaptiveCardPresentInUI: bool,
    attempts: UInt32,
    maxAttempts: UInt32,
    /** Result; None while it is null. */
    result: Option<ResultView>,
    /** ConfigurationResults; None while the list is null. */
    configurationResults: Option<seq<UnitResult>>,
    messages: seq<Message>,
    /** The AutoResetEvent is set. */
    signalled: bool)

  /** A new task, with ConfigurationResults created empty. */
  function Initial(): TaskState
  {
    TaskState("", None, {}, None, false, InitialAttempts, DefaultMaxAttempts, None, Some([]), [], false)
  }

  /** A new task as the code constructs it: ConfigurationResults is never assigned and stays null. */
  function InitialAsWritten(): (r: TaskState)
    ensures r.configurationResults.None?
    ensures r.(configurationResults := Some([])) == Initial()
  {
    Initial().(configurationResults := None)
  }

  function WithMessage(s: TaskState, text: MessageText, severity: Severity): TaskState
  {
    s.(messages := s.messages + [Message(text, severity)])
  }

  /** OnApplyConfigurationOperationProgress */
  function ProgressStep(s: TaskState, progressData: Option<ConfigurationSetChangeData>): (t: TaskState)
    // a progress event never completes the operation nor touches its result
    ensures t.signalled == s.signalled && t.result == s.result
    ensures t.configurationResults == s.configurationResults && t.maxAttempts == s.maxAttempts
    ensures t.computeSystemName == s.computeSystemName
    // the log only grows, by at most one message
    ensures |s.messages| <= |t.messages| <= |s.messages| + 1 && t.messages[..|s.messages|] == s.messages
    // only a new corrective-action session moves the attempt counter
    ensures !(progressData.Some? && progressData.value.CorrectiveActionCardSession?) ==> t.attempts == s.attempts
  {
    match progressData
    case None => s
    case Some(CorrectiveActionCardSession(k)) =>
      // the previous session's panel is removed and its handler detached
      var s1 := if s.session.Some? then s.(panel := None, subscribed := s.subscribed - {s.session.value}) else s;
      var s2 := s1.(session := Some(k), subscribed := s1.subscribed + {k}, panel := Some(k), isAdaptiveCardPresentInUI := true);
      // the message shows the attempt number before the post-increment
      WithMessage(s2, ActionNeeded(s2.attempts, s2.maxAttempts), Warning).(attempts := Increment(s2.attempts))
    case Some(ChangeData(errors)) =>
      if errors.Some? then WithMessage(s, ProgressErrors(errors.value), Error) else s
  }

  /** OnAdaptiveCardSessionChanged, for the event of session `k` */
  function SessionChangedStep(s: TaskState, k: SessionId, data: Option<ExtensionAdaptiveCardSessionData>): (t: TaskState)
    // a card session's end is reported but never completes the operation
    ensures t.signalled == s.signalled && t.result == s.result
    ensures t.configurationResults == s.configurationResults && t.maxAttempts == s.maxAttempts
    ensures t.attempts == s.attempts && t.isAdaptiveCardPresentInUI == s.isAdaptiveCardPresentInUI
    ensures t.computeSystemName == s.computeSystemName
    ensures |s.messages| <= |t.messages| <= |s.messages| + 1 && t.messages[..|s.messages|] == s.messages
    // the panel and session are released exactly when a session ends
    ensures (t.panel == None && t.session == None && k !in t.subscribed) || t == s
  {
    if data.Some? && data.value.eventKind == SessionEnded then
      var s1 := s.(subscribed := s.subscribed - {k}, panel := None, session := None);
      if data.value.status == ProviderSuccess then WithMessage(s1, ActionSuccess, Success)
      else if s1.attempts <= s1.maxAttempts then WithMessage(s1, ActionFailureRetry, Warning)
      else WithMessage(s1, ActionFailureEnd, Error)
    else s
  }

  /** The `for` loop appending unit results; Add on a null list throws before anything is appended. */
  function CollectUnitResults(s: TaskState, units: seq<UnitResult>): (t: TaskState)
    ensures s.configurationResults.Some? ==> t == s.(configurationResults := Some(s.configurationResults.value + units))
    ensures s.configurationResults.None? ==> t == s
  {
    if units == [] then assert s.configurationResults.Some? ==> s.configurationResults.value + units == s.configurationResults.value; s
    else match s.configurationResults
      case None => s
      case Some(list) => s.(configurationResults := Some(list + units))
  }

  /** The `try` block of OnApplyConfigurationOperationCompleted; every exception thrown in it is caught and logged. */
  function CompletedTry(s: TaskState, r: ApplyConfigurationResult): TaskState
  {
    match r.wrapped
    case None => s
    case Some(v) =>
      var s1 := s.(result := Some(v));
      if !v.openConfigSucceeded then WithMessage(s1, OpenConfigurationError(v.openErrorMessage), Error)
      else if !v.applyConfigSucceeded then s1
      else if v.unitResults.None? then s1
      else CollectUnitResults(s1, v.unitResults.value)
  }

  /** Severity of the final "stopped" message: Info iff the recorded result's apply succeeded; Error when there is no result. */
  function StoppedSeverity(result: Option<ResultView>): Severity
  {
    if result.Some? && result.value.applyConfigSucceeded then Info else Error
  }

  /** OnApplyConfigurationOperationCompleted, with a missing Result read as a failed apply. */
  function CompletedStep(s: TaskState, r: ApplyConfigurationResult): (t: TaskState)
    // completion always releases the waiting Execute
    ensures t.signalled
    // the result is replaced only by a present one
    ensures t.result == (if r.wrapped.Some? then r.wrapped else s.result)
    ensures t.session == s.session && t.panel == s.panel && t.attempts == s.attempts
    ensures |t.messages| > |s.messages| && t.messages[..|s.messages|] == s.messages
    ensures t.messages[|t.messages| - 1] == Message(ConfigurationStopped(r.resultDescription), StoppedSeverity(t.result))
  {
    var s1 := CompletedTry(s, r);
    WithMessage(s1, ConfigurationStopped(r.resultDescription), StoppedSeverity(s1.result)).(signalled := true)
  }

  /** How a handler ends: it returns, or an exception escapes it with the state reached so far. */
  datatype HandlerOutcome = Returned(state: TaskState) | Threw(state: TaskState)

  /** OnApplyConfigurationOperationCompleted as written: after the try, `Result.ApplyConfigSucceeded` dereferences a null Result. */
  function CompletedStepAsWritten(s: TaskState, r: ApplyConfigurationResult): (o: HandlerOutcome)
    // the handler throws exactly when no result was ever recorded
    ensures o.Threw? <==> r.wrapped.None? && s.result.None?
    // a throw leaves the state untouched and the waiting Execute unreleased
    ensures o.Threw? ==> o.state == s
    // when it returns, it agrees with the corrected handler
    ensures o.Returned? ==> o.state == CompletedStep(s, r)
  {
    var s1 := CompletedTry(s, r);
    if s1.result.None? then Threw(s1)
    else
      var severity := if s1.result.value.applyConfigSucceeded then Info else Error;
      Returned(WithMessage(s1, ConfigurationStopped(r.resultDescription), severity).(signalled := true))
  }

  /** An event reaches its handler; a card session's event only while the handler is attached to that session. */
  function Deliver(s: TaskState, e: OperationEvent): TaskState
  {
    match e
    case Progress(p) => ProgressStep(s, p)
    case CardSessionStatusChanged(k, d) => if k in s.subscribed then SessionChangedStep(s, k, d) else s
    case Completed(r) => CompletedStep(s, r)
  }

  function DeliverAsWritten(s: TaskState, e: OperationEvent): (t: TaskState)
    // the two deliveries differ only on a completion that carries no result when none was recorded
    ensures !(e.Completed? && e.applyConfigurationResult.wrapped.None? && s.result.None?) ==> t == Deliver(s, e)
    ensures e.Completed? && e.applyConfigurationResult.wrapped.None? && s.result.None? ==> t == s
  {
    match e
    case Completed(r) => CompletedStepAsWritten(s, r).state
    case _ => Deliver(s, e)
  }

  /** Every event of the trace delivered in order, with no stop: the reference for RunUntilSignalled. */
  function DeliverAll(s: TaskState, events: seq<OperationEvent>): TaskState
    decreases |events|
  {
    if events == [] then s else DeliverAll(Deliver(s, events[0]), events[1..])
  }

  /** The events handled while Execute waits: delivery stops once the wait handle is set. */
  function RunUntilSignalled(s: TaskState, events: seq<OperationEvent>): (t: TaskState)
    // a task already signalled handles nothing more
    ensures s.signalled ==> t == s
    // while the wait handle stays clear, every event is handled, in order
    ensures !t.signalled ==> t == DeliverAll(s, events)
    // handlers only ever append to the log
    ensures |s.messages| <= |t.messages| && t.messages[..|s.messages|] == s.messages
    decreases |events|
  {
    if s.signalled || events == [] then s else RunUntilSignalled(Deliver(s, events[0]), events[1..])
  }

  function RunUntilSignalledAsWritten(s: TaskState, events: seq<OperationEvent>): (t: TaskState)
    // once a result has been recorded, the code as written behaves like the corrected handler
    ensures s.result.Some? ==> t == RunUntilSignalled(s, events)
    decreases |events|
  {
    if s.signalled || events == [] then s else RunUntilSignalledAsWritten(DeliverAsWritten(s, events[0]), events[1..])
  }

  // ---------------------------------------------------------------------------
  // Execute

  /** The exception Execute's catch block receives. */
  datatype FailureCause =
    | ResultMissing
    | OpenConfigurationFailed(code: ErrorCode)
    | ApplyConfigurationFailed(code: ErrorCode)
    | ResultCodeFailed(code: ErrorCode)

  /** TaskFinishedState, with the cause of a failure. */
  datatype TaskFinishedState = TaskSuccess | TaskFailure(cause: FailureCause)

  /** Execute, before it waits: the attempt counter restarts at 1 and the target is announced. */
  function BeginExecute(s: TaskState, computeSystemName: string): (t: TaskState)
    ensures t.attempts == InitialAttempts && t.computeSystemName == computeSystemName
    ensures t.messages == s.messages + [Message(ApplyingConfiguration(computeSystemName), Info)]
    // nothing else about the task changes
    ensures t.(attempts := s.attempts, computeSystemName := s.computeSystemName, messages := s.messages) == s
  {
    WithMessage(s.(attempts := InitialAttempts, computeSystemName := computeSystemName),
                ApplyingConfiguration(computeSystemName), Info)
  }

  /** Execute, after the wait: the open result code, the apply exception and the overall result code are checked in that order. */
  function Classify(result: Option<ResultView>): (r: TaskFinishedState)
    ensures r == TaskSuccess <==>
              result.Some? && result.value.openResultCode.None?
              && result.value.applyResultException.None? && result.value.resultCode.None?
    ensures result.None? ==> r == TaskFailure(ResultMissing)
    ensures result.Some? && result.value.openResultCode.Some? ==>
              r == TaskFailure(OpenConfigurationFailed(result.value.openResultCode.value))
    ensures result.Some? && result.value.openResultCode.None? && result.value.applyResultException.Some? ==>
              r == TaskFailure(ApplyConfigurationFailed(result.value.applyResultException.value))
    ensures result.Some? && result.value.openResultCode.None? && result.value.applyResultException.None?
            && result.value.resultCode.Some? ==>
              r == TaskFailure(ResultCodeFailed(result.value.resultCode.value))
  {
    match result
    case None => TaskFailure(ResultMissing)
    case Some(v) =>
      if v.openResultCode.Some? then TaskFailure(OpenConfigurationFailed(v.openResultCode.value))
      else if v.applyResultException.Some? then TaskFailure(ApplyConfigurationFailed(v.applyResultException.value))
      else if v.resultCode.Some? then TaskFailure(ResultCodeFailed(v.resultCode.value))
      else TaskSuccess
  }

  /**
   * The whole of Execute, given the events that arrive while it waits: the
   * state afterwards, and the finished state (None while Execute is still
   * blocked because the wait handle was never set).
   */
  function ExecuteSpec(s: TaskState, computeSystemName: string, events: seq<OperationEvent>): (TaskState, Option<TaskFinishedState>)
  {
    var s1 := RunUntilSignalled(BeginExecute(s, computeSystemName), events);
    if s1.signalled then (s1.(signalled := false), Some(Classify(s1.result))) else (s1, None)
  }

  /** GetLoadingMessages: the target's name, or the localized generic name when the name is empty. */
  function LoadingMessages(computeSystemName: string, localizedTargetName: string): (m: TaskMessages)
    ensures m.executing.ApplyingConfiguration?
    ensures computeSystemName == "" ==> m.executing.target == localizedTargetName
    ensures computeSystemName != "" ==> m.executing.target == computeSystemName
    ensures m.error == ApplyConfigurationError(m.executing.target)
    ensures m.finished == ApplyConfigurationSuccess(m.executing.target)
    ensures m.needsReboot == ApplyConfigurationRebootRequired(m.executing.target)
  {
    var nameToUseInDisplay := if computeSystemName == "" then localizedTargetName else computeSystemName;
    TaskMessages(
      ApplyingConfiguration(nameToUseInDisplay),
      ApplyConfigurationError(nameToUseInDisplay),
      ApplyConfigurationSuccess(nameToUseInDisplay),
      ApplyConfigurationRebootRequired(nameToUseInDisplay))
  }

  // ---------------------------------------------------------------------------
  // Properties of single handlers

  /** A corrective-action session replaces the current one, and the counter goes up by exactly one. */
  lemma ProgressWithCardSession(s: TaskState, k: SessionId)
    ensures var t := ProgressStep(s, Some(CorrectiveActionCardSession(k)));
            && t.session == Some(k) && k in t.subscribed && t.panel == Some(k)
            && (s.session.Some? && s.session.value != k ==> s.session.value !in t.subscribed)
            && t.subscribed - {k} <= s.subscribed
            && t.isAdaptiveCardPresentInUI
            && t.attempts == Increment(s.attempts)
            && t.messages == s.messages + [Message(ActionNeeded(s.attempts, s.maxAttempts), Warning)]
            && t.maxAttempts == s.maxAttempts && t.result == s.result
            && t.configurationResults == s.configurationResults && t.signalled == s.signalled
  {
  }

  /** Without a card session, progress leaves session and counter alone, and adds an Error message only when errors are reported. */
  lemma ProgressWithoutCardSession(s: TaskState, progressData: Option<ConfigurationSetChangeData>)
    requires progressData.None? || progressData.value.ChangeData?
    ensures var t := ProgressStep(s, progressData);
            && t.(messages := s.messages) == s
            && (progressData.Some? && progressData.value.errorMessages.Some? ==>
                  t.messages == s.messages + [Message(ProgressErrors(progressData.value.errorMessages.value), Error)])
            && (progressData.None? || progressData.value.errorMessages.None? ==> t.messages == s.messages)
  {
  }

  /**
   * Only SessionEnded has an effect: the session is cleared and its handler and
   * panel removed, and one message says how it ended. A failure is a retry
   * (Warning) while the counter is at most the maximum, and final (Error) after.
   */
  lemma SessionEndedEffects(s: TaskState, k: SessionId, data: Option<ExtensionAdaptiveCardSessionData>)
    ensures var t := SessionChangedStep(s, k, data);
            && (data.None? || data.value.eventKind != SessionEnded ==> t == s)
            && (data.Some? && data.value.eventKind == SessionEnded ==>
                  && t.session.None? && t.panel.None? && t.subscribed == s.subscribed - {k}
                  && t.(session := s.session, panel := s.panel, subscribed := s.subscribed, messages := s.messages) == s
                  && t.attempts == s.attempts && t.isAdaptiveCardPresentInUI == s.isAdaptiveCardPresentInUI
                  && |t.messages| == |s.messages| + 1 && t.messages[..|s.messages|] == s.messages
                  && t.messages[|s.messages|] ==
                       (if data.value.status == ProviderSuccess then Message(ActionSuccess, Success)
                        else if s.attempts <= s.maxAttempts then Message(ActionFailureRetry, Warning)
                        else Message(ActionFailureEnd, Error)))
  {
  }

  /**
   * Completion: open failure is checked before apply failure; unit results are
   * appended in their order; a final "stopped" message (Info iff the apply
   * succeeded) is always added, and the wait handle is set.
   */
  lemma CompletedHandlerEffects(s: TaskState, r: ApplyConfigurationResult)
    ensures var t := CompletedStep(s, r);
            && t.signalled
            && t.result == (if r.wrapped.Some? then r.wrapped else s.result)
            && |t.messages| >= |s.messages| + 1 && t.messages[..|s.messages|] == s.messages
            && t.messages[|t.messages| - 1] == Message(ConfigurationStopped(r.resultDescription), StoppedSeverity(t.result))
            && (r.wrapped.Some? && !r.wrapped.value.openConfigSucceeded ==>
                  && t.messages == s.messages + [Message(OpenConfigurationError(r.wrapped.value.openErrorMessage), Error),
                                                 Message(ConfigurationStopped(r.resultDescription), StoppedSeverity(t.result))]
                  && t.configurationResults == s.configurationResults)
            && (r.wrapped.Some? && r.wrapped.value.openConfigSucceeded && r.wrapped.value.applyConfigSucceeded
                && r.wrapped.value.unitResults.Some? && s.configurationResults.Some? ==>
                  t.configurationResults == Some(s.configurationResults.value + r.wrapped.value.unitResults.value))
            && (r.wrapped.None? || r.wrapped.value.openConfigSucceeded ==>
                  t.messages == s.messages + [Message(ConfigurationStopped(r.resultDescription), StoppedSeverity(t.result))])
            && (r.wrapped.None? || !r.wrapped.value.openConfigSucceeded || !r.wrapped.value.applyConfigSucceeded
                || r.wrapped.value.unitResults.None? ==>
                  t.configurationResults == s.configurationResults)
            && t.(messages := s.messages, result := s.result, configurationResults := s.configurationResults, signalled := s.signalled) == s
  {
  }

  /** Execute restarts the attempt counter at 1 whatever it was; the maximum is untouched (3 for a new task). */
  lemma ExecuteResetsAttempts(s: TaskState, computeSystemName: string)
    ensures BeginExecute(s, computeSystemName).attempts == 1
    ensures BeginExecute(s, computeSystemName).maxAttempts == s.maxAttempts
    ensures Initial().maxAttempts == 3
  {
  }

  // ---------------------------------------------------------------------------
  // The retry protocol over a run of events

  /** Each session in `ks` brings a card and then ends in failure. */
  function FailedRounds(ks: seq<SessionId>): seq<OperationEvent>
  {
    if ks == [] then []
    else [Progress(Some(CorrectiveActionCardSession(ks[0]))),
          CardSessionStatusChanged(ks[0], Some(SessionData(SessionEnded, ProviderFailure)))]
         + FailedRounds(ks[1..])
  }

  /** The messages of n failed rounds starting at counter `attempt`. */
  function RoundMessages(attempt: nat, maxAttempts: UInt32, n: nat): seq<Message>
    decreases n
    requires attempt + n < 0x1_0000_0000
  {
    if n == 0 then []
    else [Message(ActionNeeded(attempt, maxAttempts), Warning),
          if attempt + 1 <= maxAttempts then Message(ActionFailureRetry, Warning) else Message(ActionFailureEnd, Error)]
         + RoundMessages(attempt + 1, maxAttempts, n - 1)
  }

  /** The messages of round j: "action needed" with the counter before it, then retry or end, judged on the counter after it. */
  lemma {:induction false} RoundMessagesAt(attempt: nat, maxAttempts: UInt32, n: nat, j: nat)
    decreases n
    requires attempt + n < 0x1_0000_0000 && j < n
    ensures |RoundMessages(attempt, maxAttempts, n)| == 2 * n
    ensures RoundMessages(attempt, maxAttempts, n)[2 * j] == Message(ActionNeeded(attempt + j, maxAttempts), Warning)
    ensures RoundMessages(attempt, maxAttempts, n)[2 * j + 1] ==
              if attempt + j + 1 <= maxAttempts then Message(ActionFailureRetry, Warning) else Message(ActionFailureEnd, Error)
  {
    if j == 0 {
      RoundMessagesLength(attempt + 1, maxAttempts, n - 1);
    } else {
      RoundMessagesAt(attempt + 1, maxAttempts, n - 1, j - 1);
    }
  }

  lemma {:induction false} RoundMessagesLength(attempt: nat, maxAttempts: UInt32, n: nat)
    decreases n
    requires attempt + n < 0x1_0000_0000
    ensures |RoundMessages(attempt, maxAttempts, n)| == 2 * n
  {
    if n > 0 {
      RoundMessagesLength(attempt + 1, maxAttempts, n - 1);
    }
  }

  /**
   * n rounds of card-then-failed-session raise the counter by n (no wrap-around
   * within the bound) and produce exactly RoundMessages; the wait handle stays
   * clear, so these rounds alone never end Execute.
   */
  lemma {:induction false} CorrectiveActionRounds(s: TaskState, ks: seq<SessionId>)
    decreases |ks|
    requires !s.signalled
    requires s.attempts + |ks| < 0x1_0000_0000
    ensures var t := RunUntilSignalled(s, FailedRounds(ks));
            && t.attempts == s.attempts + |ks|
            && t.messages == s.messages + RoundMessages(s.attempts, s.maxAttempts, |ks|)
            && !t.signalled
            && t.maxAttempts == s.maxAttempts && t.result == s.result
            && t.configurationResults == s.configurationResults
            && (|ks| > 0 ==> t.session.None? && t.panel.None? && t.isAdaptiveCardPresentInUI)
            && (|ks| == 0 ==> t == s)
  {
    if ks != [] {
      var k := ks[0];
      var e0 := Progress(Some(CorrectiveActionCardSession(k)));
      var e1 := CardSessionStatusChanged(k, Some(SessionData(SessionEnded, ProviderFailure)));
      var rest := FailedRounds(ks[1..]);
      assert FailedRounds(ks) == [e0, e1] + rest;
      OneFailedRound(s, k);
      RunPastTwoEvents(s, e0, e1, rest);
      var s2 := Deliver(Deliver(s, e0), e1);
      CorrectiveActionRounds(s2, ks[1..]);
    }
  }

  /** One round: the card arrives, the counter goes up, and the session ends in failure. */
  lemma OneFailedRound(s: TaskState, k: SessionId)
    requires !s.signalled && s.attempts + 1 < 0x1_0000_0000
    ensures var t := Deliver(Deliver(s, Progress(Some(CorrectiveActionCardSession(k)))),
                             CardSessionStatusChanged(k, Some(SessionData(SessionEnded, ProviderFailure))));
            && !Deliver(s, Progress(Some(CorrectiveActionCardSession(k)))).signalled
            && t.attempts == s.attempts + 1
            && t.messages == s.messages + RoundMessages(s.attempts, s.maxAttempts, 1)
            && !t.signalled
            && t.maxAttempts == s.maxAttempts && t.result == s.result
            && t.configurationResults == s.configurationResults
            && t.session.None? && t.panel.None? && t.isAdaptiveCardPresentInUI
  {
    var s1 := Deliver(s, Progress(Some(CorrectiveActionCardSession(k))));
    assert k in s1.subscribed;
  }

  lemma RunPastTwoEvents(s: TaskState, e0: OperationEvent, e1: OperationEvent, rest: seq<OperationEvent>)
    requires !s.signalled && !Deliver(s, e0).signalled
    ensures RunUntilSignalled(s, [e0, e1] + rest) == RunUntilSignalled(Deliver(Deliver(s, e0), e1), rest)
  {
    assert ([e0, e1] + rest)[1..] == [e1] + rest;
    assert ([e1] + rest)[1..] == rest;
  }

  /**
   * Starting from counter 1 (as Execute sets it), the i-th failed corrective
   * action is reported as final (Error) exactly when i >= max, and as a retry
   * (Warning) before that.
   */
  lemma ExhaustionOnMaxthFailure(s: TaskState, ks: seq<SessionId>, i: nat)
    requires !s.signalled && s.attempts == InitialAttempts
    requires s.attempts + |ks| < 0x1_0000_0000
    requires 1 <= i <= |ks|
    ensures var t := RunUntilSignalled(s, FailedRounds(ks));
            && |t.messages| == |s.messages| + 2 * |ks|
            && t.messages[|s.messages| + 2 * i - 2] == Message(ActionNeeded(i, s.maxAttempts), Warning)
            && t.messages[|s.messages| + 2 * i - 1] ==
                 if i < s.maxAttempts then Message(ActionFailureRetry, Warning) else Message(ActionFailureEnd, Error)
  {
    var t := RunUntilSignalled(s, FailedRounds(ks));
    CorrectiveActionRounds(s, ks);
    assert t.messages == s.messages + RoundMessages(1, s.maxAttempts, |ks|);
    RoundOutcomeAt(s.messages, s.maxAttempts, |ks|, i);
  }

  lemma RoundOutcomeAt(prefix: seq<Message>, maxAttempts: UInt32, n: nat, i: nat)
    requires 1 + n < 0x1_0000_0000 && 1 <= i <= n
    ensures var m := prefix + RoundMessages(1, maxAttempts, n);
            && |m| == |prefix| + 2 * n
            && m[|prefix| + 2 * i - 2] == Message(ActionNeeded(i, maxAttempts), Warning)
            && m[|prefix| + 2 * i - 1] ==
                 if i < maxAttempts then Message(ActionFailureRetry, Warning) else Message(ActionFailureEnd, Error)
  {
    RoundMessagesAt(1, maxAttempts, n, i - 1);
  }

  /** With the default budget of 3: Warning, Warning, then Error on the 3rd failure. */
  lemma DefaultBudgetScenario(computeSystemName: string, k1: SessionId, k2: SessionId, k3: SessionId)
    ensures RunUntilSignalled(BeginExecute(Initial(), computeSystemName), FailedRounds([k1, k2, k3])).messages == [
              Message(ApplyingConfiguration(computeSystemName), Info),
              Message(ActionNeeded(1, 3), Warning), Message(ActionFailureRetry, Warning),
              Message(ActionNeeded(2, 3), Warning), Message(ActionFailureRetry, Warning),
              Message(ActionNeeded(3, 3), Warning), Message(ActionFailureEnd, Error)]
  {
    var s := BeginExecute(Initial(), computeSystemName);
    CorrectiveActionRounds(s, [k1, k2, k3]);
  }

  /** Once a card has been shown, IsAdaptiveCardPresentInUI stays true: no handler ever clears it. */
  lemma {:induction false} CardPresenceNeverCleared(s: TaskState, events: seq<OperationEvent>)
    decreases |events|
    requires s.isAdaptiveCardPresentInUI
    ensures RunUntilSignalled(s, events).isAdaptiveCardPresentInUI
  {
    if !s.signalled && events != [] {
      CardPresenceNeverCleared(Deliver(s, events[0]), events[1..]);
    }
  }

  /** A completion event sets the wait handle, so Execute returns once the operation completes. */
  lemma {:induction false} CompletedEventUnblocks(s: TaskState, events: seq<OperationEvent>, i: nat)
    decreases |events|
    requires i < |events| && events[i].Completed?
    ensures RunUntilSignalled(s, events).signalled
  {
    if !s.signalled {
      if i == 0 {
        assert Deliver(s, events[0]).signalled;
      } else {
        CompletedEventUnblocks(Deliver(s, events[0]), events[1..], i - 1);
      }
    }
  }

  /** Every handler keeps the maximum, and keeps ConfigurationResults created once it is. */
  lemma {:induction false} RunKeepsMaximumAndList(s: TaskState, events: seq<OperationEvent>)
    decreases |events|
    ensures RunUntilSignalled(s, events).maxAttempts == s.maxAttempts
    ensures s.configurationResults.Some? ==> RunUntilSignalled(s, events).configurationResults.Some?
  {
    if !s.signalled && events != [] {
      RunKeepsMaximumAndList(Deliver(s, events[0]), events[1..]);
    }
  }

  // ---------------------------------------------------------------------------
  // The two defects of the code as written, and the corrected behaviour

  /** As written, ConfigurationResults is null, so the first unit result's Add throws and no result is kept. */
  /** Handling one event while the wait handle is clear. */
  lemma RunOneEvent(s: TaskState, events: seq<OperationEvent>)
    requires !s.signalled && events != []
    ensures RunUntilSignalled(s, events) == RunUntilSignalled(Deliver(s, events[0]), events[1..])
  {
  }

  /**
   * Execute's wait ends at the first event after which the wait handle is set:
   * the run is exactly the events up to and including that one.
   */
  lemma {:induction false} RunStopsAtFirstSignal(s: TaskState, events: seq<OperationEvent>, k: nat)
    requires k <= |events|
    requires DeliverAll(s, events[..k]).signalled
    requires forall j :: 0 <= j < k ==> !DeliverAll(s, events[..j]).signalled
    ensures RunUntilSignalled(s, events) == DeliverAll(s, events[..k])
    decreases k
  {
    if k > 0 {
      assert events[..0] == [];
      var s1 := Deliver(s, events[0]);
      var rest := events[1..];
      assert events[..k][0] == events[0] && events[..k][1..] == rest[..k - 1];
      forall j | 0 <= j < k - 1
        ensures !DeliverAll(s1, rest[..j]).signalled
      {
        assert events[..j + 1][0] == events[0] && events[..j + 1][1..] == rest[..j];
        assert !DeliverAll(s, events[..j + 1]).signalled;
      }
      RunStopsAtFirstSignal(s1, rest, k - 1);
    }
  }

  lemma UnitResultsLostAsWritten(v: ResultView, description: string)
    requires v.openConfigSucceeded && v.applyConfigSucceeded
    requires v.unitResults.Some? && v.unitResults.value != []
    ensures CompletedStep(InitialAsWritten(), ApplyConfigurationResult(Some(v), description)).configurationResults.None?
  {
  }

  /** With the list created, every unit result is appended, in order, and nothing else is. */
  lemma CompletedCollectsUnitResults(s: TaskState, v: ResultView, description: string)
    requires s.configurationResults.Some?
    requires v.openConfigSucceeded && v.applyConfigSucceeded && v.unitResults.Some?
    ensures var t := CompletedStep(s, ApplyConfigurationResult(Some(v), description));
            t.configurationResults == Some(s.configurationResults.value + v.unitResults.value)
  {
  }

  /**
   * As written, a completion whose result wrapper cannot be built, arriving
   * before any Result was recorded, throws out of the handler (a null Result is
   * dereferenced) before the wait handle is set; with no such completion in
   * the trace the wait handle is never set and Execute never returns.
   */
  lemma {:induction false} CompletedWithoutResultHangsAsWritten(s: TaskState, events: seq<OperationEvent>)
    decreases |events|
    requires !s.signalled && s.result.None?
    requires forall i :: 0 <= i < |events| && events[i].Completed? ==> events[i].applyConfigurationResult.wrapped.None?
    ensures !RunUntilSignalledAsWritten(s, events).signalled
    ensures RunUntilSignalledAsWritten(s, events).result.None?
  {
    if events != [] {
      var s1 := DeliverAsWritten(s, events[0]);
      assert events[0].Completed? ==> CompletedStepAsWritten(s, events[0].applyConfigurationResult).Threw?;
      assert !s1.signalled && s1.result.None?;
      CompletedWithoutResultHangsAsWritten(s1, events[1..]);
    }
  }

  /** The smallest such trace, and what the corrected handler does with it: Execute returns Failure. */
  lemma CompletedWithoutResultScenario(computeSystemName: string, description: string)
    ensures var s := BeginExecute(Initial(), computeSystemName);
            var r := ApplyConfigurationResult(None, description);
            && CompletedStepAsWritten(s, r).Threw?
            && !RunUntilSignalledAsWritten(s, [Completed(r)]).signalled
            && ExecuteSpec(Initial(), computeSystemName, [Completed(r)]).1 == Some(TaskFailure(ResultMissing))
            && RunUntilSignalled(s, [Completed(r)]).messages
                 == s.messages + [Message(ConfigurationStopped(description), Error)]
  {
    var s := BeginExecute(Initial(), computeSystemName);
    var r := ApplyConfigurationResult(None, description);
    assert [Completed(r)][1..] == [];
    assert RunUntilSignalledAsWritten(s, [Completed(r)]) == DeliverAsWritten(s, Completed(r));
    assert RunUntilSignalled(s, [Completed(r)]) == Deliver(s, Completed(r));
  }

  // ---------------------------------------------------------------------------

  class ConfigureTargetTask {
    var computeSystemName: string
    var extensionAdaptiveCardSession: Option<SessionId>
    var subscribedSessions: set<SessionId>
    var extensionAdaptiveCardPanel: Option<SessionId>
    var isAdaptiveCardPresentInUI: bool
    var userNumberOfAttempts: UInt32
    var userMaxNumberOfAttempts: UInt32
    var result: Option<ResultView>
    var configurationResults: Option<seq<UnitResult>>
    /** The messages raised through AddMessage, in order. */
    var messages: seq<Message>
    /** _autoResetEvent is set. */
    var signalled: bool

    function Snapshot(): TaskState
      reads this
    {
      TaskState(computeSystemName, extensionAdaptiveCardSession, subscribedSessions, extensionAdaptiveCardPanel,
                isAdaptiveCardPresentInUI, userNumberOfAttempts, userMaxNumberOfAttempts, result,
                configurationResults, messages, signalled)
    }

    /** The maximum is fixed at 3 and the result list exists. */
    ghost predicate Valid()
      reads this
    {
      userMaxNumberOfAttempts == DefaultMaxAttempts && configurationResults.Some?
    }

    /** Creates the task, with ConfigurationResults created empty. */
    constructor()
      ensures Valid() && Snapshot() == Initial()
    {
      computeSystemName := "";
      extensionAdaptiveCardSession := None;
      subscribedSessions := {};
      extensionAdaptiveCardPanel := None;
      isAdaptiveCardPresentInUI := false;
      userNumberOfAttempts := InitialAttempts;
      userMaxNumberOfAttempts := DefaultMaxAttempts;
      result := None;
      configurationResults := Some([]);
      messages := [];
      signalled := false;
    }

    method AddMessage(text: MessageText, severity: Severity)
      modifies this`messages
      ensures messages == old(messages) + [Message(text, severity)]
    {
      messages := messages + [Message(text, severity)];
    }

    method RemoveAdaptiveCardPanelFromLoadingUI()
      modifies this`extensionAdaptiveCardPanel
      ensures extensionAdaptiveCardPanel.None?
    {
      if extensionAdaptiveCardPanel.Some? {
        extensionAdaptiveCardPanel := None;
      }
    }

    /** Only the panel it installs is modelled; rendering and theming are not. */
    method CreateCorrectiveActionPanel(session: SessionId)
      modifies this`extensionAdaptiveCardPanel
      ensures extensionAdaptiveCardPanel == Some(session)
    {
      if extensionAdaptiveCardPanel.Some? {
        extensionAdaptiveCardPanel := None;
      }
      extensionAdaptiveCardPanel := Some(session);
    }

    method ContinueExecution()
      modifies this`signalled
      ensures signalled
    {
      signalled := true;
    }

    method OnAdaptiveCardSessionChanged(cardSession: SessionId, data: Option<ExtensionAdaptiveCardSessionData>)
      requires Valid()
      modifies this
      ensures Valid()
      ensures Snapshot() == SessionChangedStep(old(Snapshot()), cardSession, data)
    {
      if data.Some? && data.value.eventKind == SessionEnded {
        subscribedSessions := subscribedSessions - {cardSession};
        RemoveAdaptiveCardPanelFromLoadingUI();
        extensionAdaptiveCardSession := None;
        if data.value.status == ProviderSuccess {
          AddMessage(ActionSuccess, Success);
        } else {
          if userNumberOfAttempts <= userMaxNumberOfAttempts {
            AddMessage(ActionFailureRetry, Warning);
            return;
          }
          AddMessage(ActionFailureEnd, Error);
        }
      }
    }

    method OnApplyConfigurationOperationProgress(progressData: Option<ConfigurationSetChangeData>)
      requires Valid()
      modifies this
      ensures Valid()
      ensures Snapshot() == ProgressStep(old(Snapshot()), progressData)
    {
      if progressData.None? {
        return;
      }
      match progressData.value
      case CorrectiveActionCardSession(k) =>
        if extensionAdaptiveCardSession.Some? {
          RemoveAdaptiveCardPanelFromLoadingUI();
          subscribedSessions := subscribedSessions - {extensionAdaptiveCardSession.value};
        }
        extensionAdaptiveCardSession := Some(k);
        subscribedSessions := subscribedSessions + {k};
        CreateCorrectiveActionPanel(k);
        isAdaptiveCardPresentInUI := true;
        var attempt := userNumberOfAttempts;
        userNumberOfAttempts := Increment(userNumberOfAttempts);
        AddMessage(ActionNeeded(attempt, userMaxNumberOfAttempts), Warning);
      case ChangeData(errors) =>
        if errors.Some? {
          AddMessage(ProgressErrors(errors.value), Error);
        }
    }

    method OnApplyConfigurationOperationCompleted(applyConfigurationResult: ApplyConfigurationResult)
      requires Valid()
      modifies this
      ensures Valid()
      ensures Snapshot() == CompletedStep(old(Snapshot()), applyConfigurationResult)
    {
      var resultInformation := applyConfigurationResult.resultDescription;
      // try
      if applyConfigurationResult.wrapped.Some? {
        var v := applyConfigurationResult.wrapped.value;
        result := Some(v);
        if !v.openConfigSucceeded {
          AddMessage(OpenConfigurationError(v.openErrorMessage), Error);
          // OpenConfigurationSetException, caught
        } else if !v.applyConfigSucceeded {
          // SDKApplyConfigurationSetResultException, caught
        } else if v.unitResults.Some? {
          AppendUnitResults(v.unitResults.value);
        } else {
          // SDKApplyConfigurationSetResultException (no configuration units), caught
        }
      }
      var severity := if result.Some? && result.value.applyConfigSucceeded then Info else Error;
      AddMessage(ConfigurationStopped(resultInformation), severity);
      ContinueExecution();
    }

    /** The `foreach` over the unit results: each is added to ConfigurationResults, in order. */
    method AppendUnitResults(units: seq<UnitResult>)
      requires configurationResults.Some?
      modifies this`configurationResults
      ensures configurationResults == Some(old(configurationResults).value + units)
    {
      ghost var before := configurationResults.value;
      assert before + units[..0] == before;
      for i := 0 to |units|
        invariant configurationResults == Some(before + units[..i])
      {
        assert before + units[..i + 1] == before + units[..i] + [units[i]];
        configurationResults := Some(configurationResults.value + [units[i]]);
      }
      assert units[..|units|] == units;
    }

    /** The runtime raises one event; a card session's event reaches the handler only while it is attached to that session. */
    method Raise(e: OperationEvent)
      requires Valid()
      modifies this
      ensures Valid()
      ensures Snapshot() == Deliver(old(Snapshot()), e)
    {
      match e
      case Progress(p) => OnApplyConfigurationOperationProgress(p);
      case CardSessionStatusChanged(k, d) =>
        if k in subscribedSessions {
          OnAdaptiveCardSessionChanged(k, d);
        }
      case Completed(r) => OnApplyConfigurationOperationCompleted(r);
    }

    /**
     * Execute, given the events that arrive while it waits. It returns None
     * when the events run out before the wait handle is set: the real call
     * would still be blocked.
     */
    method Execute(computeSystemName: string, events: seq<OperationEvent>) returns (finished: Option<TaskFinishedState>)
      requires Valid()
      modifies this
      ensures Valid()
      ensures (Snapshot(), finished) == ExecuteSpec(old(Snapshot()), computeSystemName, events)
    {
      userNumberOfAttempts := InitialAttempts;
      this.computeSystemName := computeSystemName;
      AddMessage(ApplyingConfiguration(computeSystemName), Info);
      ghost var begun := Snapshot();
      assert begun == BeginExecute(old(Snapshot()), computeSystemName);
      var i := 0;
      while i < |events| && !signalled
        invariant 0 <= i <= |events|
        invariant Valid()
        invariant RunUntilSignalled(Snapshot(), events[i..]) == RunUntilSignalled(begun, events)
      {
        RunOneEvent(Snapshot(), events[i..]);
        assert events[i..][1..] == events[i + 1..];
        Raise(events[i]);
        i := i + 1;
      }
      if !signalled {
        assert events[i..] == [];
        return None;
      }
      signalled := false;
      finished := Some(Classify(result));
    }

    function GetLoadingMessages(localizedTargetName: string): (m: TaskMessages)
      reads this
      ensures m == LoadingMessages(computeSystemName, localizedTargetName)
      ensures computeSystemName == "" ==> m.executing == ApplyingConfiguration(localizedTargetName)
    {
      LoadingMessages(computeSystemName, localizedTargetName)
    }
  }
}
