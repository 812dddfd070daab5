/**
 * The card shown while an environment (compute system) is being created
 * (tools/Environments/DevHome.Environments/ViewModels/CreateComputeSystemOperationViewModel.cs).
 *
 * The card starts in Creating/Caution, shows the operation's progress text with
 * a percentage suffix, and moves to Created/Success or Unknown/Failure when the
 * operation completes. Work queued on the UI dispatcher is applied at once, in
 * the order it was queued.
 */
module ComputeSystemCreation {
  import opened Wrappers

  type UInt32 = n: int | 0 <= n < 0x1_0000_0000

  /** The states of ComputeSystemState this card uses; the others are not reached here. */
  datatype ComputeSystemState = Creating | Created | Unknown

  datatype CardStateColor = Success | Caution | Failure

  datatype ProviderOperationStatus = ProviderSuccess | ProviderFailure

  /** Identity of the compute system a successful creation hands back. */
  type ComputeSystemId = string

  datatype CreateComputeSystemResult = CreateComputeSystemResult(
    status: ProviderOperationStatus,
    displayMessage: string,
    computeSystem: ComputeSystemId)

  /** What the view model reads from the operation when it is constructed. */
  datatype CreateComputeSystemOperation = CreateComputeSystemOperation(
    lastProgressMessage: string,
    lastProgressPercentage: UInt32,
    createComputeSystemResult: Option<CreateComputeSystemResult>)

  // ---------------------------------------------------------------------------
  // Decimal rendering of the percentage (string interpolation of a uint)

  function DigitChar(d: nat): (c: char)
    requires d < 10
    ensures '0' <= c <= '9' && (c as int) - ('0' as int) == d
  {
    (('0' as int) + d) as char
  }

  predicate IsDigit(c: char) { '0' <= c <= '9' }

  predicate AllDigits(s: string) { forall i :: 0 <= i < |s| ==> IsDigit(s[i]) }

  /** The number a string of decimal digits denotes (an independent reading of Decimal's output). */
  function DigitsValue(s: string): nat
    requires AllDigits(s)
  {
    if s == [] then 0
    else assert IsDigit(s[|s| - 1]); DigitsValue(s[..|s| - 1]) * 10 + ((s[|s| - 1] as int) - ('0' as int))
  }

  /** Shortest decimal rendering of n, as `$"{n}"` produces it. */
  function Decimal(n: nat): string
  {
    if n < 10 then [DigitChar(n)] else Decimal(n / 10) + [DigitChar(n % 10)]
  }

  /** Decimal(n) is a non-empty string of digits, without a leading zero, that denotes n. */
  lemma {:induction false} DecimalDenotes(n: nat)
    ensures |Decimal(n)| > 0
    ensures AllDigits(Decimal(n))
    ensures DigitsValue(Decimal(n)) == n
    ensures |Decimal(n)| > 1 ==> Decimal(n)[0] != '0'
  {
    if n >= 10 {
      DecimalDenotes(n / 10);
      var s := Decimal(n);
      assert s[..|s| - 1] == Decimal(n / 10);
      assert Decimal(n)[0] == Decimal(n / 10)[0];
    }
  }

  /** The percentage suffix: empty for 0, otherwise "(p%)". */
  function PercentageText(percentage: UInt32): (t: string)
    ensures t == [] <==> percentage == 0
  {
    if percentage == 0 then "" else "(" + Decimal(percentage) + "%)"
  }

  /** `$"{operationStatus} {percentageString}"` */
  function FormatUiMessage(operationStatus: string, percentage: UInt32): (m: string)
    ensures |m| >= |operationStatus| + 1 && m[..|operationStatus| + 1] == operationStatus + " "
    ensures |m| == |operationStatus| + 1 <==> percentage == 0
  {
    operationStatus + " " + PercentageText(percentage)
  }

  /**
   * `m` reads back as `status`, then " (", then a digit string denoting
   * `percentage`, then "%)".
   */
  predicate ReadsBack(m: string, status: string, percentage: nat)
  {
    var k := |status|;
    && |m| >= k + 5
    && m[..k] == status
    && m[k..k + 2] == " ("
    && m[|m| - 2..] == "%)"
    && AllDigits(m[k + 2..|m| - 2])
    && DigitsValue(m[k + 2..|m| - 2]) == percentage
  }

  /** Where the parts of `status + " (" + digits + "%)"` lie. */
  lemma MessageParts(status: string, digits: string, percentage: nat)
    requires |digits| > 0 && AllDigits(digits) && DigitsValue(digits) == percentage
    ensures ReadsBack(status + " (" + digits + "%)", status, percentage)
  {
  }

  /** The status text and the percentage can both be read back from a message with a non-zero percentage. */
  lemma PercentageReadBack(operationStatus: string, percentage: UInt32)
    requires percentage > 0
    ensures ReadsBack(FormatUiMessage(operationStatus, percentage), operationStatus, percentage)
  {
    DecimalDenotes(percentage);
    assert FormatUiMessage(operationStatus, percentage) == operationStatus + " (" + Decimal(percentage) + "%)";
    MessageParts(operationStatus, Decimal(percentage), percentage);
  }

  // ---------------------------------------------------------------------------

  class CreateComputeSystemOperationViewModel {
    /** Localized-string lookup: resource key and arguments to display text. */
    const stringResource: (string, seq<string>) -> string
    const operation: CreateComputeSystemOperation

    var state: ComputeSystemState
    var stateColor: CardStateColor
    var isCreationInProgress: bool
    var uiMessageToDisplay: string
    var computeSystem: Option<ComputeSystemId>
    /** Whether OnOperationCompleted and OnOperationProgressChanged are subscribed to the operation's events. */
    var handlersAttached: bool

    constructor(stringResource: (string, seq<string>) -> string, operation: CreateComputeSystemOperation)
      ensures this.stringResource == stringResource && this.operation == operation
      ensures handlersAttached
      ensures operation.createComputeSystemResult.None? ==>
                && isCreationInProgress
                && state == Creating && stateColor == Caution
                && uiMessageToDisplay == FormatUiMessage(operation.lastProgressMessage, operation.lastProgressPercentage)
                && computeSystem == None
      ensures operation.createComputeSystemResult.Some? ==>
                Completion(operation.createComputeSystemResult.value, None)
    {
      this.stringResource := stringResource;
      this.operation := operation;
      computeSystem := None;
      uiMessageToDisplay := "";
      new;
      UpdateUiMessage(operation.lastProgressMessage, operation.lastProgressPercentage);
      isCreationInProgress := true;
      handlersAttached := true;
      state := Creating;
      stateColor := Caution;
      if operation.createComputeSystemResult.Some? {
        UpdateStatusIfCompleted(operation.createComputeSystemResult.value);
      }
    }

    /** The card after a completion with `result`; `previous` is the compute system held before. */
    ghost predicate Completion(result: CreateComputeSystemResult, previous: Option<ComputeSystemId>)
      reads this
    {
      && !isCreationInProgress
      && (result.status == ProviderSuccess ==>
            && state == Created && stateColor == Success
            && uiMessageToDisplay == FormatUiMessage(stringResource("SuccessMessageForCreateComputeSystem", []), 0)
            && computeSystem == Some(result.computeSystem))
      && (result.status != ProviderSuccess ==>
            && state == Unknown && stateColor == Failure
            && uiMessageToDisplay == FormatUiMessage(stringResource("FailureMessageForCreateComputeSystem", [result.displayMessage]), 0)
            && computeSystem == previous)
    }

    method UpdateUiMessage(operationStatus: string, percentage: UInt32)
      modifies this`uiMessageToDisplay
      ensures uiMessageToDisplay == FormatUiMessage(operationStatus, percentage)
    {
      var percentageString := if percentage == 0 then "" else "(" + Decimal(percentage) + "%)";
      uiMessageToDisplay := operationStatus + " " + percentageString;
    }

    method UpdateStatusIfCompleted(result: CreateComputeSystemResult)
      modifies this`isCreationInProgress, this`uiMessageToDisplay, this`computeSystem, this`state, this`stateColor
      ensures Completion(result, old(computeSystem))
    {
      isCreationInProgress := false;
      if result.status == ProviderSuccess {
        UpdateUiMessage(stringResource("SuccessMessageForCreateComputeSystem", []), 0);
        computeSystem := Some(result.computeSystem);
        state := Created;
        stateColor := Success;
      } else {
        UpdateUiMessage(stringResource("FailureMessageForCreateComputeSystem", [result.displayMessage]), 0);
        state := Unknown;
        stateColor := Failure;
      }
    }

    method OnOperationCompleted(result: CreateComputeSystemResult)
      modifies this`isCreationInProgress, this`uiMessageToDisplay, this`computeSystem, this`state, this`stateColor
      ensures Completion(result, old(computeSystem))
    {
      UpdateStatusIfCompleted(result);
    }

    /** Progress only rewrites the displayed message; State and StateColor are untouched (the frame says so). */
    method OnOperationProgressChanged(status: string, percentageCompleted: UInt32)
      modifies this`uiMessageToDisplay
      ensures uiMessageToDisplay == FormatUiMessage(status, percentageCompleted)
    {
      UpdateUiMessage(status, percentageCompleted);
    }

    method RemoveEventHandlers()
      modifies this`handlersAttached
      ensures !handlersAttached
    {
      handlersAttached := false;
    }

    /** The operation raises its Progress event: the handler runs only while it is subscribed. */
    method DeliverProgress(status: string, percentageCompleted: UInt32)
      modifies this`uiMessageToDisplay
      ensures handlersAttached ==> uiMessageToDisplay == FormatUiMessage(status, percentageCompleted)
      ensures !handlersAttached ==> uiMessageToDisplay == old(uiMessageToDisplay)
    {
      if handlersAttached {
        OnOperationProgressChanged(status, percentageCompleted);
      }
    }

    /** The operation raises its Completed event: the handler runs only while it is subscribed. */
    method DeliverCompleted(result: CreateComputeSystemResult)
      modifies this`isCreationInProgress, this`uiMessageToDisplay, this`computeSystem, this`state, this`stateColor
      ensures handlersAttached ==> Completion(result, old(computeSystem))
      ensures !handlersAttached ==> unchanged(this)
    {
      if handlersAttached {
        OnOperationCompleted(result);
      }
    }
  }
}
