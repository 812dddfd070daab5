# Dev Home: setup-target configuration, Git status, group policy, Dev Drive and environment-creation logic in Dafny

This project models five small pieces of Dev Home's logic. Each one decides something or holds state.

- **ConfigureTarget** (`configure_target.dfy`) covers the setup-flow task that applies a WinGet configuration to a remote compute system.
  - Execute starts the request and then waits on a wait handle.
  - While it waits, three handlers react to the operation:
    - progress, which may carry a corrective-action card session that the user must complete;
    - the card session's status changes;
    - completion, which records the result, collects the per-unit results and releases the wait.
  - Execute then classifies the recorded result as Success or Failure.
  - The state is a `TaskState` value. Each handler is a transition function on it.
  - The class `ConfigureTargetTask` performs the same updates in place. Every event handler's postcondition, and those of `Raise` and `Execute`, tie the new state to the transition function. The smaller helpers state their field updates directly.
  - Messages for the action center are kept as a log of (text key, severity) pairs. The wait handle is a flag.
  - The lemmas state the corrective-action retry protocol over whole runs of events. They also state two defects of the code as written, with their corrections (see Findings).
- **GitStatus** (`git_status.dfy`) is the status snapshot that File Explorer's Git integration builds.
  - It holds a map from path to entry, plus nine buckets. Each bucket collects the entries whose status carries one flag.
  - A ghost history of added entries lets `Valid()` say exactly what each bucket holds.
- **GroupPolicy** (`group_policy.dfy`) is the group-policy switches.
  - A registry value is read as a tri-state.
  - Negative "not usable" codes fall back to the caller's default.
  - Five public switches are built on top.
- **DevDriveOptimize** (`dev_drive.dfy`) is the dialog that moves a package cache onto a Dev Drive.
  - It checks the drive letter, ignoring case.
  - It then moves the cache and, only if the move succeeds, sets the environment variable. Both are recorded as effects.
- **ComputeSystemCreation** (`compute_system_creation.dfy`) is the card shown while an environment is being created.
  - It covers the card's state, its colour and its message with a percentage suffix.
  - It covers what happens once the event handlers are detached.
- **Wrappers** (`wrappers.dfy`) holds `Option` and `Result`.

Integer widths are explicit:
- `uint` counters are `UInt32`. The attempt counter's `++` wraps at 2^32.
- `int` fields and registry DWORDs are `Int32`.

Localized strings are represented by their resource key and arguments. In ComputeSystemCreation they come from an injected lookup function.

## Model

| member | source | states |
|---|---|---|
| GroupPolicy.GetConfiguredValue | common/Helpers/GPOHelper.cs:30-36 | A missing key or value reads as NotConfigured. A stored DWORD reads as itself. Any other kind of value makes the cast fail (Err). |
| GroupPolicy.EvaluateConfiguredValue | common/Helpers/GPOHelper.cs:38-47 | Nothing stored gives `default == Enabled`. A stored DWORD v gives `v == 1`, except that a negative v is replaced by the default. A non-DWORD gives the cast error. |
| GroupPolicy.GetConfiguredEnabledDevHomeValue | common/Helpers/GPOHelper.cs:49-53 | Uses the DevHome value with default Enabled, so it is true when unconfigured. |
| GroupPolicy.GetConfiguredEnabledMachineConfigurationValue | common/Helpers/GPOHelper.cs:55-60 | Always false, whatever the registry holds. |
| GroupPolicy.GetConfiguredEnabledEnvironmentsValue | common/Helpers/GPOHelper.cs:62-66 | Uses the Environments value with default Enabled, so it is true when unconfigured. |
| GroupPolicy.GetConfiguredEnabledExperimentalFeaturesValue | common/Helpers/GPOHelper.cs:68-72 | Uses the ExperimentalFeatures value with default Enabled, so it is true when unconfigured. |
| GroupPolicy.GetConfiguredHiddenDevHomeValue | common/Helpers/GPOHelper.cs:74-78 | Uses the HiddenDevHome value with default Disabled, so it is false when unconfigured. |
| GroupPolicy.EnabledIffEffectiveValueIsOne | common/Helpers/GPOHelper.cs:41-46 | A policy holds iff the stored DWORD is 1, or nothing usable (absent or negative) is stored and the default is Enabled. |
| GroupPolicy.NegativeCodeMeansDefault | common/Helpers/GPOHelper.cs:41-44 | Storing any negative code (WrongValue, Unavailable, NotConfigured) gives the same answer as a missing key. |
| GroupPolicy.NonNegativeOtherThanOneIsFalse | common/Helpers/GPOHelper.cs:46 | A stored non-negative value other than 1 gives false, and the default then plays no part. |
| DevDriveOptimize.OptimizeDevDriveDialogViewModel.constructor | tools/Customization/DevHome.Customization/ViewModels/DevDriveInsights/OptimizeDevDriveDialogViewModel.cs:51-66 | The path text starts as the empty string. The letters, cache location and variable name are stored. No effect has happened yet. |
| DevDriveOptimize.OptimizeDevDriveDialogViewModel.DirectoryPathChanged | tools/Customization/DevHome.Customization/ViewModels/DevDriveInsights/OptimizeDevDriveDialogViewModel.cs:68-72 | The path text becomes exactly the given text, which may be null. |
| DevDriveOptimize.OptimizeDevDriveDialogViewModel.BrowseButtonClick | tools/Customization/DevHome.Customization/ViewModels/DevDriveInsights/OptimizeDevDriveDialogViewModel.cs:74-92 | A picked folder replaces the path text. Cancelling leaves the text unchanged. |
| DevDriveOptimize.OptimizeDevDriveDialogViewModel.ChosenDirectoryInDevDrive | tools/Customization/DevHome.Customization/ViewModels/DevDriveInsights/OptimizeDevDriveDialogViewModel.cs:148-159 | The search with early return gives true iff some letter L makes the path start with `L:`, ignoring case. |
| DevDriveOptimize.OptimizeDevDriveDialogViewModel.DirectoryInputConfirmed | tools/Customization/DevHome.Customization/ViewModels/DevDriveInsights/OptimizeDevDriveDialogViewModel.cs:161-184 | Exactly the effects of `ConfirmEffects` are appended to the effect log, and nothing else changes. |
| DevDriveOptimize.MoveIffNonEmptyOnDevDrive | tools/Customization/DevHome.Customization/ViewModels/DevDriveInsights/OptimizeDevDriveDialogViewModel.cs:164-172 | A move happens iff the path is non-null, non-empty and on a Dev Drive. It is always from the existing cache to that path. |
| DevDriveOptimize.VariableSetOnlyAfterSuccessfulMove | tools/Customization/DevHome.Customization/ViewModels/DevDriveInsights/OptimizeDevDriveDialogViewModel.cs:172-174 | The variable is set, to the chosen path, iff a move happened and returned 0. The write always comes after the move. |
| DevDriveOptimize.NoDevDrivesNoEffects | tools/Customization/DevHome.Customization/ViewModels/DevDriveInsights/OptimizeDevDriveDialogViewModel.cs:150-158 | With no Dev Drive letters, confirming never has an effect. |
| DevDriveOptimize.LetterCaseIrrelevant | tools/Customization/DevHome.Customization/ViewModels/DevDriveInsights/OptimizeDevDriveDialogViewModel.cs:152 | Letter lists that differ only in case accept exactly the same paths. |
| ComputeSystemCreation.DecimalDenotes | tools/Environments/DevHome.Environments/ViewModels/CreateComputeSystemOperationViewModel.cs:123 | The interpolated number is a non-empty digit string with no leading zero that denotes the number. |
| ComputeSystemCreation.PercentageText | tools/Environments/DevHome.Environments/ViewModels/CreateComputeSystemOperationViewModel.cs:123 | The suffix is empty iff the percentage is 0. |
| ComputeSystemCreation.FormatUiMessage | tools/Environments/DevHome.Environments/ViewModels/CreateComputeSystemOperationViewModel.cs:119-126 | The message starts with the status and a space. It is exactly that iff the percentage is 0. |
| ComputeSystemCreation.PercentageReadBack | tools/Environments/DevHome.Environments/ViewModels/CreateComputeSystemOperationViewModel.cs:123-124 | For a non-zero percentage, the message reads back as status, " (", digits denoting the percentage, "%)". |
| ComputeSystemCreation.CreateComputeSystemOperationViewModel.constructor | tools/Environments/DevHome.Environments/ViewModels/CreateComputeSystemOperationViewModel.cs:56-79 | The handlers are attached. With no result yet, the card is in progress, Creating and Caution, and shows the operation's last message. With a result, the card is in its completion state. |
| ComputeSystemCreation.CreateComputeSystemOperationViewModel.UpdateUiMessage | tools/Environments/DevHome.Environments/ViewModels/CreateComputeSystemOperationViewModel.cs:119-126 | The displayed message is `FormatUiMessage(status, percentage)`, and only it changes. |
| ComputeSystemCreation.CreateComputeSystemOperationViewModel.UpdateStatusIfCompleted | tools/Environments/DevHome.Environments/ViewModels/CreateComputeSystemOperationViewModel.cs:86-106 | The card is no longer in progress. Success gives Created, Success colour, the success text with no percentage, and the new compute system. Otherwise it gives Unknown, Failure colour, the failure text with the display message, and the compute system is unchanged. |
| ComputeSystemCreation.CreateComputeSystemOperationViewModel.OnOperationCompleted | tools/Environments/DevHome.Environments/ViewModels/CreateComputeSystemOperationViewModel.cs:81-84 | Same completion state as UpdateStatusIfCompleted. |
| ComputeSystemCreation.CreateComputeSystemOperationViewModel.OnOperationProgressChanged | tools/Environments/DevHome.Environments/ViewModels/CreateComputeSystemOperationViewModel.cs:108-111 | Only the displayed message changes. State and colour are outside its frame. |
| ComputeSystemCreation.CreateComputeSystemOperationViewModel.RemoveEventHandlers | tools/Environments/DevHome.Environments/ViewModels/CreateComputeSystemOperationViewModel.cs:113-117 | The handlers are detached. |
| ComputeSystemCreation.CreateComputeSystemOperationViewModel.DeliverProgress | tools/Environments/DevHome.Environments/ViewModels/CreateComputeSystemOperationViewModel.cs:113-117 | After RemoveEventHandlers, a progress event leaves the message unchanged. Before it, the progress handler runs. |
| ComputeSystemCreation.CreateComputeSystemOperationViewModel.DeliverCompleted | tools/Environments/DevHome.Environments/ViewModels/CreateComputeSystemOperationViewModel.cs:113-117 | After RemoveEventHandlers, a completion event changes nothing. Before it, the completion state is reached. |
| GitStatus.WithFlagMembership | extensions/GitExtension/FileExplorerGitIntegration/Models/GitRepositoryStatus.cs:45-51 | An entry is in a flag's filtered list iff it was added and its status carries the flag. |
| GitStatus.GitRepositoryStatus.constructor | extensions/GitExtension/FileExplorerGitIntegration/Models/GitRepositoryStatus.cs:29-40 | There are exactly nine buckets, all empty, and an empty file map. The branch fields are empty, false and 0. |
| GitStatus.GitRepositoryStatus.Add | extensions/GitExtension/FileExplorerGitIntegration/Models/GitRepositoryStatus.cs:42-52 | It succeeds iff the path is new. On failure nothing changes. On success the path maps to the entry, and the entry is appended at the end of exactly the buckets whose flag its status carries. |
| GitStatus.GitRepositoryStatus.AppendToBuckets | extensions/GitExtension/FileExplorerGitIntegration/Models/GitRepositoryStatus.cs:45-51 | The loop over the buckets appends the entry to each bucket whose flag it carries, and to no other. |
| GitStatus.GitRepositoryStatus.SetSha | extensions/GitExtension/FileExplorerGitIntegration/Models/GitRepositoryStatus.cs:54-57 | Sha() returns the value set. Only that field changes. |
| GitStatus.GitRepositoryStatus.SetBranchName | extensions/GitExtension/FileExplorerGitIntegration/Models/GitRepositoryStatus.cs:59-62 | BranchName() returns the value set. Only that field changes. |
| GitStatus.GitRepositoryStatus.SetIsBranchDetached | extensions/GitExtension/FileExplorerGitIntegration/Models/GitRepositoryStatus.cs:64-67 | IsHeadDetached() returns the value set. Only that field changes. |
| GitStatus.GitRepositoryStatus.SetAheadBy | extensions/GitExtension/FileExplorerGitIntegration/Models/GitRepositoryStatus.cs:69-72 | AheadBy() returns the value set. Only that field changes. |
| GitStatus.GitRepositoryStatus.SetBehindBy | extensions/GitExtension/FileExplorerGitIntegration/Models/GitRepositoryStatus.cs:74-77 | BehindBy() returns the value set. Only that field changes. |
| GitStatus.GitRepositoryStatus.SetUpstreamBranch | extensions/GitExtension/FileExplorerGitIntegration/Models/GitRepositoryStatus.cs:79-82 | UpstreamBranch() returns the value set. Only that field changes. |
| GitStatus.GitRepositoryStatus.FileEntries | extensions/GitExtension/FileExplorerGitIntegration/Models/GitRepositoryStatus.cs:84 | The path-to-entry map that Add extends: its keys are exactly the paths Add accepted, each mapped to the entry added under it. |
| GitStatus.GitRepositoryStatus.Bucket | extensions/GitExtension/FileExplorerGitIntegration/Models/GitRepositoryStatus.cs:86-102 | A tracked flag's bucket is the added entries carrying that flag, in the order they were added. |
| GitStatus.GitRepositoryStatus.AccessorsAreFlagFilters | extensions/GitExtension/FileExplorerGitIntegration/Models/GitRepositoryStatus.cs:86-102 | Each accessor (Added is NewInIndex, Staged is ModifiedInIndex, ..., Conflicted is Conflicted) holds exactly the added entries carrying its flag. An entry with none of the nine flags is in no bucket. |
| ConfigureTarget.Increment | tools/SetupFlow/DevHome.SetupFlow/Models/ConfigureTargetTask.cs:170 | The `uint` post-increment adds one and wraps to 0 after 2^32 - 1. |
| ConfigureTarget.InitialAsWritten | tools/SetupFlow/DevHome.SetupFlow/Models/ConfigureTargetTask.cs:89 | As written, a new task has no result list: it differs from the corrected initial state only in that the list is null. |
| ConfigureTarget.ProgressStep | tools/SetupFlow/DevHome.SetupFlow/Models/ConfigureTargetTask.cs:145-192 | A progress event never sets the wait handle and never changes the result, the unit results, the maximum or the target name. It adds at most one message and keeps the earlier ones. Only a corrective-action card session moves the counter. |
| ConfigureTarget.SessionChangedStep | tools/SetupFlow/DevHome.SetupFlow/Models/ConfigureTargetTask.cs:115-143 | A card session event never sets the wait handle or changes the result, unit results, counter, maximum or card flag. It adds at most one message and keeps the earlier ones. It either leaves the task unchanged or releases the panel and session and detaches its handler. |
| ConfigureTarget.CompletedStep | tools/SetupFlow/DevHome.SetupFlow/Models/ConfigureTargetTask.cs:194-246 | Completion always sets the wait handle (corrected at :242, see Findings). The result is replaced only by a present one. Session, panel and counter are unchanged. The log keeps its earlier messages and ends with the "stopped" message, Info iff the recorded apply succeeded. |
| ConfigureTarget.CompletedStepAsWritten | tools/SetupFlow/DevHome.SetupFlow/Models/ConfigureTargetTask.cs:241-245 | As written, the handler throws exactly when the completion carries no result and none was recorded before. A throw leaves the task untouched and the wait handle clear. When it returns, it agrees with the corrected handler. |
| ConfigureTarget.DeliverAsWritten | tools/SetupFlow/DevHome.SetupFlow/Models/ConfigureTargetTask.cs:194-246 | As written, an event has the same effect as in the corrected model, except for a completion without a result when none was recorded; that one leaves the task unchanged. |
| ConfigureTarget.RunUntilSignalled | tools/SetupFlow/DevHome.SetupFlow/Models/ConfigureTargetTask.cs:285-288 | The handlers that run while Execute waits: nothing is handled once the wait handle is set. While it stays clear, every event is delivered, in order. The log only grows. |
| ConfigureTarget.RunStopsAtFirstSignal | tools/SetupFlow/DevHome.SetupFlow/Models/ConfigureTargetTask.cs:285-288 | The wait ends at the first event after which the wait handle is set. The run is exactly the events up to and including that one. |
| ConfigureTarget.RunUntilSignalledAsWritten | tools/SetupFlow/DevHome.SetupFlow/Models/ConfigureTargetTask.cs:285-288 | Once a result has been recorded, the events handled while Execute waits have the same effect as written as in the corrected model. |
| ConfigureTarget.BeginExecute | tools/SetupFlow/DevHome.SetupFlow/Models/ConfigureTargetTask.cs:278-281 | Execute sets the counter to 1 and the target name, and announces the target with one Info message. Nothing else about the task changes. |
| ConfigureTarget.CollectUnitResults | tools/SetupFlow/DevHome.SetupFlow/Models/ConfigureTargetTask.cs:222-227 | With the list created, all unit results are appended in order. With a null list, nothing is kept, because the first Add throws. |
| ConfigureTarget.Classify | tools/SetupFlow/DevHome.SetupFlow/Models/ConfigureTargetTask.cs:293-316 | The result is Success iff a result exists and its open result code, apply exception and result code are all null. Otherwise it is Failure, with the cause found first in that order. A missing result is Failure, and a non-null result code alone gives Failure with that code. |
| ConfigureTarget.LoadingMessages | tools/SetupFlow/DevHome.SetupFlow/Models/ConfigureTargetTask.cs:323-334 | All four messages name the target. An empty target name falls back to the localized name. |
| ConfigureTarget.ProgressWithCardSession | tools/SetupFlow/DevHome.SetupFlow/Models/ConfigureTargetTask.cs:155-171 | A corrective session replaces the old one: the old handler is detached, the new one attached, and its panel shown. The card is marked present. The counter goes up by exactly one. The "action needed" message shows the counter before the increment and the maximum. Result, unit results and signal are unchanged. |
| ConfigureTarget.ProgressWithoutCardSession | tools/SetupFlow/DevHome.SetupFlow/Models/ConfigureTargetTask.cs:149-181 | A null payload or one without a card session changes only the message log. An Error message is added iff the change reports errors. |
| ConfigureTarget.SessionEndedEffects | tools/SetupFlow/DevHome.SetupFlow/Models/ConfigureTargetTask.cs:115-143 | Only SessionEnded has an effect. It clears the session and panel and detaches the handler, leaving the counter alone. It adds exactly one message: Success on success; on failure, Warning if counter <= max and Error otherwise. Nothing else changes: result, unit results, wait handle, maximum and target name are kept. |
| ConfigureTarget.CompletedHandlerEffects | tools/SetupFlow/DevHome.SetupFlow/Models/ConfigureTargetTask.cs:194-246 | An open failure adds its error message and keeps no unit results. A successful apply appends the unit results in order. A final "stopped" message always comes last, with severity Info iff the apply succeeded; apart from an open failure's error it is the only message added. Unit results change only on a successful apply that has them. The wait handle is set. Session, counter and card fields are unchanged. |
| ConfigureTarget.ExecuteResetsAttempts | tools/SetupFlow/DevHome.SetupFlow/Models/ConfigureTargetTask.cs:91-93 | Execute sets the counter to 1 whatever it was. The maximum is kept, and it is 3 for a new task. |
| ConfigureTarget.CorrectiveActionRounds | tools/SetupFlow/DevHome.SetupFlow/Models/ConfigureTargetTask.cs:115-172 | n rounds of card-then-failed-session raise the counter by exactly n, with no cap, and log exactly the round messages. They never set the wait handle. |
| ConfigureTarget.ExhaustionOnMaxthFailure | tools/SetupFlow/DevHome.SetupFlow/Models/ConfigureTargetTask.cs:133-139 | From counter 1, the i-th failed action is reported as final (Error) iff i >= max, and as a retry (Warning) otherwise. Its "action needed" message shows i. |
| ConfigureTarget.DefaultBudgetScenario | tools/SetupFlow/DevHome.SetupFlow/Models/ConfigureTargetTask.cs:133-170 | With the default maximum of 3, three failures log Warning, Warning, then Error. |
| ConfigureTarget.CardPresenceNeverCleared | tools/SetupFlow/DevHome.SetupFlow/Models/ConfigureTargetTask.cs:169 | Once set, IsAdaptiveCardPresentInUI stays true for the rest of the run. |
| ConfigureTarget.CompletedEventUnblocks | tools/SetupFlow/DevHome.SetupFlow/Models/ConfigureTargetTask.cs:241-255 | Any run containing a completion event ends with the wait handle set. |
| ConfigureTarget.RunKeepsMaximumAndList | tools/SetupFlow/DevHome.SetupFlow/Models/ConfigureTargetTask.cs:93 | No handler changes the maximum or destroys a created result list. |
| ConfigureTarget.UnitResultsLostAsWritten | tools/SetupFlow/DevHome.SetupFlow/Models/ConfigureTargetTask.cs:89 | As written, the list is never created, so a successful apply with unit results keeps none. |
| ConfigureTarget.CompletedCollectsUnitResults | tools/SetupFlow/DevHome.SetupFlow/Models/ConfigureTargetTask.cs:222-227 | With the list created, a successful apply appends exactly its unit results, in order. |
| ConfigureTarget.CompletedWithoutResultHangsAsWritten | tools/SetupFlow/DevHome.SetupFlow/Models/ConfigureTargetTask.cs:241-245 | As written, if every completion fails to build its result and none was recorded before, the handler throws before signalling. The wait handle is then never set. |
| ConfigureTarget.CompletedWithoutResultScenario | tools/SetupFlow/DevHome.SetupFlow/Models/ConfigureTargetTask.cs:241-245 | A single such completion makes the code as written throw and leaves Execute blocked. The corrected handler logs "stopped" with Error, and Execute returns Failure. |
| ConfigureTarget.ConfigureTargetTask.constructor | tools/SetupFlow/DevHome.SetupFlow/Models/ConfigureTargetTask.cs:76-113 | A new task has counter 1 and maximum 3, no session, panel or result, an empty message log, and the wait handle clear. The result list is created empty (the correction). |
| ConfigureTarget.ConfigureTargetTask.AddMessage | tools/SetupFlow/DevHome.SetupFlow/Models/ConfigureTargetTask.cs:59 | Raising the AddMessage event grows the log by exactly the given message, with its severity, at the end. |
| ConfigureTarget.ConfigureTargetTask.RemoveAdaptiveCardPanelFromLoadingUI | tools/SetupFlow/DevHome.SetupFlow/Models/ConfigureTargetTask.cs:260-270 | No panel is shown afterwards. |
| ConfigureTarget.ConfigureTargetTask.CreateCorrectiveActionPanel | tools/SetupFlow/DevHome.SetupFlow/Models/ConfigureTargetTask.cs:405-412 | The panel for the given session replaces any shown panel. |
| ConfigureTarget.ConfigureTargetTask.ContinueExecution | tools/SetupFlow/DevHome.SetupFlow/Models/ConfigureTargetTask.cs:251-255 | The wait handle is set. |
| ConfigureTarget.ConfigureTargetTask.OnAdaptiveCardSessionChanged | tools/SetupFlow/DevHome.SetupFlow/Models/ConfigureTargetTask.cs:115-143 | The new state is SessionChangedStep of the old one, and the invariant is kept. |
| ConfigureTarget.ConfigureTargetTask.OnApplyConfigurationOperationProgress | tools/SetupFlow/DevHome.SetupFlow/Models/ConfigureTargetTask.cs:145-192 | The new state is ProgressStep of the old one, and the invariant is kept. |
| ConfigureTarget.ConfigureTargetTask.OnApplyConfigurationOperationCompleted | tools/SetupFlow/DevHome.SetupFlow/Models/ConfigureTargetTask.cs:194-246 | The new state is CompletedStep of the old one, and the invariant is kept. The wait handle is therefore always set (corrected at :242, see Findings). |
| ConfigureTarget.ConfigureTargetTask.AppendUnitResults | tools/SetupFlow/DevHome.SetupFlow/Models/ConfigureTargetTask.cs:224-227 | The `for` loop leaves the list as its old contents followed by the unit results. |
| ConfigureTarget.ConfigureTargetTask.Raise | tools/SetupFlow/DevHome.SetupFlow/Models/ConfigureTargetTask.cs:161-165 | An event has the effect of Deliver: a card session's event reaches the handler only while the handler is attached to that session. |
| ConfigureTarget.ConfigureTargetTask.Execute | tools/SetupFlow/DevHome.SetupFlow/Models/ConfigureTargetTask.cs:272-319 | The final state and answer are ExecuteSpec's. The counter resets, the target is announced, events are handled until the signal, the signal is consumed, and the recorded result is classified. With no signal there is no answer. |
| ConfigureTarget.ConfigureTargetTask.GetLoadingMessages | tools/SetupFlow/DevHome.SetupFlow/Models/ConfigureTargetTask.cs:323-334 | Gives the loading messages for the task's own target name, falling back to the localized name when that name is empty. |

## Left out

- Threads, `Task.Run`, the blocking `WaitOne` and the UI dispatcher queues are not modelled.
  - Events form a sequential trace, handled one at a time.
  - Execute's wait is the loop over that trace.
  - Dispatched work is applied at once, in queue order.
- ConfigureTargetTask.Execute: events that arrive after Execute has stopped waiting are not modelled, and neither are the handler subscriptions Execute removes then.
- ConfigureTargetTask.Execute: if the trace ends before the wait handle is set, it returns None. The real call would still be blocked.
- ConfigureTargetTask.Execute: exceptions outside the result checks are not modelled: a missing compute system, a failure to build the configuration file, and ApplyConfiguration throwing. The code answers all of them with Failure.
- ConfigureTargetTask.Execute: the only null result part modelled is a null Result; null OpenResult or ApplyResult objects are not.
- ConfigureTargetTask.OnApplyConfigurationOperationProgress: an exception inside the progress handler is not modelled. One example is CreateCorrectiveActionPanel failing, which the catch at :188 swallows after a partial update.
- ConfigureTargetTask.CreateCorrectiveActionPanel: card rendering, theming and SetupHostConfigFiles (app-package file reads) are not modelled. The panel is represented by the session it shows.
- The `AddMessage` and `UpdateActionCenterMessage` events are assumed to have a subscriber. With none, raising them would throw.
- GetErrorMessages, GetRebootMessage, ExecuteAsAdmin (not implemented in the code) and Dispose are not modelled. They only build fixed messages or release the handle.
- The SDK wrapper classes (SDKApplyConfigurationResult, SDKConfigurationSetChangeWrapper and the open and apply results) are not part of this model. The completion payload carries the properties the task reads from them. It is None when building them throws.
- The progress payload likewise carries the change wrapper's error text, or None when there is no error.
- Logging, telemetry and localization are not modelled. Messages are resource keys with arguments.
- Null strings, lists and entries are not modelled: every string, list and status entry is a value, never null.
  - ConfigureTarget.BeginExecute: a null `computeSystem.Name` (ConfigureTargetTask.cs:280) is not modelled. The loading messages at :326 would treat it like the empty name.
  - ComputeSystemCreation.FormatUiMessage: a null status is not modelled. Interpolation would print it as the empty string (CreateComputeSystemOperationViewModel.cs:64 and :124).
  - DevDriveOptimize.OptimizeDevDriveDialogViewModel.ChosenDirectoryInDevDrive: a null `ExistingDevDriveLetters` is not modelled. The `foreach` at OptimizeDevDriveDialogViewModel.cs:150 would throw.
  - GitStatus.GitRepositoryStatus.Add: a null entry is not modelled. The dictionary insert at GitRepositoryStatus.cs:44 would succeed and the flag test at :47 would then throw, leaving the path recorded in no bucket.
- GitRepositoryStatus.Add: the ArgumentException for a duplicate path is modelled as `ok == false` with nothing changed.
- The Git accessors return the internal lists, so callers could mutate them. This aliasing is not modelled: accessors return values.
- LibGit2Sharp is not modelled. A FileStatus is a set of flags, and `HasFlag` of a one-flag value is membership.
- GPOHelper: access errors from `Registry.GetValue` (for example a security exception) are not modelled. The registry is an input.
- FoldCase: ordinal ignore-case comparison is modelled for ASCII letters only. Other letters are compared exactly.
- OptimizeDevDriveDialogViewModel: the recursive MoveDirectory, Environment.SetEnvironmentVariable and the folder picker are file-system, OS and UI effects.
  - They are recorded as effects.
  - The move's status code and the picked folder are inputs.
  - The move's own behaviour on partly failed subdirectory moves is outside this model.
- CreateComputeSystemOperationViewModel:
  - images, provider display names and the dot-button operations are UI-only and not modelled;
  - the `ComputeSystem` wrapper object is represented by the identity it wraps.
- HyperVProvider.cs, SettingsProvider2.cs, DscHelpers.cs and IHostResponse.cs are not part of this model. They hold delegation, constants or declarations only.
- The agent-side request and response channel exercised by DevSetupAgentIntegrationTest.cs is not part of this model. It depends on the registry and wall-clock timing.

## Findings

| source | as written | input that shows it | evidently intended | confidence | as-written member | corrected member |
|---|---|---|---|---|---|---|
| tools/SetupFlow/DevHome.SetupFlow/Models/ConfigureTargetTask.cs:89 | `ConfigurationResults` is never assigned. The `Add` at :226 throws NullReferenceException, which the catch at :236 swallows, so no unit result ever reaches the summary page. | A completion with the open and apply both succeeded and one unit result. | The list starts empty, and every unit result is appended in order. | not executed; high (no assignment exists in the file) | ConfigureTarget.UnitResultsLostAsWritten | ConfigureTarget.CompletedCollectsUnitResults |
| tools/SetupFlow/DevHome.SetupFlow/Models/ConfigureTargetTask.cs:242 | If building `Result` at :205 throws, `Result` stays null. :242 then dereferences it outside the try, so `ContinueExecution` at :245 is never reached and Execute waits forever. | A first completion whose result wrapper cannot be built. | A "stopped" message with Error severity, the wait released, and Execute returning Failure. | not executed; medium (depends on when the wrapper constructors throw) | ConfigureTarget.CompletedWithoutResultHangsAsWritten | ConfigureTarget.CompletedEventUnblocks |
