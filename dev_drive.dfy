/**
 * The dialog that moves a package cache onto a Dev Drive
 * (tools/Customization/DevHome.Customization/ViewModels/DevDriveInsights/OptimizeDevDriveDialogViewModel.cs).
 *
 * The user types or picks a directory; on confirmation the directory must lie on
 * one of the known Dev Drive letters. Only then is the existing cache moved there,
 * and only when the move reports 0 is the user environment variable pointed at it.
 * The move and the variable write are recorded as effects; the status code the
 * move returns is an input.
 */
module DevDriveOptimize {
  import opened Wrappers

  /** Ordinal case folding (ASCII letters). */
  function FoldCase(c: char): (u: char)
    ensures 'a' <= c <= 'z' ==> u == (c as int - 32) as char
    ensures !('a' <= c <= 'z') ==> u == c
  {
    if 'a' <= c <= 'z' then (c as int - 32) as char else c
  }

  /** `s.StartsWith(prefix, StringComparison.OrdinalIgnoreCase)` */
  predicate StartsWithIgnoreCase(s: string, prefix: string)
  {
    |prefix| <= |s| && forall i :: 0 <= i < |prefix| ==> FoldCase(s[i]) == FoldCase(prefix[i])
  }

  /** The path starts with `L:` for some Dev Drive letter L, ignoring case. */
  predicate OnDevDrive(directoryPath: string, driveLetters: seq<string>)
  {
    exists i :: 0 <= i < |driveLetters| && StartsWithIgnoreCase(directoryPath, driveLetters[i] + ":")
  }

  datatype Effect =
    | MoveDirectory(sourceDirectory: string, targetDirectory: string)
    | SetEnvironmentVariable(variableName: string, value: string)

  /** The effects one confirmation has, given the status the move returns. */
  function ConfirmEffects(directoryPath: Option<string>, driveLetters: seq<string>,
                          existingCacheLocation: string, environmentVariableToBeSet: string,
                          moveStatus: int): seq<Effect>
  {
    if directoryPath.None? || directoryPath.value == "" then []
    else if !OnDevDrive(directoryPath.value, driveLetters) then []
    else if moveStatus == 0 then
      [MoveDirectory(existingCacheLocation, directoryPath.value),
       SetEnvironmentVariable(environmentVariableToBeSet, directoryPath.value)]
    else [MoveDirectory(existingCacheLocation, directoryPath.value)]
  }

  /** A cache move is attempted exactly for a non-empty path on a Dev Drive, and always from the existing cache to that path. */
  lemma MoveIffNonEmptyOnDevDrive(directoryPath: Option<string>, driveLetters: seq<string>,
                                  cache: string, variable: string, moveStatus: int)
    ensures var effects := ConfirmEffects(directoryPath, driveLetters, cache, variable, moveStatus);
            && (effects != [] <==> directoryPath.Some? && directoryPath.value != "" && OnDevDrive(directoryPath.value, driveLetters))
            && (effects != [] ==> effects[0] == MoveDirectory(cache, directoryPath.value))
  {
  }

  /** The variable is written, with the chosen path, exactly when a move was attempted and returned 0; it is never written first. */
  lemma VariableSetOnlyAfterSuccessfulMove(directoryPath: Option<string>, driveLetters: seq<string>,
                                           cache: string, variable: string, moveStatus: int)
    ensures var effects := ConfirmEffects(directoryPath, driveLetters, cache, variable, moveStatus);
            && (SetEnvironmentVariable(variable, directoryPath.GetOr("")) in effects <==> |effects| == 2)
            && (|effects| == 2 <==> effects != [] && moveStatus == 0)
            && (|effects| == 2 ==> effects[1] == SetEnvironmentVariable(variable, directoryPath.value))
            && (forall e :: e in effects && e.SetEnvironmentVariable? ==> |effects| == 2 && e == effects[1])
  {
  }

  /** No Dev Drive letters: no path is on a Dev Drive, so confirming never has an effect. */
  lemma NoDevDrivesNoEffects(directoryPath: Option<string>, cache: string, variable: string, moveStatus: int)
    ensures ConfirmEffects(directoryPath, [], cache, variable, moveStatus) == []
  {
  }

  /** The letter's case does not matter: "d" and "D" accept the same paths. */
  lemma LetterCaseIrrelevant(directoryPath: string, letters: seq<string>, letters': seq<string>)
    requires |letters| == |letters'|
    requires forall i :: 0 <= i < |letters| ==> |letters[i]| == |letters'[i]|
    requires forall i, j :: 0 <= i < |letters| && 0 <= j < |letters[i]| ==> FoldCase(letters[i][j]) == FoldCase(letters'[i][j])
    ensures OnDevDrive(directoryPath, letters) <==> OnDevDrive(directoryPath, letters')
  {
  }

  class OptimizeDevDriveDialogViewModel {
    var existingDevDriveLetters: seq<string>
    var existingCacheLocation: string
    var environmentVariableToBeSet: string
    /** The text box's content; None when the binding passes null. */
    var directoryPathTextBox: Option<string>
    /** File-system and environment effects performed so far, in order. */
    var effects: seq<Effect>

    constructor(existingCacheLocation: string, environmentVariableToBeSet: string, existingDevDriveLetters: seq<string>)
      ensures directoryPathTextBox == Some("")
      ensures this.existingDevDriveLetters == existingDevDriveLetters
      ensures this.existingCacheLocation == existingCacheLocation
      ensures this.environmentVariableToBeSet == environmentVariableToBeSet
      ensures effects == []
    {
      directoryPathTextBox := Some("");
      this.existingDevDriveLetters := existingDevDriveLetters;
      this.existingCacheLocation := existingCacheLocation;
      this.environmentVariableToBeSet := environmentVariableToBeSet;
      effects := [];
    }

    method DirectoryPathChanged(text: Option<string>)
      modifies this`directoryPathTextBox
      ensures directoryPathTextBox == text
    {
      directoryPathTextBox := text;
    }

    /** The folder picker's answer is an input: None when the user cancels. */
    method BrowseButtonClick(pickedFolder: Option<string>)
      modifies this`directoryPathTextBox
      ensures pickedFolder.Some? ==> directoryPathTextBox == pickedFolder
      ensures pickedFolder.None? ==> directoryPathTextBox == old(directoryPathTextBox)
    {
      if pickedFolder.Some? {
        directoryPathTextBox := pickedFolder;
      }
    }

    /** Searches the letters in order and stops at the first that prefixes the path. */
    method ChosenDirectoryInDevDrive(directoryPath: string) returns (found: bool)
      ensures found <==> OnDevDrive(directoryPath, existingDevDriveLetters)
    {
      var i := 0;
      while i < |existingDevDriveLetters|
        invariant 0 <= i <= |existingDevDriveLetters|
        invariant forall j :: 0 <= j < i ==> !StartsWithIgnoreCase(directoryPath, existingDevDriveLetters[j] + ":")
      {
        if StartsWithIgnoreCase(directoryPath, existingDevDriveLetters[i] + ":") {
          return true;
        }
        i := i + 1;
      }
      return false;
    }

    /** `moveStatus` is what MoveDirectory returns if it is called (0 or the failure's HResult). */
    method DirectoryInputConfirmed(moveStatus: int)
      modifies this`effects
      ensures effects == old(effects) + ConfirmEffects(directoryPathTextBox, existingDevDriveLetters,
                                                       existingCacheLocation, environmentVariableToBeSet, moveStatus)
    {
      var directoryPath := directoryPathTextBox;
      if directoryPath.Some? && directoryPath.value != "" {
        var onDevDrive := ChosenDirectoryInDevDrive(directoryPath.value);
        if onDevDrive {
          effects := effects + [MoveDirectory(existingCacheLocation, directoryPath.value)];
          if moveStatus == 0 {
            effects := effects + [SetEnvironmentVariable(environmentVariableToBeSet, directoryPath.value)];
          }
        }
      }
    }
  }
}
