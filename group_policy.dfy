/**
 * Group-policy switches of Dev Home (common/Helpers/GPOHelper.cs).
 *
 * Each policy is a value under the machine policy key. A stored value is read as
 * a tri-state (Enabled, Disabled, or one of the negative "not usable" codes), and
 * a negative code falls back to the caller's default. The registry is an input:
 * either the policy key is missing, or it holds a map from value name to value.
 */
module GroupPolicy {
  import opened Wrappers

  /** The range of a REG_DWORD value as the registry API returns it (a signed int). */
  type Int32 = x: int | -0x8000_0000 <= x < 0x8000_0000

  // GpoRuleConfigured
  const WrongValue: Int32 := -3
  const Unavailable: Int32 := -2
  const NotConfigured: Int32 := -1
  const Disabled: Int32 := 0
  const Enabled: Int32 := 1

  // Registry value names
  const PolicyConfigureEnabledDevHome := "ConfigureEnabledDevHome"
  const PolicyConfigureEnabledMachineConfiguration := "ConfigureEnabledMachineConfiguration"
  const PolicyConfigureEnabledEnvironments := "ConfigureEnabledEnvironments"
  const PolicyConfigureEnabledExperimentalFeatures := "ConfigureEnabledExperimentalFeatures"
  const PolicyConfigureHiddenDevHome := "ConfigureHiddenDevHome"

  /** A stored registry value: a DWORD, which unboxes to the enum, or any other kind. */
  datatype RegistryValue = DWord(dword: Int32) | NonDWord

  /** The policy key `HKEY_LOCAL_MACHINE\SOFTWARE\Policies\DevHome`. */
  datatype PolicyKey = KeyMissing | KeyPresent(values: map<string, RegistryValue>)

  /** The cast of a non-DWORD object to the enum throws. */
  datatype GpoError = InvalidCast

  /** What is stored under a value name, if anything. */
  function Stored(key: PolicyKey, valueName: string): Option<RegistryValue>
  {
    match key
    case KeyMissing => None
    case KeyPresent(values) => if valueName in values then Some(values[valueName]) else None
  }

  /**
   * Registry.GetValue gives null for a missing key and the supplied default
   * (NotConfigured) for a missing value; null is then replaced by NotConfigured,
   * and the object is unboxed to the enum.
   */
  function GetConfiguredValue(key: PolicyKey, valueName: string): (r: Result<Int32, GpoError>)
    ensures Stored(key, valueName).None? ==> r == Ok(NotConfigured)
    ensures Stored(key, valueName) == Some(NonDWord) <==> r.Err?
    ensures r.Ok? && Stored(key, valueName).Some? ==> Stored(key, valueName) == Some(DWord(r.value))
  {
    match key
    case KeyMissing => Ok(NotConfigured)
    case KeyPresent(values) =>
      if valueName !in values then Ok(NotConfigured)
      else match values[valueName]
        case DWord(v) => Ok(v)
        case NonDWord => Err(InvalidCast)
  }

  /** Any negative code is replaced by the default; the policy holds iff the result is Enabled. */
  function EvaluateConfiguredValue(key: PolicyKey, valueName: string, defaultValue: Int32): (r: Result<bool, GpoError>)
    ensures Stored(key, valueName).None? ==> r == Ok(defaultValue == Enabled)
    ensures forall v: Int32 :: Stored(key, valueName) == Some(DWord(v)) ==>
              r == Ok(if v < 0 then defaultValue == Enabled else v == Enabled)
    ensures Stored(key, valueName) == Some(NonDWord) ==> r == Err(InvalidCast)
  {
    match GetConfiguredValue(key, valueName)
    case Err(e) => Err(e)
    case Ok(configured) =>
      var effective := if configured < 0 then defaultValue else configured;
      Ok(effective == Enabled)
  }

  function GetConfiguredEnabledDevHomeValue(key: PolicyKey): (r: Result<bool, GpoError>)
    ensures Stored(key, PolicyConfigureEnabledDevHome).None? ==> r == Ok(true)
    ensures r == EvaluateConfiguredValue(key, PolicyConfigureEnabledDevHome, Enabled)
  {
    EvaluateConfiguredValue(key, PolicyConfigureEnabledDevHome, Enabled)
  }

  /** The machine-configuration policy is switched off in code: the store is never read. */
  function GetConfiguredEnabledMachineConfigurationValue(key: PolicyKey): (r: bool)
    ensures !r
  {
    false
  }

  function GetConfiguredEnabledEnvironmentsValue(key: PolicyKey): (r: Result<bool, GpoError>)
    ensures Stored(key, PolicyConfigureEnabledEnvironments).None? ==> r == Ok(true)
    ensures r == EvaluateConfiguredValue(key, PolicyConfigureEnabledEnvironments, Enabled)
  {
    EvaluateConfiguredValue(key, PolicyConfigureEnabledEnvironments, Enabled)
  }

  function GetConfiguredEnabledExperimentalFeaturesValue(key: PolicyKey): (r: Result<bool, GpoError>)
    ensures Stored(key, PolicyConfigureEnabledExperimentalFeatures).None? ==> r == Ok(true)
    ensures r == EvaluateConfiguredValue(key, PolicyConfigureEnabledExperimentalFeatures, Enabled)
  {
    EvaluateConfiguredValue(key, PolicyConfigureEnabledExperimentalFeatures, Enabled)
  }

  function GetConfiguredHiddenDevHomeValue(key: PolicyKey): (r: Result<bool, GpoError>)
    ensures Stored(key, PolicyConfigureHiddenDevHome).None? ==> r == Ok(false)
    ensures r == EvaluateConfiguredValue(key, PolicyConfigureHiddenDevHome, Disabled)
  {
    EvaluateConfiguredValue(key, PolicyConfigureHiddenDevHome, Disabled)
  }

  /** The policy holds exactly when the stored DWORD is 1, or when nothing usable is stored and the default is Enabled. */
  lemma EnabledIffEffectiveValueIsOne(key: PolicyKey, valueName: string, defaultValue: Int32)
    requires Stored(key, valueName) != Some(NonDWord)
    ensures EvaluateConfiguredValue(key, valueName, defaultValue) == Ok(true) <==>
              (Stored(key, valueName) == Some(DWord(Enabled))
               || (defaultValue == Enabled && (Stored(key, valueName).None? || Stored(key, valueName).value.dword < 0)))
  {
  }

  /** A negative code (WrongValue, Unavailable, NotConfigured) reads exactly like an absent value. */
  lemma NegativeCodeMeansDefault(values: map<string, RegistryValue>, valueName: string, code: Int32, defaultValue: Int32)
    requires code < 0
    ensures EvaluateConfiguredValue(KeyPresent(values[valueName := DWord(code)]), valueName, defaultValue)
         == EvaluateConfiguredValue(KeyMissing, valueName, defaultValue)
  {
  }

  /** With a DWORD stored, the default is irrelevant unless the value is negative; any value other than 1 is false. */
  lemma NonNegativeOtherThanOneIsFalse(values: map<string, RegistryValue>, valueName: string, v: Int32, d1: Int32, d2: Int32)
    requires v >= 0 && v != Enabled
    ensures EvaluateConfiguredValue(KeyPresent(values[valueName := DWord(v)]), valueName, d1) == Ok(false)
    ensures EvaluateConfiguredValue(KeyPresent(values[valueName := DWord(v)]), valueName, d1)
         == EvaluateConfiguredValue(KeyPresent(values[valueName := DWord(v)]), valueName, d2)
  {
  }
}
