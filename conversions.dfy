/**
  The human-readable names of the validation outcomes: each outcome is named by its own
  identifier. The enumeration is closed, so the name is defined for every outcome and the
  out-of-range error after the switch cannot be reached.
 */
module Conversions {
  import opened Wrappers
  import opened SmartChargingTypes

  /**
    profile_validation_result_to_string: each outcome's own identifier. The name is never empty
    and its length and last letter already single out the outcome.
   */
  function ProfileValidationResultToString(e: ProfileValidationResult): (s: string)
    ensures |s| > 0
    ensures OutcomeWithFingerprint(Fingerprint(s)) == Some(e)
  {
    match e
    case Valid => "Valid"
    case EvseDoesNotExist => "EvseDoesNotExist"
    case TxProfileMissingTransactionId => "TxProfileMissingTransactionId"
    case TxProfileEvseIdNotGreaterThanZero => "TxProfileEvseIdNotGreaterThanZero"
    case TxProfileTransactionNotOnEvse => "TxProfileTransactionNotOnEvse"
    case TxProfileEvseHasNoActiveTransaction => "TxProfileEvseHasNoActiveTransaction"
    case TxProfileConflictingStackLevel => "TxProfileConflictingStackLevel"
    case ChargingProfileNoChargingSchedulePeriods => "ChargingProfileNoChargingSchedulePeriods"
    case ChargingProfileFirstStartScheduleIsNotZero => "ChargingProfileFirstStartScheduleIsNotZero"
    case ChargingProfileMissingRequiredStartSchedule => "ChargingProfileMissingRequiredStartSchedule"
    case ChargingProfileExtraneousStartSchedule => "ChargingProfileExtraneousStartSchedule"
    case ChargingSchedulePeriodsOutOfOrder => "ChargingSchedulePeriodsOutOfOrder"
    case ChargingSchedulePeriodInvalidPhaseToUse => "ChargingSchedulePeriodInvalidPhaseToUse"
    case ChargingSchedulePeriodUnsupportedNumberPhases => "ChargingSchedulePeriodUnsupportedNumberPhases"
    case ChargingSchedulePeriodExtraneousPhaseValues => "ChargingSchedulePeriodExtraneousPhaseValues"
    case DuplicateTxDefaultProfileFound => "DuplicateTxDefaultProfileFound"
  }

  /**
    Two facts about a name that already tell the outcomes apart: its length and its last
    letter (a blank for the empty string).
   */
  function Fingerprint(s: string): (int, char)
  {
    (|s|, if |s| > 0 then s[|s| - 1] else ' ')
  }

  /** The outcome whose name has the given fingerprint, if any. */
  function OutcomeWithFingerprint(f: (int, char)): (e: Option<ProfileValidationResult>)
  {
    if f == (5, 'd') then Some(Valid)
    else if f == (16, 't') then Some(EvseDoesNotExist)
    else if f == (29, 'd') then Some(TxProfileMissingTransactionId)
    else if f == (33, 'o') then Some(TxProfileEvseIdNotGreaterThanZero)
    else if f == (29, 'e') then Some(TxProfileTransactionNotOnEvse)
    else if f == (35, 'n') then Some(TxProfileEvseHasNoActiveTransaction)
    else if f == (30, 'l') then Some(TxProfileConflictingStackLevel)
    else if f == (40, 's') then Some(ChargingProfileNoChargingSchedulePeriods)
    else if f == (42, 'o') then Some(ChargingProfileFirstStartScheduleIsNotZero)
    else if f == (43, 'e') then Some(ChargingProfileMissingRequiredStartSchedule)
    else if f == (38, 'e') then Some(ChargingProfileExtraneousStartSchedule)
    else if f == (33, 'r') then Some(ChargingSchedulePeriodsOutOfOrder)
    else if f == (39, 'e') then Some(ChargingSchedulePeriodInvalidPhaseToUse)
    else if f == (45, 's') then Some(ChargingSchedulePeriodUnsupportedNumberPhases)
    else if f == (43, 's') then Some(ChargingSchedulePeriodExtraneousPhaseValues)
    else if f == (30, 'd') then Some(DuplicateTxDefaultProfileFound)
    else None
  }

  /** Reads an outcome back from its name; the partner of ProfileValidationResultToString. */
  function ProfileValidationResultFromString(s: string): (e: Option<ProfileValidationResult>)
    ensures e.Some? ==> ProfileValidationResultToString(e.value) == s
  {
    var candidate := OutcomeWithFingerprint(Fingerprint(s));
    if candidate.Some? && ProfileValidationResultToString(candidate.value) == s then candidate else None
  }

  /** Every outcome's name reads back as that outcome. */
  lemma NameRoundTrip(e: ProfileValidationResult)
    ensures ProfileValidationResultFromString(ProfileValidationResultToString(e)) == Some(e)
  {
  }

  /** Distinct outcomes have distinct names, so the conversion is injective. */
  lemma NamesAreDistinct(e1: ProfileValidationResult, e2: ProfileValidationResult)
    requires ProfileValidationResultToString(e1) == ProfileValidationResultToString(e2)
    ensures e1 == e2
  {
    NameRoundTrip(e1);
    NameRoundTrip(e2);
  }
}
