/** Option and Result, used for the source's std::optional values and for its one thrown exception. */
module Wrappers {

  datatype Option<+T> = None | Some(value: T)

  datatype Result<+T, +E> = Success(value: T) | Failure(error: E)
}

/** Facts about sequences that the proofs about the store and the texts share. */
module Sequences {

  lemma ConcatAssociates<T>(a: seq<T>, b: seq<T>, c: seq<T>)
    ensures (a + b) + c == a + (b + c)
  {
  }
}

/**
  The data of the OCPP 2.0.1 smart-charging handler: the constants and the validation
  result enumeration declared in include/ocpp/v201/smart_charging.hpp, and the parts of the
  OCPP 2.0.1 message types (ChargingProfile, ChargingSchedule, ChargingSchedulePeriod,
  CompositeSchedule) and of the EVSE interface that the handler reads.
 */
module SmartChargingTypes {
  import opened Wrappers

  /** The values of a C++ int32_t. */
  type int32 = x: int | -0x8000_0000 <= x < 0x8000_0000

  const INT32_MAX: int32 := 0x7fff_ffff

  /** The value filled in for a missing numberPhases on an AC EVSE, and the largest one accepted there. */
  const DEFAULT_AND_MAX_NUMBER_PHASES: int := 3
  const HOURS_PER_DAY: int := 24
  const SECONDS_PER_HOUR: int := 3600
  const SECONDS_PER_DAY: int := 86400
  const DAYS_PER_WEEK: int := 7

  /** The time constants agree with one another: a day is 24 hours and a week 604800 seconds. */
  lemma TimeConstantsAgree()
    ensures SECONDS_PER_DAY == HOURS_PER_DAY * SECONDS_PER_HOUR
    ensures DAYS_PER_WEEK * SECONDS_PER_DAY == 604800
  {
  }

  /**
    An instant is a count of ticks since the epoch; a tick is one millisecond, finer than a
    second, so that flooring and truncating to whole seconds are visible in the model.
   */
  type Instant = int

  const TICKS_PER_SECOND: int := 1000

  datatype ChargingProfilePurpose =
    | ChargingStationExternalConstraints
    | ChargingStationMaxProfile
    | TxDefaultProfile
    | TxProfile

  datatype ChargingProfileKind = Absolute | Recurring | Relative

  datatype RecurrencyKind = Daily | Weekly

  datatype ChargingRateUnit = W | A

  datatype CurrentPhaseType = AC | DC

  /** One period of a schedule; the numeric `limit` is not part of this model. */
  datatype ChargingSchedulePeriod = ChargingSchedulePeriod(
    startPeriod: int,
    numberPhases: Option<int>,
    phaseToUse: Option<int>)

  /** A schedule; `minChargingRate` and the sales tariff are not part of this model. */
  datatype ChargingSchedule = ChargingSchedule(
    id: int,
    chargingRateUnit: ChargingRateUnit,
    chargingSchedulePeriod: seq<ChargingSchedulePeriod>,
    startSchedule: Option<Instant>,
    duration: Option<int>)

  datatype ChargingProfile = ChargingProfile(
    id: int,
    stackLevel: int,
    chargingProfilePurpose: ChargingProfilePurpose,
    chargingProfileKind: ChargingProfileKind,
    chargingSchedule: seq<ChargingSchedule>,
    recurrencyKind: Option<RecurrencyKind>,
    validFrom: Option<Instant>,
    validTo: Option<Instant>,
    transactionId: Option<string>)

  /**
    What the handler reads of an EVSE: its id, its current phase type, and the id of its
    active transaction when it has one.
   */
  datatype Evse = Evse(id: int, currentPhaseType: CurrentPhaseType, activeTransactionId: Option<string>)

  /** The closed set of validation outcomes; `Valid` is the only one that accepts. */
  datatype ProfileValidationResult =
    | Valid
    | EvseDoesNotExist
    | TxProfileMissingTransactionId
    | TxProfileEvseIdNotGreaterThanZero
    | TxProfileTransactionNotOnEvse
    | TxProfileEvseHasNoActiveTransaction
    | TxProfileConflictingStackLevel
    | ChargingProfileNoChargingSchedulePeriods
    | ChargingProfileFirstStartScheduleIsNotZero
    | ChargingProfileMissingRequiredStartSchedule
    | ChargingProfileExtraneousStartSchedule
    | ChargingSchedulePeriodsOutOfOrder
    | ChargingSchedulePeriodInvalidPhaseToUse
    | ChargingSchedulePeriodUnsupportedNumberPhases
    | ChargingSchedulePeriodExtraneousPhaseValues
    | DuplicateTxDefaultProfileFound

  /** The lowest limit and the stack level it came from, per purpose. */
  datatype LimitStackLevelPair = LimitStackLevelPair(limit: int, stackLevel: int)

  datatype CompositeSchedule = CompositeSchedule(
    evseId: int,
    duration: int32,
    scheduleStart: Instant,
    chargingRateUnit: ChargingRateUnit,
    chargingSchedulePeriod: seq<ChargingSchedulePeriod>)
}
