# Smart charging handler of libocpp (OCPP 2.0.1), modelled in Dafny

This project models the core of `ocpp::v201::SmartChargingHandler`. That is the part of the
OCPP 2.0.1 charging-station library that receives charging profiles (use case K01,
SetChargingProfile) and calculates composite schedules (use case K08). The model covers:

- **Validators.** These check that an EVSE exists and check TxDefaultProfile and TxProfile
  profiles against the stored ones. They also check the schedules of a profile:
  - every schedule has periods;
  - the first period starts at 0 and start offsets strictly increase;
  - phaseToUse is only given together with numberPhases = 1;
  - a DC EVSE takes no phase values, and an AC EVSE takes at most 3 phases;
  - startSchedule is present exactly when the profile is not Relative.

  On an AC EVSE the schedule check also fills in numberPhases = 3 in place wherever it is
  missing.
- **Profile store.** It keeps one profile list per EVSE id, plus a separate station-wide
  list for EVSE id 0. It can append a profile and list the TxDefaultProfiles of either scope.
- **Composite-schedule skeleton.** It computes the duration of a window in whole seconds
  (truncated, narrowed to `int32_t`) and whether the window is open. It builds the result
  header and makes a single pass over the profiles that looks up each purpose's initial
  limits. This pass fails for `ChargingStationExternalConstraints`, which has no entry.
- **Profile start time.** For an Absolute profile it is the last startSchedule present,
  floored to the second.
- **Outcome names.** The human-readable name of every validation outcome.
- **Duration text.** The text the composite-schedule tests log for a duration, such as
  "1 Day 2 Hours 5 Seconds ".

Each module is proved against its own specification:

- Each imperative operation is a method whose loops are proved equal to a pure specification
  function. The methods are the schedule validation, the getters, the duplicate check, the
  start-time search, the composite pass and the duration formatter.
- The profile store is a class whose `add_profile` states its whole new state.
- Lemmas give the declarative meaning of what the code promises:
  - a profile is accepted exactly when its schedules are well formed;
  - every rejection names a violation that is really present;
  - validating twice changes nothing;
  - only missing numberPhases are ever changed;
  - adding a profile adds exactly that profile to the store;
  - every outcome name reads back as its outcome;
  - the digits of the duration text denote the counts.

Time is a count of ticks since the epoch, 1000 ticks to the second. This stands for the
platform clock's own unit, which is finer than a second. Because a tick is finer than a second,
the model shows the difference between truncating a duration and flooring an instant.

Files:

- `types.dfy`: `Wrappers`, `Sequences`, and `SmartChargingTypes` with the header's
  constants and the message types.
- `conversions.dfy`: `Conversions`.
- `schedule_validation.dfy`: `ScheduleValidation`.
- `profile_store.dfy`: `ProfileStore`.
- `composite_schedule.dfy`: `CompositeScheduling`.
- `duration_log.dfy`: `DurationLog`.

## Model

| member | source | states |
|---|---|---|
| SmartChargingTypes.TimeConstantsAgree | include/ocpp/v201/smart_charging.hpp:17-21 | A day is HOURS_PER_DAY × SECONDS_PER_HOUR seconds, and DAYS_PER_WEEK days are 604800 seconds. |
| Conversions.ProfileValidationResultToString | lib/ocpp/v201/smart_charging.cpp:19-56 | Every outcome has a non-empty name, and the name's length and last letter single out that outcome. |
| Conversions.NameRoundTrip | lib/ocpp/v201/smart_charging.cpp:19-56 | Every one of the 16 outcomes has a name, and reading that name back gives the outcome. So the out-of-range throw after the switch is unreachable. |
| Conversions.NamesAreDistinct | lib/ocpp/v201/smart_charging.cpp:19-56 | Two outcomes with the same name are the same outcome: the conversion is injective. |
| Conversions.ProfileValidationResultFromString | include/ocpp/v201/smart_charging.hpp:23-45 | The inverse reading of a name: whatever it returns names the string it was given. |
| ScheduleValidation.FirstFaultyPeriod | lib/ocpp/v201/smart_charging.cpp:137-180 | The period loop stops at the first period that fails a check. Every earlier period passes, and the stopping index fails unless the list ran out. |
| ScheduleValidation.FirstFaultySchedule | lib/ocpp/v201/smart_charging.cpp:131-190 | The schedule loop stops at the first schedule that fails. Every earlier schedule passes, and the stopping one fails unless the list ran out. |
| ScheduleValidation.CheckPeriod | lib/ocpp/v201/smart_charging.cpp:138-178 | One period's checks run in source order: K01.FR.19, 31, 35, 44, 45. The result is the first failing check. A passing period on AC gets numberPhases 3 (K01.FR.49), and a failing one leaves the profile as it was. |
| ScheduleValidation.ValidateProfileSchedules | lib/ocpp/v201/smart_charging.cpp:128-193 | The verdict is the first failing check over all schedules, or Valid. The returned profile is exactly the input with every visited period defaulted. The EVSE argument defaults to none, as in the header's declaration. |
| ScheduleValidation.NoFaultyPeriodIff | lib/ocpp/v201/smart_charging.cpp:137-180 | The period loop runs to the end if and only if the periods are well formed. Well formed means: first start 0, strictly increasing starts, phaseToUse only with 1 phase, the DC and AC phase rules. |
| ScheduleValidation.ScheduleFaultNoneIff | lib/ocpp/v201/smart_charging.cpp:131-189 | A schedule passes if and only if it has periods, they are well formed, and startSchedule is present exactly when the kind is not Relative. |
| ScheduleValidation.ValidIffWellFormed | lib/ocpp/v201/smart_charging.cpp:128-193 | The verdict is Valid if and only if every schedule of the profile is well formed. |
| ScheduleValidation.RejectionIsExplained | lib/ocpp/v201/smart_charging.cpp:131-190 | A rejection names a violation that a schedule of the profile really shows, and every schedule before that one is well formed. |
| ScheduleValidation.ExhibitedViolationIsIllFormed | lib/ocpp/v201/smart_charging.cpp:139-189 | A schedule that shows the violation an outcome names is not well formed, so no outcome is raised against a well-formed schedule. |
| ScheduleValidation.StartPeriodsIncrease | lib/ocpp/v201/smart_charging.cpp:149-155 | In accepted periods, any earlier period starts strictly before any later one, not only neighbours. |
| ScheduleValidation.StartPeriodsNonNegative | lib/ocpp/v201/smart_charging.cpp:144-155 | In accepted periods every start offset is at least 0. |
| ScheduleValidation.OnlyNumberPhasesChange | lib/ocpp/v201/smart_charging.cpp:157-178 | Validation changes nothing but numberPhases. It fills in a missing value with 3, never overwrites a present one, and keeps every schedule, period count and other field. |
| ScheduleValidation.UnchangedUnlessAc | lib/ocpp/v201/smart_charging.cpp:157-178 | Without an EVSE, or with a DC EVSE, the profile comes back unchanged. |
| ScheduleValidation.AcceptedAcProfileHasAllPhases | lib/ocpp/v201/smart_charging.cpp:167-178 | After an AC profile is accepted, every period has numberPhases present and at most 3. |
| ScheduleValidation.RevalidationIsStable | lib/ocpp/v201/smart_charging.cpp:128-193 | Validating the updated profile again gives the same verdict and changes nothing further. |
| ProfileStore.TxDefaultsMembership | lib/ocpp/v201/smart_charging.cpp:216-225 | A profile is in the filtered list exactly when it is in the original list and its purpose is TxDefaultProfile. |
| ProfileStore.InKeyOrderMembership | lib/ocpp/v201/smart_charging.cpp:206-211 | Walking the per-EVSE map in ascending key order meets exactly the profiles stored under some key. |
| ProfileStore.AppendAddsOne | lib/ocpp/v201/smart_charging.cpp:198-199 | Appending to the list under any key, created if missing, adds exactly that one profile to the map's contents, as a multiset. |
| ProfileStore.SmartChargingHandler.constructor | lib/ocpp/v201/smart_charging.cpp:66-67 | A new handler knows the given EVSEs and stores no profiles. |
| ProfileStore.SmartChargingHandler.ValidateEvseExists | lib/ocpp/v201/smart_charging.cpp:69-72 | The result is Valid if and only if the id is a known EVSE; otherwise it is EvseDoesNotExist. |
| ProfileStore.SmartChargingHandler.GetEvseSpecificTxDefaultProfiles | lib/ocpp/v201/smart_charging.cpp:203-214 | The result is the TxDefaultProfiles of all EVSEs, in ascending EVSE id order and in stored order within each EVSE. |
| ProfileStore.SmartChargingHandler.GetStationWideTxDefaultProfiles | lib/ocpp/v201/smart_charging.cpp:216-225 | The result is the station-wide TxDefaultProfiles, in stored order. |
| ProfileStore.SmartChargingHandler.ValidateTxDefaultProfile | lib/ocpp/v201/smart_charging.cpp:74-86 | A profile for EVSE 0 is a duplicate if and only if some EVSE holds a TxDefaultProfile with its stack level and another id. A profile for any other EVSE is a duplicate if and only if the station-wide list holds such a profile. |
| ProfileStore.SmartChargingHandler.ValidateTxProfile | lib/ocpp/v201/smart_charging.cpp:88-120 | The result is Valid if and only if: a transaction id is present, the EVSE id is positive, the EVSE's active transaction is the profile's, and no per-EVSE profile has the same transaction and stack level. Each refusal is returned if and only if every earlier check passed and its own check failed, in the source's order: transaction id, EVSE id, active transaction, matching transaction, stack-level conflict. |
| ProfileStore.SmartChargingHandler.ResentTxProfileConflicts | lib/ocpp/v201/smart_charging.cpp:108-117 | A TxProfile already stored for an EVSE is refused with TxProfileConflictingStackLevel when it is sent again for its running transaction. |
| ProfileStore.SmartChargingHandler.AddProfile | lib/ocpp/v201/smart_charging.cpp:195-201 | EVSE 0 appends to the station-wide list; any other id appends to that EVSE's list, which is created if missing. Nothing else changes, and the stored multiset grows by exactly the profile. |
| CompositeScheduling.SecondsTowardZero | lib/ocpp/v201/smart_charging.cpp:242 | The whole seconds in a tick count, rounded toward zero, bounded on both sides for either sign. |
| CompositeScheduling.WrapInt32 | lib/ocpp/v201/smart_charging.cpp:241-242 | Narrowing to int32_t keeps the value modulo 2^32, and it keeps the value itself when it fits. |
| CompositeScheduling.DetermineDuration | lib/ocpp/v201/smart_charging.cpp:241-243 | The duration is the truncated whole seconds from start to end when that fits an int32_t. Otherwise it is that count wrapped to 32 bits. |
| CompositeScheduling.ReversedWindowNegatesDuration | lib/ocpp/v201/smart_charging.cpp:241-243 | Swapping the ends of a window negates its duration. |
| CompositeScheduling.WithinTimeWindow | lib/ocpp/v201/smart_charging.cpp:245-247 | A window whose length in seconds fits an int32_t is open if and only if its end is at least one whole second after its start. |
| CompositeScheduling.InitializeEnhancedCompositeSchedule | lib/ocpp/v201/smart_charging.cpp:227-239 | The header carries the EVSE id, the start, the rate unit and the window's duration, and it has no periods. |
| CompositeScheduling.OnlyExternalConstraintsLacksLimits | lib/ocpp/v201/smart_charging.cpp:380-386 | Every purpose except ChargingStationExternalConstraints has an initial limit entry. |
| CompositeScheduling.InitialPurposeAndStackLimits | lib/ocpp/v201/smart_charging.cpp:380-386 | The three purposes each start at the largest int with stack level -1. |
| CompositeScheduling.CalculateCompositeSchedule | lib/ocpp/v201/smart_charging.cpp:257-296 | The calculation fails, with the out-of-range lookup, if and only if the window is open and some profile has the external-constraints purpose. Otherwise it returns the initialised header with no periods. |
| CompositeScheduling.FloorToSecond | lib/ocpp/v201/smart_charging.cpp:360 | The result is the whole second that contains the instant, also before the epoch. |
| CompositeScheduling.LastStartSchedule | lib/ocpp/v201/smart_charging.cpp:355-364 | The result is none exactly when no schedule has a startSchedule. Otherwise it is the startSchedule of a schedule after which none has one. |
| CompositeScheduling.GetProfileStartTime | lib/ocpp/v201/smart_charging.cpp:348-378 | An Absolute profile starts at its last startSchedule, floored to the second, or has no start if none is present. Relative and Recurring profiles have no start time. |
| DurationLog.DecimalString | tests/lib/ocpp/v201/test_composite_schedule.cpp:210 | std::to_string of a count is a non-empty string of decimal digits with no leading zero. |
| DurationLog.DecimalStringRoundTrip | tests/lib/ocpp/v201/test_composite_schedule.cpp:210-226 | The digits written for a count denote that count. |
| DurationLog.SplitDuration | tests/lib/ocpp/v201/test_composite_schedule.cpp:202-227 | The days, hours, minutes and seconds add up to the duration, with hours below 24 and minutes and seconds below 60. |
| DurationLog.LogDurationString | tests/lib/ocpp/v201/test_composite_schedule.cpp:197-229 | The text is the non-zero parts, largest first, each a count and its label. A duration below one second gives "0 Seconds ". |
| DurationLog.DurationTextEndsInSpace | tests/lib/ocpp/v201/test_composite_schedule.cpp:197-229 | The text is never empty and ends in a space. |
| DurationLog.DayLabelFollowsCount | tests/lib/ocpp/v201/test_composite_schedule.cpp:206-214 | One to two days start with "1 Day "; more days start with the count and " Days ". |
| DurationLog.HoursAndMinutesStayPlural | tests/lib/ocpp/v201/test_composite_schedule.cpp:215-224 | For every duration, a count of one hour reads "1 Hours " right after the days, and a count of one minute reads "1 Minutes " right after the hours. Only the day label has a singular. |

## Left out

- The composite-schedule sweep that would emit periods is left out. The loop in
  calculate_composite_schedule ends every pass with `break` before computing any period, so
  the model gives the pass once, as an `if`. The unused locals (temp_time,
  last_period_end_time, current_period_limit, the significant pair) are not modelled.
- get_next_temp_time is left out. It reads the wall clock (`utc_clock::now()`) and only logs
  the profiles it is given.
- find_period_at is declared but never defined, and lowest_limit exists only as
  commented-out code. Neither has anything to model.
- Logging (EVLOG), the JSON `to_string` overloads of profiles, schedules and periods, and
  `operator<<` only produce text for logs, so they are left out.
- CompositeScheduling.CalculateCompositeSchedule: the comparison of a profile's stack level
  with its purpose's entry only logs, so it is not modelled. The model returns the thrown
  std::out_of_range as a Failure value, not as an exception.
- CompositeScheduling.GetProfileStartTime: the `time` and EVSE id parameters are accepted and
  unused, as in the source. The commented-out Relative branch is not modelled.
- The numeric `limit` of a period and `minChargingRate` are floating point and are not part
  of this model. Neither are the sales tariff and the other message fields the handler does
  not read.
- The EVSE is reduced to its id, its current phase type and the id of its active
  transaction. include/ocpp/v201/evse.hpp is not part of this model. CurrentPhaseType is
  modelled as AC or DC only.
- ProfileStore.SmartChargingHandler.ValidateTxProfile: transaction ids are compared as exact
  strings. The case-insensitive string type of the messages is not part of this model.
- ProfileStore.SmartChargingHandler.constructor: the EVSE map is held by reference in the
  source and could change under the handler. The model keeps it as a map fixed at
  construction.
- The database handler field is never used by the modelled operations, so it is not
  modelled.
- ProfileStore.SmartChargingHandler.AddProfile: EVSE ids are unbounded integers. The int32_t
  width of the key does not matter to any modelled operation.
- CompositeScheduling.DetermineDuration: the difference of the two clock time points is
  unbounded in the model. In the source it is a 64-bit count in the clock's own unit. With
  nanoseconds, the usual unit, that subtraction overflows for windows longer than about 292
  years, which is undefined behaviour. The model does not capture this. Only the count of
  seconds is wrapped to 32 bits.
- DurationLog.LogDurationString: the duration is an int32_t, so the arithmetic cannot
  overflow. The lemmas about the text are stated for every integer.
- The v1.6 tests, the database-handler test and the v1.6 MeterValues message are outside the
  modelled handler.
