/**
  The composite-schedule skeleton of SmartChargingHandler (OCPP 2.0.1 use case K08) and the
  start time of a profile. The duration of a window is the whole number of seconds between its
  ends, truncated toward zero and returned as an int32_t. The composite calculation fills in the
  header of the result and runs one pass over the profiles, looking up the limits of each
  profile's purpose; it produces no periods.
 */
module CompositeScheduling {
  import opened Wrappers
  import opened SmartChargingTypes

  const TWO_TO_THE_32: int := 0x1_0000_0000

  /** duration_cast<seconds>: the whole seconds in a tick count, rounded toward zero. */
  function SecondsTowardZero(ticks: int): (s: int)
    ensures 0 <= ticks ==> 0 <= s && s * TICKS_PER_SECOND <= ticks < (s + 1) * TICKS_PER_SECOND
    ensures ticks < 0 ==> s <= 0 && (s - 1) * TICKS_PER_SECOND < ticks <= s * TICKS_PER_SECOND
  {
    if ticks >= 0 then ticks / TICKS_PER_SECOND else -((-ticks) / TICKS_PER_SECOND)
  }

  /** Rounding toward zero commutes with negation. */
  lemma SecondsTowardZeroIsOdd(ticks: int)
    ensures SecondsTowardZero(-ticks) == -SecondsTowardZero(ticks)
  {
  }

  /** The 64-bit count narrowed to the int32_t that is returned: two's-complement wrap-around. */
  function WrapInt32(x: int): (r: int32)
    ensures (x - r) % TWO_TO_THE_32 == 0
    ensures -0x8000_0000 <= x < 0x8000_0000 ==> r == x
  {
    var m := x % TWO_TO_THE_32;
    if m < 0x8000_0000 then m else m - TWO_TO_THE_32
  }

  /** A window whose length in whole seconds fits an int32_t. */
  predicate FitsInt32Seconds(startTime: Instant, endTime: Instant)
  {
    -0x8000_0000 * TICKS_PER_SECOND < endTime - startTime < 0x8000_0000 * TICKS_PER_SECOND
  }

  /** determine_duration: the whole seconds from start to end, truncated toward zero; negative for a reversed window. */
  function DetermineDuration(startTime: Instant, endTime: Instant): (d: int32)
    ensures FitsInt32Seconds(startTime, endTime) ==> d == SecondsTowardZero(endTime - startTime)
    ensures (d - SecondsTowardZero(endTime - startTime)) % TWO_TO_THE_32 == 0
  {
    WrapInt32(SecondsTowardZero(endTime - startTime))
  }

  /** Swapping the ends of a window that fits negates its duration. */
  lemma ReversedWindowNegatesDuration(startTime: Instant, endTime: Instant)
    requires FitsInt32Seconds(startTime, endTime)
    ensures DetermineDuration(endTime, startTime) == -DetermineDuration(startTime, endTime)
  {
    SecondsTowardZeroIsOdd(endTime - startTime);
    assert startTime - endTime == -(endTime - startTime);
  }

  /**
    within_time_window: whether the window lasts a positive number of whole seconds. A window
    that fits is open exactly when its end is at least one second after its start.
   */
  function WithinTimeWindow(startTime: Instant, endTime: Instant): (open: bool)
    ensures FitsInt32Seconds(startTime, endTime) ==> (open <==> endTime - startTime >= TICKS_PER_SECOND)
  {
    DetermineDuration(startTime, endTime) > 0
  }

  /** initialize_enhanced_composite_schedule: the header of the result; its period list starts empty. */
  function InitializeEnhancedCompositeSchedule(
    startTime: Instant, endTime: Instant, evseId: int, chargingRateUnit: ChargingRateUnit): (c: CompositeSchedule)
    ensures c.evseId == evseId && c.scheduleStart == startTime && c.chargingRateUnit == chargingRateUnit
    ensures c.duration == DetermineDuration(startTime, endTime)
    ensures c.chargingSchedulePeriod == []
  {
    CompositeSchedule(evseId, DetermineDuration(startTime, endTime), startTime, chargingRateUnit, [])
  }

  /**
    get_initial_purpose_and_stack_limits: the lowest limit so far and its stack level for each
    purpose, starting at the largest int and -1. ChargingStationExternalConstraints has no entry.
   */
  function InitialPurposeAndStackLimits(): (m: map<ChargingProfilePurpose, LimitStackLevelPair>)
    ensures m.Keys == {ChargingStationMaxProfile, TxDefaultProfile, TxProfile}
    ensures forall p :: p in m ==> m[p] == LimitStackLevelPair(INT32_MAX, -1)
  {
    map[ChargingStationMaxProfile := LimitStackLevelPair(INT32_MAX, -1),
        TxDefaultProfile := LimitStackLevelPair(INT32_MAX, -1),
        TxProfile := LimitStackLevelPair(INT32_MAX, -1)]
  }

  /** Only the external-constraints purpose is missing from the initial limits. */
  lemma OnlyExternalConstraintsLacksLimits(purpose: ChargingProfilePurpose)
    ensures purpose !in InitialPurposeAndStackLimits() <==> purpose == ChargingStationExternalConstraints
  {
  }

  /** The std::out_of_range that `.at` throws for a purpose without an entry. */
  datatype LookupError = PurposeOutOfRange(purpose: ChargingProfilePurpose)

  /**
    calculate_composite_schedule as written: the header, then, if the window is open, one pass
    over the profiles that looks up each purpose's limits, then `break`. The lookup fails for the
    first profile whose purpose has no entry; otherwise the header comes back with no periods.
   */
  method CalculateCompositeSchedule(
    validProfiles: seq<ChargingProfile>, startTime: Instant, endTime: Instant, evseId: int,
    chargingRateUnit: ChargingRateUnit)
    returns (result: Result<CompositeSchedule, LookupError>)
    ensures result.Failure? <==>
      WithinTimeWindow(startTime, endTime) &&
      exists i :: 0 <= i < |validProfiles| && validProfiles[i].chargingProfilePurpose == ChargingStationExternalConstraints
    ensures result.Failure? ==> result.error == PurposeOutOfRange(ChargingStationExternalConstraints)
    ensures result.Success? ==>
      result.value == InitializeEnhancedCompositeSchedule(startTime, endTime, evseId, chargingRateUnit)
  {
    var compositeSchedule := InitializeEnhancedCompositeSchedule(startTime, endTime, evseId, chargingRateUnit);
    // The source's `while` over the window ends every pass with `break`, so it runs at most once.
    if WithinTimeWindow(startTime, endTime) {
      var currentPurposeAndStackLimits := InitialPurposeAndStackLimits();
      for i := 0 to |validProfiles|
        invariant forall j :: 0 <= j < i ==> validProfiles[j].chargingProfilePurpose != ChargingStationExternalConstraints
      {
        var profile := validProfiles[i];
        if profile.chargingProfilePurpose !in currentPurposeAndStackLimits {
          return Failure(PurposeOutOfRange(profile.chargingProfilePurpose));
        }
        // Comparing the profile's stack level with the purpose's only logs.
        var significantLimitStackLevelPair := currentPurposeAndStackLimits[profile.chargingProfilePurpose];
      }
      // The sweep that would emit periods is not written yet: the pass ends here.
    }
    return Success(compositeSchedule);
  }

  /** floor<seconds>: the start of the whole second an instant falls in, also before the epoch. */
  function FloorToSecond(t: Instant): (r: Instant)
    ensures r % TICKS_PER_SECOND == 0
    ensures r <= t < r + TICKS_PER_SECOND
  {
    t - t % TICKS_PER_SECOND
  }

  /** The startSchedule of the last schedule that has one. */
  function LastStartSchedule(schedules: seq<ChargingSchedule>): (r: Option<Instant>)
    ensures r.None? <==> forall i :: 0 <= i < |schedules| ==> schedules[i].startSchedule.None?
    ensures r.Some? ==>
      exists i :: 0 <= i < |schedules| && schedules[i].startSchedule == r &&
        forall j :: i < j < |schedules| ==> schedules[j].startSchedule.None?
  {
    if schedules == [] then None
    else
      var last := schedules[|schedules| - 1];
      if last.startSchedule.Some? then last.startSchedule
      else LastStartSchedule(schedules[..|schedules| - 1])
  }

  /**
    get_profile_start_time: for an Absolute profile, the startSchedule of its schedules, each
    floored to a whole second, the last one present winning; Relative and Recurring profiles
    have no start time yet. The time and the EVSE id are not used.
   */
  method GetProfileStartTime(profile: ChargingProfile, time: Instant, evseId: int)
    returns (periodStartTime: Option<Instant>)
    ensures profile.chargingProfileKind != Absolute ==> periodStartTime.None?
    ensures profile.chargingProfileKind == Absolute ==>
      periodStartTime ==
        var start := LastStartSchedule(profile.chargingSchedule);
        if start.Some? then Some(FloorToSecond(start.value)) else None
  {
    var schedules := profile.chargingSchedule;
    periodStartTime := None;
    for i := 0 to |schedules|
      invariant profile.chargingProfileKind != Absolute ==> periodStartTime.None?
      invariant profile.chargingProfileKind == Absolute ==>
        periodStartTime ==
          var start := LastStartSchedule(schedules[..i]);
          if start.Some? then Some(FloorToSecond(start.value)) else None
    {
      assert schedules[..i + 1][..i] == schedules[..i];
      var schedule := schedules[i];
      if profile.chargingProfileKind == Absolute {
        if schedule.startSchedule.Some? {
          periodStartTime := Some(FloorToSecond(schedule.startSchedule.value));
        }
        // Without a startSchedule the source only logs a warning.
      }
      // Relative and Recurring profiles are not resolved yet.
    }
    assert schedules[..|schedules|] == schedules;
  }
}
