/**
  The schedule checks of SetChargingProfile (OCPP 2.0.1 use case K01): every schedule of a
  profile must have periods, the first starting at offset 0 and the offsets strictly
  increasing; phaseToUse needs numberPhases = 1; a DC EVSE takes no phase values; an AC EVSE
  takes at most 3 phases; startSchedule is present exactly when the profile is not Relative.
  On an AC EVSE the check also fills every missing numberPhases it passes over with 3.

  The checks are specified by pure functions that follow the loops of the source (the first
  failing check wins), and the method that runs the loops is proved equal to them. The
  declarative meaning of the verdict and of the update is proved as lemmas.
 */
module ScheduleValidation {
  import opened Wrappers
  import opened SmartChargingTypes

  /** The phase type the checks see: none when the caller gives no EVSE. */
  function PhaseOf(evse: Option<Evse>): Option<CurrentPhaseType>
  {
    if evse.Some? then Some(evse.value.currentPhaseType) else None
  }

  /** The first check that period `i` fails, in the order the loop applies them, or None. */
  function PeriodFault(periods: seq<ChargingSchedulePeriod>, i: nat, phase: Option<CurrentPhaseType>)
    : Option<ProfileValidationResult>
    requires i < |periods|
  {
    var p := periods[i];
    if p.numberPhases != Some(1) && p.phaseToUse.Some? then
      Some(ChargingSchedulePeriodInvalidPhaseToUse)
    else if i == 0 && p.startPeriod != 0 then
      Some(ChargingProfileFirstStartScheduleIsNotZero)
    else if i + 1 < |periods| && periods[i + 1].startPeriod <= p.startPeriod then
      Some(ChargingSchedulePeriodsOutOfOrder)
    else if phase == Some(DC) && (p.numberPhases.Some? || p.phaseToUse.Some?) then
      Some(ChargingSchedulePeriodExtraneousPhaseValues)
    else if phase == Some(AC) && p.numberPhases.Some? && p.numberPhases.value > DEFAULT_AND_MAX_NUMBER_PHASES then
      Some(ChargingSchedulePeriodUnsupportedNumberPhases)
    else
      None
  }

  /** The index of the first period at or after `from` that fails a check; |periods| if none does. */
  function FirstFaultyPeriod(periods: seq<ChargingSchedulePeriod>, from: nat, phase: Option<CurrentPhaseType>): (k: nat)
    requires from <= |periods|
    ensures from <= k <= |periods|
    ensures forall n :: from <= n < k ==> PeriodFault(periods, n, phase).None?
    ensures k < |periods| ==> PeriodFault(periods, k, phase).Some?
    decreases |periods| - from
  {
    if from == |periods| || PeriodFault(periods, from, phase).Some? then from
    else FirstFaultyPeriod(periods, from + 1, phase)
  }

  /** The first check that a schedule fails, in the order the source applies them, or None. */
  function ScheduleFault(schedule: ChargingSchedule, kind: ChargingProfileKind, phase: Option<CurrentPhaseType>)
    : Option<ProfileValidationResult>
  {
    var periods := schedule.chargingSchedulePeriod;
    if |periods| == 0 then
      Some(ChargingProfileNoChargingSchedulePeriods)
    else
      var k := FirstFaultyPeriod(periods, 0, phase);
      if k < |periods| then PeriodFault(periods, k, phase)
      else if kind != Relative && schedule.startSchedule.None? then Some(ChargingProfileMissingRequiredStartSchedule)
      else if kind == Relative && schedule.startSchedule.Some? then Some(ChargingProfileExtraneousStartSchedule)
      else None
  }

  /** The index of the first schedule at or after `from` that fails a check; |schedules| if none does. */
  function FirstFaultySchedule(
    schedules: seq<ChargingSchedule>, from: nat, kind: ChargingProfileKind, phase: Option<CurrentPhaseType>): (s: nat)
    requires from <= |schedules|
    ensures from <= s <= |schedules|
    ensures forall t :: from <= t < s ==> ScheduleFault(schedules[t], kind, phase).None?
    ensures s < |schedules| ==> ScheduleFault(schedules[s], kind, phase).Some?
    decreases |schedules| - from
  {
    if from == |schedules| || ScheduleFault(schedules[from], kind, phase).Some? then from
    else FirstFaultySchedule(schedules, from + 1, kind, phase)
  }

  /** The verdict of validate_profile_schedules: the first failing check over all schedules, or Valid. */
  function SchedulesVerdict(profile: ChargingProfile, phase: Option<CurrentPhaseType>): ProfileValidationResult
  {
    var schedules := profile.chargingSchedule;
    var s := FirstFaultySchedule(schedules, 0, profile.chargingProfileKind, phase);
    if s < |schedules| then ScheduleFault(schedules[s], profile.chargingProfileKind, phase).value else Valid
  }

  /** A period as the check leaves it once it has passed: on AC, a missing numberPhases becomes 3. */
  function DefaultNumberPhases(p: ChargingSchedulePeriod, phase: Option<CurrentPhaseType>): ChargingSchedulePeriod
  {
    if phase == Some(AC) && p.numberPhases.None? then p.(numberPhases := Some(DEFAULT_AND_MAX_NUMBER_PHASES)) else p
  }

  /** The schedule with its first `count` periods defaulted. */
  function DefaultPrefix(schedule: ChargingSchedule, count: nat, phase: Option<CurrentPhaseType>): ChargingSchedule
  {
    var periods := schedule.chargingSchedulePeriod;
    schedule.(chargingSchedulePeriod :=
      seq(|periods|, i requires 0 <= i < |periods| => if i < count then DefaultNumberPhases(periods[i], phase) else periods[i]))
  }

  /** The schedule once the loop has passed over it: every period before the first faulty one is defaulted. */
  function VisitSchedule(schedule: ChargingSchedule, phase: Option<CurrentPhaseType>): ChargingSchedule
  {
    DefaultPrefix(schedule, FirstFaultyPeriod(schedule.chargingSchedulePeriod, 0, phase), phase)
  }

  /**
    The profile while the loop is at period `count` of schedule `j`: the schedules before `j`
    have been passed over, the first `count` periods of schedule `j` are defaulted, the rest is untouched.
   */
  function PartiallyVisited(profile: ChargingProfile, phase: Option<CurrentPhaseType>, j: nat, count: nat): ChargingProfile
  {
    var schedules := profile.chargingSchedule;
    profile.(chargingSchedule := seq(|schedules|, t requires 0 <= t < |schedules| =>
      if t < j then VisitSchedule(schedules[t], phase)
      else if t == j then DefaultPrefix(schedules[t], count, phase)
      else schedules[t]))
  }

  /** The profile as validate_profile_schedules leaves it, whatever the verdict. */
  function ProfileAfterValidation(profile: ChargingProfile, phase: Option<CurrentPhaseType>): ChargingProfile
  {
    var schedules := profile.chargingSchedule;
    var s := FirstFaultySchedule(schedules, 0, profile.chargingProfileKind, phase);
    profile.(chargingSchedule := seq(|schedules|, t requires 0 <= t < |schedules| =>
      if t <= s then VisitSchedule(schedules[t], phase) else schedules[t]))
  }

  /** The profile with period `i` of schedule `j` given `n` phases: the one update the check makes in place. */
  function WithNumberPhases(profile: ChargingProfile, j: nat, i: nat, n: int): ChargingProfile
    requires j < |profile.chargingSchedule| && i < |profile.chargingSchedule[j].chargingSchedulePeriod|
  {
    var schedule := profile.chargingSchedule[j];
    var periods := schedule.chargingSchedulePeriod;
    profile.(chargingSchedule := profile.chargingSchedule[j :=
      schedule.(chargingSchedulePeriod := periods[i := periods[i].(numberPhases := Some(n))])])
  }

  /** A search that has passed over only good periods and stopped at a bad one (or the end) finds it. */
  lemma {:induction false} FirstFaultyPeriodIs(
    periods: seq<ChargingSchedulePeriod>, from: nat, k: nat, phase: Option<CurrentPhaseType>)
    requires from <= k <= |periods|
    requires forall n :: from <= n < k ==> PeriodFault(periods, n, phase).None?
    requires k < |periods| ==> PeriodFault(periods, k, phase).Some?
    ensures FirstFaultyPeriod(periods, from, phase) == k
    decreases k - from
  {
    if from < k {
      FirstFaultyPeriodIs(periods, from + 1, k, phase);
    }
  }

  /** The same for schedules. */
  lemma {:induction false} FirstFaultyScheduleIs(
    schedules: seq<ChargingSchedule>, from: nat, s: nat, kind: ChargingProfileKind, phase: Option<CurrentPhaseType>)
    requires from <= s <= |schedules|
    requires forall t :: from <= t < s ==> ScheduleFault(schedules[t], kind, phase).None?
    requires s < |schedules| ==> ScheduleFault(schedules[s], kind, phase).Some?
    ensures FirstFaultySchedule(schedules, from, kind, phase) == s
    decreases s - from
  {
    if from < s {
      FirstFaultyScheduleIs(schedules, from + 1, s, kind, phase);
    }
  }

  /** Before the loop starts, nothing has been visited. */
  lemma NothingVisited(profile: ChargingProfile, phase: Option<CurrentPhaseType>)
    ensures PartiallyVisited(profile, phase, 0, 0) == profile
  {
    var schedules := profile.chargingSchedule;
    forall t | 0 <= t < |schedules|
      ensures PartiallyVisited(profile, phase, 0, 0).chargingSchedule[t] == schedules[t]
    {
      assert DefaultPrefix(schedules[t], 0, phase).chargingSchedulePeriod == schedules[t].chargingSchedulePeriod;
    }
  }

  /** Passing over period `i` of schedule `j` defaults it in place when the EVSE is AC and it has no numberPhases. */
  lemma VisitPeriod(profile: ChargingProfile, phase: Option<CurrentPhaseType>, j: nat, i: nat)
    requires j < |profile.chargingSchedule| && i < |profile.chargingSchedule[j].chargingSchedulePeriod|
    ensures var before := PartiallyVisited(profile, phase, j, i);
      var p := profile.chargingSchedule[j].chargingSchedulePeriod[i];
      && before.chargingSchedule[j].chargingSchedulePeriod[i] == p
      && (i + 1 < |profile.chargingSchedule[j].chargingSchedulePeriod| ==>
          before.chargingSchedule[j].chargingSchedulePeriod[i + 1] == profile.chargingSchedule[j].chargingSchedulePeriod[i + 1])
      && PartiallyVisited(profile, phase, j, i + 1) ==
        if phase == Some(AC) && p.numberPhases.None? then WithNumberPhases(before, j, i, DEFAULT_AND_MAX_NUMBER_PHASES)
        else before
  {
    var before := PartiallyVisited(profile, phase, j, i);
    var after := PartiallyVisited(profile, phase, j, i + 1);
    var p := profile.chargingSchedule[j].chargingSchedulePeriod[i];
    var expected := if phase == Some(AC) && p.numberPhases.None? then WithNumberPhases(before, j, i, DEFAULT_AND_MAX_NUMBER_PHASES)
      else before;
    assert after.chargingSchedule[j].chargingSchedulePeriod == expected.chargingSchedule[j].chargingSchedulePeriod;
    assert after.chargingSchedule == expected.chargingSchedule;
  }

  /** Once every period of schedule `j` has passed, the loop moves to schedule `j + 1`. */
  lemma VisitedWholeSchedule(profile: ChargingProfile, phase: Option<CurrentPhaseType>, j: nat)
    requires j < |profile.chargingSchedule|
    requires FirstFaultyPeriod(profile.chargingSchedule[j].chargingSchedulePeriod, 0, phase)
      == |profile.chargingSchedule[j].chargingSchedulePeriod|
    ensures PartiallyVisited(profile, phase, j, |profile.chargingSchedule[j].chargingSchedulePeriod|)
      == PartiallyVisited(profile, phase, j + 1, 0)
  {
    var a := PartiallyVisited(profile, phase, j, |profile.chargingSchedule[j].chargingSchedulePeriod|);
    var b := PartiallyVisited(profile, phase, j + 1, 0);
    var schedules := profile.chargingSchedule;
    forall t | 0 <= t < |schedules|
      ensures a.chargingSchedule[t] == b.chargingSchedule[t]
    {
      if t > j {
        assert DefaultPrefix(schedules[t], 0, phase).chargingSchedulePeriod == schedules[t].chargingSchedulePeriod;
      }
    }
    assert a.chargingSchedule == b.chargingSchedule;
  }

  /** Where the loop stops, at the first faulty period of the first faulty schedule, it leaves ProfileAfterValidation. */
  lemma StoppedAtFault(profile: ChargingProfile, phase: Option<CurrentPhaseType>, j: nat, i: nat)
    requires j < |profile.chargingSchedule|
    requires FirstFaultySchedule(profile.chargingSchedule, 0, profile.chargingProfileKind, phase) == j
    requires FirstFaultyPeriod(profile.chargingSchedule[j].chargingSchedulePeriod, 0, phase) == i
    ensures PartiallyVisited(profile, phase, j, i) == ProfileAfterValidation(profile, phase)
  {
    var a := PartiallyVisited(profile, phase, j, i);
    var b := ProfileAfterValidation(profile, phase);
    assert a.chargingSchedule == b.chargingSchedule;
  }

  /** When no schedule is faulty, the loop has passed over everything. */
  lemma StoppedAtEnd(profile: ChargingProfile, phase: Option<CurrentPhaseType>)
    requires FirstFaultySchedule(profile.chargingSchedule, 0, profile.chargingProfileKind, phase)
      == |profile.chargingSchedule|
    ensures PartiallyVisited(profile, phase, |profile.chargingSchedule|, 0) == ProfileAfterValidation(profile, phase)
  {
    var a := PartiallyVisited(profile, phase, |profile.chargingSchedule|, 0);
    var b := ProfileAfterValidation(profile, phase);
    assert a.chargingSchedule == b.chargingSchedule;
  }

  /**
    The checks of one period, in the order of the loop body of validate_profile_schedules, and
    the in-place defaulting of its numberPhases on an AC EVSE when it passes them.
   */
  method CheckPeriod(profile: ChargingProfile, evse: Option<Evse>, current: ChargingProfile, j: nat, i: nat)
    returns (result: ProfileValidationResult, updated: ChargingProfile)
    requires j < |profile.chargingSchedule| && i < |profile.chargingSchedule[j].chargingSchedulePeriod|
    requires current == PartiallyVisited(profile, PhaseOf(evse), j, i)
    ensures var fault := PeriodFault(profile.chargingSchedule[j].chargingSchedulePeriod, i, PhaseOf(evse));
      result == if fault.Some? then fault.value else Valid
    ensures result == Valid ==> updated == PartiallyVisited(profile, PhaseOf(evse), j, i + 1)
    ensures result != Valid ==> updated == current
  {
    VisitPeriod(profile, PhaseOf(evse), j, i);
    updated := current;
    var periods := current.chargingSchedule[j].chargingSchedulePeriod;
    var period := periods[i];
    result := Valid;
    // K01.FR.19
    if period.numberPhases != Some(1) && period.phaseToUse.Some? {
      result := ChargingSchedulePeriodInvalidPhaseToUse;
    // K01.FR.31
    } else if i == 0 && period.startPeriod != 0 {
      result := ChargingProfileFirstStartScheduleIsNotZero;
    // K01.FR.35
    } else if i + 1 < |periods| && periods[i + 1].startPeriod <= period.startPeriod {
      result := ChargingSchedulePeriodsOutOfOrder;
    } else if evse.Some? {
      // K01.FR.44
      if evse.value.currentPhaseType == DC && (period.numberPhases.Some? || period.phaseToUse.Some?) {
        result := ChargingSchedulePeriodExtraneousPhaseValues;
      } else if evse.value.currentPhaseType == AC {
        // K01.FR.45
        if period.numberPhases.Some? && period.numberPhases.value > DEFAULT_AND_MAX_NUMBER_PHASES {
          result := ChargingSchedulePeriodUnsupportedNumberPhases;
        // K01.FR.49
        } else if period.numberPhases.None? {
          updated := WithNumberPhases(current, j, i, DEFAULT_AND_MAX_NUMBER_PHASES);
        }
      }
    }
  }

  /**
    validate_profile_schedules. Returns the verdict and the profile as the in-place defaulting
    leaves it; without an EVSE (the default argument) the profile comes back unchanged.
   */
  method ValidateProfileSchedules(profile: ChargingProfile, evse: Option<Evse> := None)
    returns (result: ProfileValidationResult, checked: ChargingProfile)
    ensures result == SchedulesVerdict(profile, PhaseOf(evse))
    ensures checked == ProfileAfterValidation(profile, PhaseOf(evse))
  {
    ghost var phase := PhaseOf(evse);
    var kind := profile.chargingProfileKind;
    ghost var schedules := profile.chargingSchedule;
    checked := profile;
    NothingVisited(profile, phase);
    var j := 0;
    while j < |checked.chargingSchedule|
      invariant 0 <= j <= |schedules|
      invariant forall t :: 0 <= t < j ==> ScheduleFault(schedules[t], kind, phase).None?
      invariant checked == PartiallyVisited(profile, phase, j, 0)
    {
      if |checked.chargingSchedule[j].chargingSchedulePeriod| == 0 {
        result := ChargingProfileNoChargingSchedulePeriods;
        FirstFaultyScheduleIs(schedules, 0, j, kind, phase);
        StoppedAtFault(profile, phase, j, 0);
        return;
      }
      ghost var periods := schedules[j].chargingSchedulePeriod;
      var i := 0;
      while i < |checked.chargingSchedule[j].chargingSchedulePeriod|
        invariant 0 <= i <= |periods|
        invariant forall n :: 0 <= n < i ==> PeriodFault(periods, n, phase).None?
        invariant checked == PartiallyVisited(profile, phase, j, i)
      {
        result, checked := CheckPeriod(profile, evse, checked, j, i);
        if result != Valid {
          FirstFaultyPeriodIs(periods, 0, i, phase);
          FirstFaultyScheduleIs(schedules, 0, j, kind, phase);
          StoppedAtFault(profile, phase, j, i);
          return;
        }
        i := i + 1;
      }
      FirstFaultyPeriodIs(periods, 0, |periods|, phase);
      // K01.FR.40
      if kind != Relative && checked.chargingSchedule[j].startSchedule.None? {
        result := ChargingProfileMissingRequiredStartSchedule;
        FirstFaultyScheduleIs(schedules, 0, j, kind, phase);
        StoppedAtFault(profile, phase, j, |periods|);
        return;
      // K01.FR.41
      } else if kind == Relative && checked.chargingSchedule[j].startSchedule.Some? {
        result := ChargingProfileExtraneousStartSchedule;
        FirstFaultyScheduleIs(schedules, 0, j, kind, phase);
        StoppedAtFault(profile, phase, j, |periods|);
        return;
      }
      VisitedWholeSchedule(profile, phase, j);
      j := j + 1;
    }
    FirstFaultyScheduleIs(schedules, 0, |schedules|, kind, phase);
    StoppedAtEnd(profile, phase);
    result := Valid;
  }

  // The declarative meaning of the verdict.

  /** What K01.FR.19/31/35/44/45 demand of the periods of one schedule, stated without the loop. */
  ghost predicate PeriodsWellFormed(periods: seq<ChargingSchedulePeriod>, phase: Option<CurrentPhaseType>)
  {
    && (|periods| > 0 ==> periods[0].startPeriod == 0)
    && (forall n :: 0 <= n < |periods| - 1 ==> periods[n].startPeriod < periods[n + 1].startPeriod)
    && (forall n :: 0 <= n < |periods| && periods[n].phaseToUse.Some? ==> periods[n].numberPhases == Some(1))
    && (phase == Some(DC) ==>
          forall n :: 0 <= n < |periods| ==> periods[n].numberPhases.None? && periods[n].phaseToUse.None?)
    && (phase == Some(AC) ==>
          forall n :: 0 <= n < |periods| && periods[n].numberPhases.Some? ==>
            periods[n].numberPhases.value <= DEFAULT_AND_MAX_NUMBER_PHASES)
  }

  /** A schedule the checks accept: it has periods, they are well formed, and K01.FR.40/41 hold. */
  ghost predicate ScheduleWellFormed(schedule: ChargingSchedule, kind: ChargingProfileKind, phase: Option<CurrentPhaseType>)
  {
    && |schedule.chargingSchedulePeriod| > 0
    && PeriodsWellFormed(schedule.chargingSchedulePeriod, phase)
    && (schedule.startSchedule.Some? <==> kind != Relative)
  }

  ghost predicate ProfileWellFormed(profile: ChargingProfile, phase: Option<CurrentPhaseType>)
  {
    forall t :: 0 <= t < |profile.chargingSchedule| ==>
      ScheduleWellFormed(profile.chargingSchedule[t], profile.chargingProfileKind, phase)
  }

  /** The schedule shows the violation that outcome `e` names. */
  ghost predicate Exhibits(schedule: ChargingSchedule, kind: ChargingProfileKind, phase: Option<CurrentPhaseType>,
    e: ProfileValidationResult)
  {
    var periods := schedule.chargingSchedulePeriod;
    match e
    case ChargingProfileNoChargingSchedulePeriods => |periods| == 0
    case ChargingProfileFirstStartScheduleIsNotZero => |periods| > 0 && periods[0].startPeriod != 0
    case ChargingSchedulePeriodsOutOfOrder =>
      exists n :: 0 <= n < |periods| - 1 && periods[n + 1].startPeriod <= periods[n].startPeriod
    case ChargingSchedulePeriodInvalidPhaseToUse =>
      exists n :: 0 <= n < |periods| && periods[n].phaseToUse.Some? && periods[n].numberPhases != Some(1)
    case ChargingSchedulePeriodExtraneousPhaseValues =>
      phase == Some(DC) && exists n :: 0 <= n < |periods| && (periods[n].numberPhases.Some? || periods[n].phaseToUse.Some?)
    case ChargingSchedulePeriodUnsupportedNumberPhases =>
      && phase == Some(AC)
      && exists n :: 0 <= n < |periods| && periods[n].numberPhases.Some? &&
           periods[n].numberPhases.value > DEFAULT_AND_MAX_NUMBER_PHASES
    case ChargingProfileMissingRequiredStartSchedule => kind != Relative && schedule.startSchedule.None?
    case ChargingProfileExtraneousStartSchedule => kind == Relative && schedule.startSchedule.Some?
    case _ => false
  }

  /** The period search runs to the end exactly when the periods are well formed. */
  lemma NoFaultyPeriodIff(periods: seq<ChargingSchedulePeriod>, phase: Option<CurrentPhaseType>)
    ensures FirstFaultyPeriod(periods, 0, phase) == |periods| <==> PeriodsWellFormed(periods, phase)
  {
    var k := FirstFaultyPeriod(periods, 0, phase);
    if k == |periods| {
      forall n | 0 <= n < |periods| - 1
        ensures periods[n].startPeriod < periods[n + 1].startPeriod
      {
        assert PeriodFault(periods, n, phase).None?;
      }
      forall n | 0 <= n < |periods|
        ensures periods[n].phaseToUse.Some? ==> periods[n].numberPhases == Some(1)
        ensures phase == Some(DC) ==> periods[n].numberPhases.None? && periods[n].phaseToUse.None?
        ensures phase == Some(AC) && periods[n].numberPhases.Some? ==>
          periods[n].numberPhases.value <= DEFAULT_AND_MAX_NUMBER_PHASES
      {
        assert PeriodFault(periods, n, phase).None?;
      }
      if |periods| > 0 {
        assert PeriodFault(periods, 0, phase).None?;
      }
    } else {
      assert PeriodFault(periods, k, phase).Some?;
    }
  }

  /** A schedule passes its checks exactly when it is well formed. */
  lemma ScheduleFaultNoneIff(schedule: ChargingSchedule, kind: ChargingProfileKind, phase: Option<CurrentPhaseType>)
    ensures ScheduleFault(schedule, kind, phase).None? <==> ScheduleWellFormed(schedule, kind, phase)
  {
    if |schedule.chargingSchedulePeriod| > 0 {
      NoFaultyPeriodIff(schedule.chargingSchedulePeriod, phase);
    }
  }

  /** A failing period shows the violation its outcome names. */
  lemma PeriodFaultExhibited(schedule: ChargingSchedule, kind: ChargingProfileKind, phase: Option<CurrentPhaseType>, n: nat)
    requires n < |schedule.chargingSchedulePeriod|
    requires PeriodFault(schedule.chargingSchedulePeriod, n, phase).Some?
    ensures Exhibits(schedule, kind, phase, PeriodFault(schedule.chargingSchedulePeriod, n, phase).value)
  {
    var periods := schedule.chargingSchedulePeriod;
    match PeriodFault(periods, n, phase).value
    case ChargingSchedulePeriodsOutOfOrder =>
      assert periods[n + 1].startPeriod <= periods[n].startPeriod;
    case _ =>
  }

  /** A failing schedule shows the violation its outcome names. */
  lemma ScheduleFaultExhibited(schedule: ChargingSchedule, kind: ChargingProfileKind, phase: Option<CurrentPhaseType>)
    requires ScheduleFault(schedule, kind, phase).Some?
    ensures Exhibits(schedule, kind, phase, ScheduleFault(schedule, kind, phase).value)
  {
    var periods := schedule.chargingSchedulePeriod;
    if |periods| > 0 {
      var k := FirstFaultyPeriod(periods, 0, phase);
      if k < |periods| {
        PeriodFaultExhibited(schedule, kind, phase, k);
      }
    }
  }

  /** A schedule that shows any named violation is not well formed. */
  lemma ExhibitedViolationIsIllFormed(
    schedule: ChargingSchedule, kind: ChargingProfileKind, phase: Option<CurrentPhaseType>, e: ProfileValidationResult)
    requires Exhibits(schedule, kind, phase, e)
    ensures !ScheduleWellFormed(schedule, kind, phase)
  {
    var periods := schedule.chargingSchedulePeriod;
    if e.ChargingSchedulePeriodsOutOfOrder? {
      var n :| 0 <= n < |periods| - 1 && periods[n + 1].startPeriod <= periods[n].startPeriod;
    } else if e.ChargingSchedulePeriodInvalidPhaseToUse? {
      var n :| 0 <= n < |periods| && periods[n].phaseToUse.Some? && periods[n].numberPhases != Some(1);
    } else if e.ChargingSchedulePeriodExtraneousPhaseValues? {
      var n :| 0 <= n < |periods| && (periods[n].numberPhases.Some? || periods[n].phaseToUse.Some?);
    } else if e.ChargingSchedulePeriodUnsupportedNumberPhases? {
      var n :| 0 <= n < |periods| && periods[n].numberPhases.Some? &&
        periods[n].numberPhases.value > DEFAULT_AND_MAX_NUMBER_PHASES;
    }
  }

  /** validate_profile_schedules accepts exactly the well-formed profiles. */
  lemma ValidIffWellFormed(profile: ChargingProfile, phase: Option<CurrentPhaseType>)
    ensures SchedulesVerdict(profile, phase) == Valid <==> ProfileWellFormed(profile, phase)
  {
    var schedules := profile.chargingSchedule;
    var kind := profile.chargingProfileKind;
    var s := FirstFaultySchedule(schedules, 0, kind, phase);
    if s < |schedules| {
      ScheduleFaultNoneIff(schedules[s], kind, phase);
      ScheduleFaultExhibited(schedules[s], kind, phase);
    } else {
      forall t | 0 <= t < |schedules|
        ensures ScheduleWellFormed(schedules[t], kind, phase)
      {
        ScheduleFaultNoneIff(schedules[t], kind, phase);
      }
    }
  }

  /**
    A rejection names a violation that some schedule really shows, and every schedule before
    that one is well formed: the checks report the first problem in schedule order.
   */
  lemma RejectionIsExplained(profile: ChargingProfile, phase: Option<CurrentPhaseType>)
    requires SchedulesVerdict(profile, phase) != Valid
    ensures
      exists t ::
        && 0 <= t < |profile.chargingSchedule|
        && Exhibits(profile.chargingSchedule[t], profile.chargingProfileKind, phase, SchedulesVerdict(profile, phase))
        && forall u :: 0 <= u < t ==> ScheduleWellFormed(profile.chargingSchedule[u], profile.chargingProfileKind, phase)
  {
    var schedules := profile.chargingSchedule;
    var kind := profile.chargingProfileKind;
    var s := FirstFaultySchedule(schedules, 0, kind, phase);
    ScheduleFaultExhibited(schedules[s], kind, phase);
    forall u | 0 <= u < s
      ensures ScheduleWellFormed(schedules[u], kind, phase)
    {
      ScheduleFaultNoneIff(schedules[u], kind, phase);
    }
  }

  /** In an accepted schedule the period offsets increase strictly between any two periods, not only neighbours. */
  lemma {:induction false} StartPeriodsIncrease(periods: seq<ChargingSchedulePeriod>, phase: Option<CurrentPhaseType>, a: nat, b: nat)
    requires PeriodsWellFormed(periods, phase)
    requires a < b < |periods|
    ensures periods[a].startPeriod < periods[b].startPeriod
    decreases b - a
  {
    if a + 1 < b {
      StartPeriodsIncrease(periods, phase, a + 1, b);
    }
  }

  /** In an accepted schedule every offset is at least the first one, 0. */
  lemma StartPeriodsNonNegative(periods: seq<ChargingSchedulePeriod>, phase: Option<CurrentPhaseType>, n: nat)
    requires PeriodsWellFormed(periods, phase)
    requires n < |periods|
    ensures periods[n].startPeriod >= 0
  {
    if n > 0 {
      StartPeriodsIncrease(periods, phase, 0, n);
    }
  }

  // The in-place update.

  /** `after` is `before` with some missing numberPhases filled with 3, which happens only on an AC EVSE. */
  ghost predicate OnlyNumberPhasesFilled(before: ChargingSchedule, after: ChargingSchedule, phase: Option<CurrentPhaseType>)
  {
    && after.(chargingSchedulePeriod := before.chargingSchedulePeriod) == before
    && |after.chargingSchedulePeriod| == |before.chargingSchedulePeriod|
    && forall n :: 0 <= n < |before.chargingSchedulePeriod| ==>
      || after.chargingSchedulePeriod[n] == before.chargingSchedulePeriod[n]
      || (&& phase == Some(AC)
          && before.chargingSchedulePeriod[n].numberPhases.None?
          && after.chargingSchedulePeriod[n] ==
             before.chargingSchedulePeriod[n].(numberPhases := Some(DEFAULT_AND_MAX_NUMBER_PHASES)))
  }

  /** The check changes nothing but missing numberPhases, and those only to 3 on an AC EVSE. */
  lemma OnlyNumberPhasesChange(profile: ChargingProfile, phase: Option<CurrentPhaseType>)
    ensures var after := ProfileAfterValidation(profile, phase);
      && after.(chargingSchedule := profile.chargingSchedule) == profile
      && |after.chargingSchedule| == |profile.chargingSchedule|
      && forall t :: 0 <= t < |profile.chargingSchedule| ==>
        OnlyNumberPhasesFilled(profile.chargingSchedule[t], after.chargingSchedule[t], phase)
  {
    var after := ProfileAfterValidation(profile, phase);
    forall t | 0 <= t < |profile.chargingSchedule|
      ensures OnlyNumberPhasesFilled(profile.chargingSchedule[t], after.chargingSchedule[t], phase)
    {
      var before := profile.chargingSchedule[t];
      assert after.chargingSchedule[t].(chargingSchedulePeriod := before.chargingSchedulePeriod) == before;
    }
  }

  /** Without an EVSE, or with a DC one, the profile is left exactly as it was. */
  lemma UnchangedUnlessAc(profile: ChargingProfile, phase: Option<CurrentPhaseType>)
    requires phase != Some(AC)
    ensures ProfileAfterValidation(profile, phase) == profile
  {
    var after := ProfileAfterValidation(profile, phase);
    forall t | 0 <= t < |profile.chargingSchedule|
      ensures after.chargingSchedule[t] == profile.chargingSchedule[t]
    {
      var before := profile.chargingSchedule[t];
      assert after.chargingSchedule[t].chargingSchedulePeriod == before.chargingSchedulePeriod;
    }
    assert after.chargingSchedule == profile.chargingSchedule;
  }

  /** An accepted profile on an AC EVSE comes back with every numberPhases present and at most 3. */
  lemma AcceptedAcProfileHasAllPhases(profile: ChargingProfile)
    requires SchedulesVerdict(profile, Some(AC)) == Valid
    ensures var after := ProfileAfterValidation(profile, Some(AC));
      forall t, n :: 0 <= t < |after.chargingSchedule| && 0 <= n < |after.chargingSchedule[t].chargingSchedulePeriod| ==>
        && after.chargingSchedule[t].chargingSchedulePeriod[n].numberPhases.Some?
        && after.chargingSchedule[t].chargingSchedulePeriod[n].numberPhases.value <= DEFAULT_AND_MAX_NUMBER_PHASES
  {
    var after := ProfileAfterValidation(profile, Some(AC));
    var schedules := profile.chargingSchedule;
    ValidIffWellFormed(profile, Some(AC));
    forall t, n | 0 <= t < |after.chargingSchedule| && 0 <= n < |after.chargingSchedule[t].chargingSchedulePeriod|
      ensures after.chargingSchedule[t].chargingSchedulePeriod[n].numberPhases.Some?
      ensures after.chargingSchedule[t].chargingSchedulePeriod[n].numberPhases.value <= DEFAULT_AND_MAX_NUMBER_PHASES
    {
      NoFaultyPeriodIff(schedules[t].chargingSchedulePeriod, Some(AC));
      assert ScheduleWellFormed(schedules[t], profile.chargingProfileKind, Some(AC));
    }
  }

  // Re-validating the checked profile.

  /** Defaulting a prefix does not change which checks any period fails. */
  lemma DefaultPrefixKeepsFaults(schedule: ChargingSchedule, count: nat, phase: Option<CurrentPhaseType>, n: nat)
    requires n < |schedule.chargingSchedulePeriod|
    ensures PeriodFault(DefaultPrefix(schedule, count, phase).chargingSchedulePeriod, n, phase)
      == PeriodFault(schedule.chargingSchedulePeriod, n, phase)
  {
  }

  /** Period sequences that fail the same checks everywhere have the same first faulty period. */
  lemma {:induction false} SameFaultsSameFirstPeriod(
    p1: seq<ChargingSchedulePeriod>, p2: seq<ChargingSchedulePeriod>, from: nat, phase: Option<CurrentPhaseType>)
    requires |p1| == |p2| && from <= |p1|
    requires forall n :: from <= n < |p1| ==> PeriodFault(p1, n, phase) == PeriodFault(p2, n, phase)
    ensures FirstFaultyPeriod(p1, from, phase) == FirstFaultyPeriod(p2, from, phase)
    decreases |p1| - from
  {
    if from < |p1| {
      SameFaultsSameFirstPeriod(p1, p2, from + 1, phase);
    }
  }

  /** A schedule with a defaulted prefix fails the same check as the original, at the same period. */
  lemma DefaultPrefixKeepsScheduleFault(schedule: ChargingSchedule, count: nat, kind: ChargingProfileKind, phase: Option<CurrentPhaseType>)
    ensures var d := DefaultPrefix(schedule, count, phase);
      && ScheduleFault(d, kind, phase) == ScheduleFault(schedule, kind, phase)
      && FirstFaultyPeriod(d.chargingSchedulePeriod, 0, phase) == FirstFaultyPeriod(schedule.chargingSchedulePeriod, 0, phase)
  {
    var d := DefaultPrefix(schedule, count, phase);
    forall n | 0 <= n < |schedule.chargingSchedulePeriod|
      ensures PeriodFault(d.chargingSchedulePeriod, n, phase) == PeriodFault(schedule.chargingSchedulePeriod, n, phase)
    {
      DefaultPrefixKeepsFaults(schedule, count, phase, n);
    }
    SameFaultsSameFirstPeriod(d.chargingSchedulePeriod, schedule.chargingSchedulePeriod, 0, phase);
  }

  /** Schedule sequences that fail the same checks everywhere have the same first faulty schedule. */
  lemma {:induction false} SameFaultsSameFirstSchedule(
    s1: seq<ChargingSchedule>, s2: seq<ChargingSchedule>, from: nat, kind: ChargingProfileKind, phase: Option<CurrentPhaseType>)
    requires |s1| == |s2| && from <= |s1|
    requires forall t :: from <= t < |s1| ==> ScheduleFault(s1[t], kind, phase) == ScheduleFault(s2[t], kind, phase)
    ensures FirstFaultySchedule(s1, from, kind, phase) == FirstFaultySchedule(s2, from, kind, phase)
    decreases |s1| - from
  {
    if from < |s1| {
      SameFaultsSameFirstSchedule(s1, s2, from + 1, kind, phase);
    }
  }

  /** Defaulting the same prefix twice is defaulting it once. */
  lemma DefaultPrefixIdempotent(schedule: ChargingSchedule, count: nat, phase: Option<CurrentPhaseType>)
    ensures DefaultPrefix(DefaultPrefix(schedule, count, phase), count, phase) == DefaultPrefix(schedule, count, phase)
  {
    var once := DefaultPrefix(schedule, count, phase);
    assert DefaultPrefix(once, count, phase).chargingSchedulePeriod == once.chargingSchedulePeriod;
  }

  /**
    Validating the profile the check left behind gives the same verdict and changes nothing more:
    the defaulting is idempotent and never turns an accepted period into a rejected one or back.
   */
  lemma RevalidationIsStable(profile: ChargingProfile, phase: Option<CurrentPhaseType>)
    ensures var after := ProfileAfterValidation(profile, phase);
      && SchedulesVerdict(after, phase) == SchedulesVerdict(profile, phase)
      && ProfileAfterValidation(after, phase) == after
  {
    var after := ProfileAfterValidation(profile, phase);
    var kind := profile.chargingProfileKind;
    var schedules := profile.chargingSchedule;
    var s := FirstFaultySchedule(schedules, 0, kind, phase);
    forall t | 0 <= t < |schedules|
      ensures ScheduleFault(after.chargingSchedule[t], kind, phase) == ScheduleFault(schedules[t], kind, phase)
    {
      if t <= s {
        DefaultPrefixKeepsScheduleFault(schedules[t], FirstFaultyPeriod(schedules[t].chargingSchedulePeriod, 0, phase), kind, phase);
      }
    }
    SameFaultsSameFirstSchedule(after.chargingSchedule, schedules, 0, kind, phase);
    var again := ProfileAfterValidation(after, phase);
    forall t | 0 <= t < |schedules|
      ensures again.chargingSchedule[t] == after.chargingSchedule[t]
    {
      if t <= s {
        var k := FirstFaultyPeriod(schedules[t].chargingSchedulePeriod, 0, phase);
        DefaultPrefixKeepsScheduleFault(schedules[t], k, kind, phase);
        DefaultPrefixIdempotent(schedules[t], k, phase);
      }
    }
    assert again.chargingSchedule == after.chargingSchedule;
  }
}
