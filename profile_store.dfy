/**
  The in-memory profile store of SmartChargingHandler and the validators that read it.
  Profiles for one EVSE are kept in a map from EVSE id to a list; profiles for the whole
  station (EVSE id 0) are kept in a separate list. The map is iterated in ascending key
  order, as a std::map is.
 */
module ProfileStore {
  import opened Wrappers
  import opened SmartChargingTypes
  import opened Sequences

  /** The EVSE id under which a profile applies to the whole charging station. */
  const STATION_WIDE_ID: int := 0

  /** The TxDefaultProfile entries of a list, in their order. */
  function TxDefaults(profiles: seq<ChargingProfile>): (r: seq<ChargingProfile>)
    ensures |r| <= |profiles|
  {
    if profiles == [] then []
    else
      var last := profiles[|profiles| - 1];
      TxDefaults(profiles[..|profiles| - 1]) + if last.chargingProfilePurpose == TxDefaultProfile then [last] else []
  }

  /** A profile survives the filter exactly when it is in the list and is a TxDefaultProfile. */
  lemma {:induction false} TxDefaultsMembership(profiles: seq<ChargingProfile>, c: ChargingProfile)
    ensures c in TxDefaults(profiles) <==> c in profiles && c.chargingProfilePurpose == TxDefaultProfile
  {
    if profiles != [] {
      var init := profiles[..|profiles| - 1];
      TxDefaultsMembership(init, c);
      assert profiles == init + [profiles[|profiles| - 1]];
    }
  }

  /** Extending a list by one profile extends its filtered list by that profile when it is a TxDefaultProfile. */
  lemma TxDefaultsSnoc(profiles: seq<ChargingProfile>, p: ChargingProfile)
    ensures TxDefaults(profiles + [p]) ==
      TxDefaults(profiles) + if p.chargingProfilePurpose == TxDefaultProfile then [p] else []
  {
    assert (profiles + [p])[..|profiles|] == profiles;
  }

  /** Filtering a concatenation filters each part. */
  lemma {:induction false} TxDefaultsAppend(a: seq<ChargingProfile>, b: seq<ChargingProfile>)
    ensures TxDefaults(a + b) == TxDefaults(a) + TxDefaults(b)
    decreases |b|
  {
    if b != [] {
      var last := b[|b| - 1];
      assert (a + b)[..|a + b| - 1] == a + b[..|b| - 1];
      TxDefaultsAppend(a, b[..|b| - 1]);
    } else {
      assert a + b == a;
    }
  }

  /** A key set that is not empty has a key. */
  lemma NonEmptyHasKey(keys: set<int>)
    requires keys != {}
    ensures exists x :: x in keys
  {
    if forall x :: x !in keys {
      assert false;
    }
  }

  /** The smallest key of a non-empty key set. */
  ghost function SmallestKey(keys: set<int>): (k: int)
    requires keys != {}
    ensures k in keys && forall y :: y in keys ==> k <= y
  {
    NonEmptyHasKey(keys);
    var x :| x in keys;
    if keys == {x} then x
    else
      var m := SmallestKey(keys - {x});
      assert forall y :: y in keys ==> y == x || y in keys - {x};
      if x < m then x else m
  }

  /** The lists of a map laid end to end in ascending key order: what a range-for over a std::map visits. */
  ghost function InKeyOrder(m: map<int, seq<ChargingProfile>>): seq<ChargingProfile>
    decreases m.Keys
  {
    if m.Keys == {} then []
    else
      var k := SmallestKey(m.Keys);
      assert (m - {k}).Keys < m.Keys;
      m[k] + InKeyOrder(m - {k})
  }

  /** The concatenation starts with the list of the smallest key. */
  lemma InKeyOrderFirst(m: map<int, seq<ChargingProfile>>, k: int)
    requires k in m && forall x :: x in m ==> k <= x
    ensures (m - {k}).Keys < m.Keys
    ensures InKeyOrder(m) == m[k] + InKeyOrder(m - {k})
  {
    assert SmallestKey(m.Keys) == k;
  }

  /** A profile appears in the key-ordered concatenation exactly when it is in one of the lists. */
  lemma {:induction false} InKeyOrderMembership(m: map<int, seq<ChargingProfile>>, c: ChargingProfile)
    ensures c in InKeyOrder(m) <==> exists k :: k in m && c in m[k]
    decreases m.Keys
  {
    if m.Keys != {} {
      var k := SmallestKey(m.Keys);
      assert (m - {k}).Keys < m.Keys;
      InKeyOrderMembership(m - {k}, c);
      if c in m[k] {
        assert k in m;
      }
      if exists j :: j in m && c in m[j] {
        var j :| j in m && c in m[j];
        if j != k {
          assert j in m - {k};
        }
      }
    }
  }

  /** The list of any one key can be taken out of the key-ordered concatenation without changing its contents. */
  lemma {:induction false} InKeyOrderWithout(m: map<int, seq<ChargingProfile>>, k: int)
    requires k in m
    ensures multiset(InKeyOrder(m)) == multiset(m[k]) + multiset(InKeyOrder(m - {k}))
    decreases m.Keys
  {
    var s := SmallestKey(m.Keys);
    if s != k {
      assert (m - {s}).Keys < m.Keys;
      InKeyOrderWithout(m - {s}, k);
      var rest := m - {k};
      assert rest.Keys != {} && s in rest.Keys;
      assert SmallestKey(rest.Keys) == s;
      assert rest - {s} == (m - {s}) - {k};
    }
  }

  /** Filtering the lists in key order is filtering the smallest key's list, then the rest in key order. */
  lemma VisitSmallestKey(rest: map<int, seq<ChargingProfile>>, k: int, before: seq<ChargingProfile>, all: seq<ChargingProfile>)
    requires k in rest && forall x :: x in rest ==> k <= x
    requires before + TxDefaults(InKeyOrder(rest)) == all
    ensures (rest - {k}).Keys < rest.Keys
    ensures (before + TxDefaults(rest[k])) + TxDefaults(InKeyOrder(rest - {k})) == all
  {
    InKeyOrderFirst(rest, k);
    TxDefaultsAppend(rest[k], InKeyOrder(rest - {k}));
    ConcatAssociates(before, TxDefaults(rest[k]), TxDefaults(InKeyOrder(rest - {k})));
  }

  /** The list stored under `k`; an absent key reads as the empty list, as std::map's operator[] creates it. */
  function ListAt(m: map<int, seq<ChargingProfile>>, k: int): seq<ChargingProfile>
  {
    if k in m then m[k] else []
  }

  /** The contents of the store split into the list under `k`, which may be absent, and the other lists. */
  lemma InKeyOrderSplit(m: map<int, seq<ChargingProfile>>, k: int)
    ensures multiset(InKeyOrder(m)) == multiset(ListAt(m, k)) + multiset(InKeyOrder(m - {k}))
  {
    if k in m {
      InKeyOrderWithout(m, k);
    } else {
      assert m - {k} == m;
    }
  }

  /** Appending one profile under any key adds exactly that profile to the store's contents. */
  lemma AppendAddsOne(m: map<int, seq<ChargingProfile>>, k: int, p: ChargingProfile)
    ensures multiset(InKeyOrder(m[k := ListAt(m, k) + [p]])) == multiset(InKeyOrder(m)) + multiset{p}
  {
    var m' := m[k := ListAt(m, k) + [p]];
    InKeyOrderSplit(m', k);
    InKeyOrderSplit(m, k);
    assert m' - {k} == m - {k};
    assert multiset(ListAt(m', k)) == multiset(ListAt(m, k)) + multiset{p};
  }

  /** Another profile with the same stack level: what makes a TxDefaultProfile a duplicate. */
  predicate ClashesWith(candidate: ChargingProfile, profile: ChargingProfile)
  {
    candidate.stackLevel == profile.stackLevel && candidate.id != profile.id
  }

  class SmartChargingHandler {
    /** The EVSEs of the station, by id; the handler only looks them up. */
    const evses: map<int, Evse>
    var chargingProfiles: map<int, seq<ChargingProfile>>
    var stationWideChargingProfiles: seq<ChargingProfile>

    /** Station-wide profiles live only in their own list, never under key 0 of the map. */
    ghost predicate Consistent()
      reads this
    {
      STATION_WIDE_ID !in chargingProfiles
    }

    /** Everything stored, station-wide first, then per EVSE in ascending id order. */
    ghost function StoredProfiles(): seq<ChargingProfile>
      reads this
    {
      stationWideChargingProfiles + InKeyOrder(chargingProfiles)
    }

    constructor(evses: map<int, Evse>)
      ensures this.evses == evses
      ensures chargingProfiles == map[] && stationWideChargingProfiles == []
      ensures Consistent()
    {
      this.evses := evses;
      chargingProfiles := map[];
      stationWideChargingProfiles := [];
    }

    /** validate_evse_exists: accepts exactly the ids of known EVSEs. */
    function ValidateEvseExists(evseId: int): (r: ProfileValidationResult)
      ensures r == Valid <==> evseId in evses
      ensures r != Valid ==> r == EvseDoesNotExist
    {
      if evseId !in evses then EvseDoesNotExist else Valid
    }

    /** get_evse_specific_tx_default_profiles: the TxDefaultProfiles of every EVSE, in ascending EVSE id order. */
    method GetEvseSpecificTxDefaultProfiles() returns (result: seq<ChargingProfile>)
      ensures result == TxDefaults(InKeyOrder(chargingProfiles))
    {
      result := [];
      var rest := chargingProfiles;
      ghost var all := TxDefaults(InKeyOrder(chargingProfiles));
      while rest.Keys != {}
        invariant result + TxDefaults(InKeyOrder(rest)) == all
        decreases rest.Keys
      {
        assert SmallestKey(rest.Keys) in rest;
        // the smallest EVSE id not yet visited
        var k :| k in rest && forall x :: x in rest ==> k <= x;
        ghost var before := result;
        var profiles := rest[k];
        var i := 0;
        while i < |profiles|
          invariant 0 <= i <= |profiles|
          invariant result == before + TxDefaults(profiles[..i])
        {
          assert profiles[..i + 1] == profiles[..i] + [profiles[i]];
          TxDefaultsSnoc(profiles[..i], profiles[i]);
          if profiles[i].chargingProfilePurpose == TxDefaultProfile {
            ConcatAssociates(before, TxDefaults(profiles[..i]), [profiles[i]]);
            result := result + [profiles[i]];
          }
          i := i + 1;
        }
        assert profiles[..i] == profiles;
        VisitSmallestKey(rest, k, before, all);
        rest := rest - {k};
      }
    }

    /** get_station_wide_tx_default_profiles: the station-wide TxDefaultProfiles, in stored order. */
    method GetStationWideTxDefaultProfiles() returns (result: seq<ChargingProfile>)
      ensures result == TxDefaults(stationWideChargingProfiles)
    {
      result := [];
      var i := 0;
      while i < |stationWideChargingProfiles|
        invariant 0 <= i <= |stationWideChargingProfiles|
        invariant result == TxDefaults(stationWideChargingProfiles[..i])
      {
        assert stationWideChargingProfiles[..i + 1] == stationWideChargingProfiles[..i] + [stationWideChargingProfiles[i]];
        TxDefaultsSnoc(stationWideChargingProfiles[..i], stationWideChargingProfiles[i]);
        if stationWideChargingProfiles[i].chargingProfilePurpose == TxDefaultProfile {
          result := result + [stationWideChargingProfiles[i]];
        }
        i := i + 1;
      }
      assert stationWideChargingProfiles[..i] == stationWideChargingProfiles;
    }

    /**
      validate_tx_default_profile. A profile for the whole station (EVSE id 0) is compared with
      the TxDefaultProfiles stored for single EVSEs, a profile for one EVSE with the station-wide
      ones; it is a duplicate exactly when one of them has its stack level and another id.
     */
    method ValidateTxDefaultProfile(profile: ChargingProfile, evseId: int) returns (result: ProfileValidationResult)
      ensures result == Valid || result == DuplicateTxDefaultProfileFound
      ensures evseId == STATION_WIDE_ID ==>
        (result == DuplicateTxDefaultProfileFound <==>
          exists k, c :: k in chargingProfiles && c in chargingProfiles[k] &&
            c.chargingProfilePurpose == TxDefaultProfile && ClashesWith(c, profile))
      ensures evseId != STATION_WIDE_ID ==>
        (result == DuplicateTxDefaultProfileFound <==>
          exists c :: c in stationWideChargingProfiles &&
            c.chargingProfilePurpose == TxDefaultProfile && ClashesWith(c, profile))
    {
      ghost var scanned := if evseId == STATION_WIDE_ID then InKeyOrder(chargingProfiles) else stationWideChargingProfiles;
      var profiles;
      if evseId == STATION_WIDE_ID {
        profiles := GetEvseSpecificTxDefaultProfiles();
      } else {
        profiles := GetStationWideTxDefaultProfiles();
      }
      for i := 0 to |profiles|
        invariant forall j :: 0 <= j < i ==> !ClashesWith(profiles[j], profile)
      {
        var candidate := profiles[i];
        if candidate.stackLevel == profile.stackLevel {
          if candidate.id != profile.id {
            result := DuplicateTxDefaultProfileFound;
            TxDefaultsMembership(scanned, candidate);
            if evseId == STATION_WIDE_ID {
              InKeyOrderMembership(chargingProfiles, candidate);
            }
            return;
          }
        }
      }
      result := Valid;
      forall c | c in scanned && c.chargingProfilePurpose == TxDefaultProfile
        ensures !ClashesWith(c, profile)
      {
        TxDefaultsMembership(scanned, c);
      }
      if evseId == STATION_WIDE_ID {
        forall k, c | k in chargingProfiles && c in chargingProfiles[k] && c.chargingProfilePurpose == TxDefaultProfile
          ensures !ClashesWith(c, profile)
        {
          InKeyOrderMembership(chargingProfiles, c);
        }
      }
    }

    /** Some profile stored for an EVSE belongs to the same transaction and has the same stack level. */
    predicate StoredTxProfileConflicts(profile: ChargingProfile)
      reads this
    {
      exists k :: k in chargingProfiles &&
        exists c :: c in chargingProfiles[k] &&
          c.transactionId == profile.transactionId && c.stackLevel == profile.stackLevel
    }

    /**
      validate_tx_profile: the five checks in order, the first that fails giving the outcome.
      Only the per-EVSE profiles are searched for a conflict; the station-wide list is not.
     */
    function ValidateTxProfile(profile: ChargingProfile, evse: Evse): (r: ProfileValidationResult)
      reads this
      ensures r == Valid <==>
        && profile.transactionId.Some?
        && evse.id > 0
        && evse.activeTransactionId == profile.transactionId
        && !StoredTxProfileConflicts(profile)
      ensures r == TxProfileMissingTransactionId <==> profile.transactionId.None?
      ensures r == TxProfileEvseIdNotGreaterThanZero <==> profile.transactionId.Some? && evse.id <= 0
      ensures r == TxProfileEvseHasNoActiveTransaction <==>
        profile.transactionId.Some? && evse.id > 0 && evse.activeTransactionId.None?
      ensures r == TxProfileTransactionNotOnEvse <==>
        && profile.transactionId.Some? && evse.id > 0
        && evse.activeTransactionId.Some? && evse.activeTransactionId != profile.transactionId
      ensures r == TxProfileConflictingStackLevel <==>
        && profile.transactionId.Some? && evse.id > 0
        && evse.activeTransactionId == profile.transactionId
        && StoredTxProfileConflicts(profile)
    {
      if profile.transactionId.None? then TxProfileMissingTransactionId
      else if evse.id <= 0 then TxProfileEvseIdNotGreaterThanZero
      else if evse.activeTransactionId.None? then TxProfileEvseHasNoActiveTransaction
      else if evse.activeTransactionId.value != profile.transactionId.value then TxProfileTransactionNotOnEvse
      else if StoredTxProfileConflicts(profile) then TxProfileConflictingStackLevel
      else Valid
    }

    /** A TxProfile that is already stored for an EVSE is refused when it is sent again for its own transaction. */
    lemma ResentTxProfileConflicts(profile: ChargingProfile, evse: Evse, k: int)
      requires k in chargingProfiles && profile in chargingProfiles[k]
      requires profile.transactionId.Some? && evse.id > 0 && evse.activeTransactionId == profile.transactionId
      ensures ValidateTxProfile(profile, evse) == TxProfileConflictingStackLevel
    {
      assert StoredTxProfileConflicts(profile);
    }

    /**
      add_profile: a profile for EVSE 0 goes to the station-wide list, any other to the list of
      its EVSE, which is created when missing. Nothing is deduplicated or removed.
     */
    method AddProfile(evseId: int, profile: ChargingProfile)
      requires Consistent()
      modifies this
      ensures Consistent()
      ensures evseId == STATION_WIDE_ID ==>
        && stationWideChargingProfiles == old(stationWideChargingProfiles) + [profile]
        && chargingProfiles == old(chargingProfiles)
      ensures evseId != STATION_WIDE_ID ==>
        && stationWideChargingProfiles == old(stationWideChargingProfiles)
        && chargingProfiles == old(chargingProfiles)[evseId := ListAt(old(chargingProfiles), evseId) + [profile]]
      ensures multiset(StoredProfiles()) == multiset(old(StoredProfiles())) + multiset{profile}
    {
      if STATION_WIDE_ID == evseId {
        stationWideChargingProfiles := stationWideChargingProfiles + [profile];
      } else {
        AppendAddsOne(chargingProfiles, evseId, profile);
        chargingProfiles := chargingProfiles[evseId := ListAt(chargingProfiles, evseId) + [profile]];
      }
    }
  }
}
