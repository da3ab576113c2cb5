/**
 * FeeCalculatorViewModel: the current selection, the fee read from the schedule for it,
 * and the 10% age discount on fresh passports.
 */
module FeeCalculator {
  import opened Wrappers
  import opened FeeSchedule

  const LessThan15: string := "less_than_15_years"
  const Between15And18: string := "between_15_18_years"
  const Adult: string := "18_years_and_above"

  /** The application types that have one flat fee, stored under `[type]["fee"]`. */
  const FlatFeeTypes: set<string> := {"pcc", "surrender_certificate", "background_verification_gep"}

  datatype FeeCalculatorUiState = FeeCalculatorUiState(
    isLoading: bool,
    error: string,
    feeData: Option<Node>,
    applicationType: string,
    serviceType: string,
    ageGroup: string,
    age: int,
    pages: string,
    scheme: string,
    reissueReason: string,
    lostStatus: string,
    calculatedFee: real)

  const DefaultUiState: FeeCalculatorUiState := FeeCalculatorUiState(
    true, "", None, "passport", "fresh", Adult, 30, "36_pages", "normal",
    "validity_expired", "expired_yes", 0.0)

  /** The age group key `updateAge` derives from an age. */
  function AgeBand(age: int): (group: string)
    ensures group == LessThan15 <==> age < 15
    ensures group == Between15And18 <==> 15 <= age < 18
    ensures group == Adult <==> 18 <= age
  {
    if age < 15 then LessThan15
    else if age < 18 then Between15And18
    else Adult
  }

  predicate AgeGroupMatchesAge(s: FeeCalculatorUiState) {
    s.ageGroup == AgeBand(s.age)
  }

  /** Under 15 the fee is `[scheme]`; otherwise it is `[scheme][pages]`. */
  function SchemeFee(data: Node, s: FeeCalculatorUiState): Option<real> {
    if s.ageGroup == LessThan15 then
      GetDouble(data, s.scheme)
    else
      var schemeData :- GetObject(data, s.scheme);
      GetDouble(schemeData, s.pages)
  }

  /** The passport branch of `calculateFee`; `None` stands for every case that yields 0.0. */
  function PassportFee(root: Node, s: FeeCalculatorUiState): Option<real> {
    var passportData :- GetObject(root, "passport");
    var serviceTypeData :- GetObject(passportData, s.serviceType);
    var ageGroupData :- GetObject(serviceTypeData, s.ageGroup);
    if s.serviceType == "fresh" then
      SchemeFee(ageGroupData, s)
    else if s.serviceType == "reissue" then
      if s.reissueReason == "lost_damaged" then
        var reasonData :- GetObject(ageGroupData, s.reissueReason);
        var lostData :- GetObject(reasonData, s.lostStatus);
        SchemeFee(lostData, s)
      else
        var reasonData :- GetObject(ageGroupData, s.reissueReason);
        SchemeFee(reasonData, s)
    else
      None
  }

  /** `calculateFee` once a schedule is loaded; `None` stands for every case that yields 0.0. */
  function ResolveFee(root: Node, s: FeeCalculatorUiState): Option<real> {
    if s.applicationType == "passport" then
      PassportFee(root, s)
    else if s.applicationType == "identity_certificate" then
      var typeData :- GetObject(root, s.applicationType);
      var serviceData :- GetObject(typeData, s.serviceType);
      GetDouble(serviceData, "fee")
    else if s.applicationType in FlatFeeTypes then
      var typeData :- GetObject(root, s.applicationType);
      GetDouble(typeData, "fee")
    else
      None
  }

  /** `calculateFee`: the fee for the selection, 0.0 when no schedule is loaded or any lookup misses. */
  function CalculateFee(s: FeeCalculatorUiState): (fee: real)
    ensures s.feeData.None? ==> fee == 0.0
    ensures (s.applicationType != "passport" && s.applicationType != "identity_certificate"
             && s.applicationType !in FlatFeeTypes) ==> fee == 0.0
    ensures s.applicationType == "passport" && s.serviceType != "fresh" && s.serviceType != "reissue"
            ==> fee == 0.0
  {
    match s.feeData
    case None => 0.0
    case Some(root) => ResolveFee(root, s).GetOr(0.0)
  }

  /**
   * The key path the fee is read from, as a list of keys from the schedule's root
   * (`None` when the selection has no path).
   */
  function FeePath(s: FeeCalculatorUiState): Option<seq<string>> {
    var tail := if s.ageGroup == LessThan15 then [s.scheme] else [s.scheme, s.pages];
    if s.applicationType == "passport" then
      if s.serviceType == "fresh" then
        Some(["passport", "fresh", s.ageGroup] + tail)
      else if s.serviceType == "reissue" then
        if s.reissueReason == "lost_damaged" then
          Some(["passport", "reissue", s.ageGroup, "lost_damaged", s.lostStatus] + tail)
        else
          Some(["passport", "reissue", s.ageGroup, s.reissueReason] + tail)
      else
        None
    else if s.applicationType == "identity_certificate" then
      Some([s.applicationType, s.serviceType, "fee"])
    else if s.applicationType in FlatFeeTypes then
      Some([s.applicationType, "fee"])
    else
      None
  }

  /** The fee found at the end of `FeePath` in the loaded schedule, 0.0 when there is none. */
  function FeeAtPath(s: FeeCalculatorUiState): real {
    match (s.feeData, FeePath(s))
    case (Some(root), Some(path)) => LookupPath(root, path).GetOr(0.0)
    case _ => 0.0
  }

  lemma SchemeFeeFollowsPath(data: Node, s: FeeCalculatorUiState)
    ensures SchemeFee(data, s)
            == LookupPath(data, if s.ageGroup == LessThan15 then [s.scheme] else [s.scheme, s.pages])
  {
    if s.ageGroup == LessThan15 {
      LookupPathLast(data, s.scheme);
    } else {
      LookupPathStep(data, s.scheme, [s.pages]);
      if GetObject(data, s.scheme).Some? {
        LookupPathLast(GetObject(data, s.scheme).value, s.pages);
      }
    }
  }

  /** The passport branch of `CalculateFeeFollowsPath`. */
  lemma {:induction false} PassportFeeFollowsPath(s: FeeCalculatorUiState)
    requires s.feeData.Some? && FeePath(s).Some? && s.applicationType == "passport"
    ensures CalculateFee(s) == FeeAtPath(s)
  {
    var root := s.feeData.value;
    var tail := if s.ageGroup == LessThan15 then [s.scheme] else [s.scheme, s.pages];
    var keys := if s.serviceType == "fresh" then ["passport", "fresh", s.ageGroup]
                else if s.reissueReason == "lost_damaged"
                then ["passport", "reissue", s.ageGroup, "lost_damaged", s.lostStatus]
                else ["passport", "reissue", s.ageGroup, s.reissueReason];
    assert FeePath(s).value == keys + tail;
    LookupPathSplit(root, keys, tail);
    FollowObjectsCons(root, "passport", keys[1..]);
    var p := GetObject(root, "passport");
    if p.Some? {
      FollowObjectsCons(p.value, s.serviceType, keys[2..]);
      var sv := GetObject(p.value, s.serviceType);
      if sv.Some? {
        FollowObjectsCons(sv.value, s.ageGroup, keys[3..]);
        var ag := GetObject(sv.value, s.ageGroup);
        if ag.Some? {
          if s.serviceType == "fresh" {
            SchemeFeeFollowsPath(ag.value, s);
          } else if s.reissueReason == "lost_damaged" {
            FollowObjectsCons(ag.value, "lost_damaged", [s.lostStatus]);
            var r := GetObject(ag.value, "lost_damaged");
            if r.Some? {
              FollowObjectsCons(r.value, s.lostStatus, []);
              var l := GetObject(r.value, s.lostStatus);
              if l.Some? {
                SchemeFeeFollowsPath(l.value, s);
              }
            }
          } else {
            FollowObjectsCons(ag.value, s.reissueReason, []);
            var r := GetObject(ag.value, s.reissueReason);
            if r.Some? {
              SchemeFeeFollowsPath(r.value, s);
            }
          }
        }
      }
    }
  }

  /** The step-by-step lookups of `calculateFee` read exactly the leaf at `FeePath`. */
  lemma {:induction false} CalculateFeeFollowsPath(s: FeeCalculatorUiState)
    ensures CalculateFee(s) == FeeAtPath(s)
  {
    if s.feeData.Some? && FeePath(s).Some? {
      var root := s.feeData.value;
      if s.applicationType == "passport" {
        PassportFeeFollowsPath(s);
      } else if s.applicationType == "identity_certificate" {
        assert FeePath(s).value == [s.applicationType, s.serviceType] + ["fee"];
        assert [s.applicationType, s.serviceType] == [s.applicationType] + [s.serviceType];
        LookupPathSplit(root, [s.applicationType, s.serviceType], ["fee"]);
        FollowObjectsCons(root, s.applicationType, [s.serviceType]);
        var t := GetObject(root, s.applicationType);
        if t.Some? {
          FollowObjectsCons(t.value, s.serviceType, []);
        }
        var m := FollowObjects(root, [s.applicationType, s.serviceType]);
        if m.Some? {
          LookupPathLast(m.value, "fee");
        }
      } else {
        assert FeePath(s).value == [s.applicationType] + ["fee"];
        assert [s.applicationType] == [s.applicationType] + [];
        LookupPathSplit(root, [s.applicationType], ["fee"]);
        FollowObjectsCons(root, s.applicationType, []);
        var m := FollowObjects(root, [s.applicationType]);
        if m.Some? {
          LookupPathLast(m.value, "fee");
        }
      }
    }
  }

  /** pcc, surrender and background-verification fees are `[type]["fee"]` whatever else is selected. */
  lemma FlatFeeIgnoresSelection(s: FeeCalculatorUiState, t: FeeCalculatorUiState)
    requires s.applicationType in FlatFeeTypes && t.applicationType == s.applicationType
    requires s.feeData == t.feeData && s.feeData.Some?
    ensures CalculateFee(s) == CalculateFee(t)
    ensures CalculateFee(s) == LookupPath(s.feeData.value, [s.applicationType, "fee"]).GetOr(0.0)
  {
    CalculateFeeFollowsPath(s);
    CalculateFeeFollowsPath(t);
  }

  /** The identity-certificate fee is `[identity_certificate][serviceType]["fee"]`: only serviceType matters. */
  lemma IdentityCertificateFeeDependsOnServiceTypeOnly(s: FeeCalculatorUiState, t: FeeCalculatorUiState)
    requires s.applicationType == "identity_certificate" && t.applicationType == s.applicationType
    requires s.feeData == t.feeData && s.feeData.Some? && s.serviceType == t.serviceType
    ensures CalculateFee(s) == CalculateFee(t)
    ensures CalculateFee(s)
            == LookupPath(s.feeData.value, ["identity_certificate", s.serviceType, "fee"]).GetOr(0.0)
  {
    CalculateFeeFollowsPath(s);
    CalculateFeeFollowsPath(t);
  }

  /** A fresh passport under 15 reads `[passport][fresh][ageGroup][scheme]`, whatever the pages. */
  lemma FreshUnder15IgnoresPages(s: FeeCalculatorUiState, pages: string)
    requires s.applicationType == "passport" && s.serviceType == "fresh" && s.ageGroup == LessThan15
    requires s.feeData.Some?
    ensures CalculateFee(s.(pages := pages)) == CalculateFee(s)
    ensures CalculateFee(s)
            == LookupPath(s.feeData.value, ["passport", "fresh", LessThan15, s.scheme]).GetOr(0.0)
  {
    CalculateFeeFollowsPath(s);
    CalculateFeeFollowsPath(s.(pages := pages));
    assert FeePath(s).value == ["passport", "fresh", LessThan15, s.scheme];
  }

  /** A fresh passport in any other age group reads `[passport][fresh][ageGroup][scheme][pages]`. */
  lemma FreshFifteenAndOverReadsPages(s: FeeCalculatorUiState)
    requires s.applicationType == "passport" && s.serviceType == "fresh" && s.ageGroup != LessThan15
    requires s.feeData.Some?
    ensures CalculateFee(s)
            == LookupPath(s.feeData.value, ["passport", "fresh", s.ageGroup, s.scheme, s.pages]).GetOr(0.0)
  {
    CalculateFeeFollowsPath(s);
    assert FeePath(s).value == ["passport", "fresh", s.ageGroup, s.scheme, s.pages];
  }

  /**
   * A lost or damaged passport's reissue fee has a lostStatus level between the reason
   * and the scheme; any other reason ignores lostStatus.
   */
  lemma ReissueLostStatusLevel(s: FeeCalculatorUiState, lostStatus: string)
    requires s.applicationType == "passport" && s.serviceType == "reissue" && s.feeData.Some?
    ensures s.reissueReason == "lost_damaged" ==>
              CalculateFee(s) == LookupPath(s.feeData.value,
                ["passport", "reissue", s.ageGroup, "lost_damaged", s.lostStatus]
                + (if s.ageGroup == LessThan15 then [s.scheme] else [s.scheme, s.pages])).GetOr(0.0)
    ensures s.reissueReason != "lost_damaged" ==>
              CalculateFee(s.(lostStatus := lostStatus)) == CalculateFee(s)
  {
    CalculateFeeFollowsPath(s);
    CalculateFeeFollowsPath(s.(lostStatus := lostStatus));
  }

  /** `shouldApplyDiscount`: fresh passports for applicants under 8 or over 60. */
  predicate ShouldApplyDiscount(s: FeeCalculatorUiState): (applies: bool)
    ensures applies <==> s.applicationType == "passport" && s.serviceType == "fresh" && !(8 <= s.age <= 60)
  {
    s.applicationType == "passport" && s.serviceType == "fresh" && (s.age < 8 || s.age > 60)
  }

  /** The discount's age boundaries are exclusive, and reissues and other types never get it. */
  lemma DiscountBoundaries(s: FeeCalculatorUiState)
    ensures s.applicationType == "passport" && s.serviceType == "fresh" ==>
              ShouldApplyDiscount(s.(age := 7)) && !ShouldApplyDiscount(s.(age := 8))
              && !ShouldApplyDiscount(s.(age := 60)) && ShouldApplyDiscount(s.(age := 61))
    ensures s.serviceType == "reissue" || s.applicationType != "passport" ==> !ShouldApplyDiscount(s)
  {
  }

  /** `getFinalFee`: the calculated fee, less 10% when the discount applies. */
  function FinalFee(s: FeeCalculatorUiState): (fee: real)
    ensures ShouldApplyDiscount(s) ==> fee * 10.0 == s.calculatedFee * 9.0
    ensures !ShouldApplyDiscount(s) ==> fee == s.calculatedFee
    ensures 0.0 <= s.calculatedFee ==> 0.0 <= fee <= s.calculatedFee
  {
    if ShouldApplyDiscount(s) then s.calculatedFee * 0.9 else s.calculatedFee
  }

  /** `calculatedFee` agrees with the selection and the schedule. */
  predicate FeeIsCurrent(s: FeeCalculatorUiState) {
    s.calculatedFee == CalculateFee(s)
  }

  /** The second write of every setter: `calculatedFee = calculateFee()`. */
  function Recalculated(s: FeeCalculatorUiState): (t: FeeCalculatorUiState)
    ensures FeeIsCurrent(t)
    ensures t.(calculatedFee := s.calculatedFee) == s
  {
    s.(calculatedFee := CalculateFee(s))
  }

  class FeeCalculatorViewModel {
    var uiState: FeeCalculatorUiState

    constructor ()
      ensures uiState == DefaultUiState
      ensures AgeGroupMatchesAge(uiState) && FeeIsCurrent(uiState)
    {
      uiState := DefaultUiState;
    }

    /** The outcome of `loadFeeData` when the asset was read and parsed into `schedule`. */
    method FeeDataLoaded(schedule: Node)
      modifies this
      ensures uiState == Recalculated(old(uiState).(feeData := Some(schedule), isLoading := false))
      ensures AgeGroupMatchesAge(old(uiState)) ==> AgeGroupMatchesAge(uiState)
    {
      uiState := uiState.(feeData := Some(schedule), isLoading := false);
      var fee := CalculateFee(uiState);
      uiState := uiState.(calculatedFee := fee);
    }

    /** The outcome of `loadFeeData` when reading or parsing failed with `message`. */
    method FeeDataFailed(message: string)
      modifies this
      ensures uiState == old(uiState).(error := "Failed to load fee data: " + message, isLoading := false)
      ensures FeeIsCurrent(old(uiState)) ==> FeeIsCurrent(uiState)
    {
      uiState := uiState.(error := "Failed to load fee data: " + message, isLoading := false);
    }

    method UpdateApplicationType(applicationType: string)
      modifies this
      ensures uiState == Recalculated(old(uiState).(applicationType := applicationType))
      ensures AgeGroupMatchesAge(old(uiState)) ==> AgeGroupMatchesAge(uiState)
    {
      uiState := uiState.(applicationType := applicationType);
      var fee := CalculateFee(uiState);
      uiState := uiState.(calculatedFee := fee);
    }

    method UpdateServiceType(serviceType: string)
      modifies this
      ensures uiState == Recalculated(old(uiState).(serviceType := serviceType))
      ensures AgeGroupMatchesAge(old(uiState)) ==> AgeGroupMatchesAge(uiState)
    {
      uiState := uiState.(serviceType := serviceType);
      var fee := CalculateFee(uiState);
      uiState := uiState.(calculatedFee := fee);
    }

    /** Sets the age group alone; the only setter that can leave it out of step with the age. */
    method UpdateAgeGroup(ageGroup: string)
      modifies this
      ensures uiState == Recalculated(old(uiState).(ageGroup := ageGroup))
      ensures AgeGroupMatchesAge(uiState) <==> ageGroup == AgeBand(old(uiState).age)
    {
      uiState := uiState.(ageGroup := ageGroup);
      var fee := CalculateFee(uiState);
      uiState := uiState.(calculatedFee := fee);
    }

    /** Sets the age and the age group banded from it together. */
    method UpdateAge(age: int)
      modifies this
      ensures uiState == Recalculated(old(uiState).(age := age, ageGroup := AgeBand(age)))
      ensures AgeGroupMatchesAge(uiState)
    {
      var ageGroup := if age < 15 then LessThan15 else if age < 18 then Between15And18 else Adult;
      uiState := uiState.(age := age, ageGroup := ageGroup);
      var fee := CalculateFee(uiState);
      uiState := uiState.(calculatedFee := fee);
    }

    method UpdatePages(pages: string)
      modifies this
      ensures uiState == Recalculated(old(uiState).(pages := pages))
      ensures AgeGroupMatchesAge(old(uiState)) ==> AgeGroupMatchesAge(uiState)
    {
      uiState := uiState.(pages := pages);
      var fee := CalculateFee(uiState);
      uiState := uiState.(calculatedFee := fee);
    }

    method UpdateScheme(scheme: string)
      modifies this
      ensures uiState == Recalculated(old(uiState).(scheme := scheme))
      ensures AgeGroupMatchesAge(old(uiState)) ==> AgeGroupMatchesAge(uiState)
    {
      uiState := uiState.(scheme := scheme);
      var fee := CalculateFee(uiState);
      uiState := uiState.(calculatedFee := fee);
    }

    method UpdateReissueReason(reason: string)
      modifies this
      ensures uiState == Recalculated(old(uiState).(reissueReason := reason))
      ensures AgeGroupMatchesAge(old(uiState)) ==> AgeGroupMatchesAge(uiState)
    {
      uiState := uiState.(reissueReason := reason);
      var fee := CalculateFee(uiState);
      uiState := uiState.(calculatedFee := fee);
    }

    method UpdateLostStatus(status: string)
      modifies this
      ensures uiState == Recalculated(old(uiState).(lostStatus := status))
      ensures AgeGroupMatchesAge(old(uiState)) ==> AgeGroupMatchesAge(uiState)
    {
      uiState := uiState.(lostStatus := status);
      var fee := CalculateFee(uiState);
      uiState := uiState.(calculatedFee := fee);
    }
  }
}
