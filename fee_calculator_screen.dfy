/**
 * The logic inside FeeCalculatorScreen: the age text filter, the age-group label, which
 * fields are shown, the fee text and the dropdown label lookup.
 */
module FeeCalculatorScreen {
  import opened Wrappers
  import opened Strings
  import opened FeeSchedule
  import opened FeeCalculator

  /**
   * The age field's filter: an edit reaches the view model only when empty or all digits,
   * that is, when it holds no character other than a digit.
   */
  predicate AgeEditAccepted(text: string): (accepted: bool)
    ensures accepted <==> forall i | 0 <= i < |text| :: IsDigit(text[i])
  {
    text == [] || AllDigits(text)
  }

  /** `newValue.toIntOrNull() ?: 0` on an accepted edit. */
  function AgeFromText(text: string): (age: int)
    requires AgeEditAccepted(text)
    ensures 0 <= age <= IntMax
    ensures text != [] && DigitsValue(text) <= IntMax ==> age == DigitsValue(text)
    ensures text == [] || DigitsValue(text) > IntMax ==> age == 0
  {
    DigitsToIntOrNull(text).GetOr(0)
  }

  /** The age shown in the field (`age.toString()`) reads back as the same age. */
  lemma AgeTextRoundTrip(age: int)
    requires 0 <= age <= IntMax
    ensures AgeEditAccepted(IntToString(age)) && AgeFromText(IntToString(age)) == age
  {
    DigitsValueOfNatToString(age);
  }

  /** `onValueChange` of the age field: a rejected edit leaves the state as it was. */
  method OnAgeValueChange(vm: FeeCalculatorViewModel, newValue: string)
    modifies vm
    ensures AgeEditAccepted(newValue) ==>
              vm.uiState == Recalculated(old(vm.uiState).(age := AgeFromText(newValue),
                                                          ageGroup := AgeBand(AgeFromText(newValue))))
    ensures !AgeEditAccepted(newValue) ==> vm.uiState == old(vm.uiState)
  {
    if newValue == [] || AllDigits(newValue) {
      vm.UpdateAge(DigitsToIntOrNull(newValue).GetOr(0));
    }
  }

  function BandLabel(ageGroup: string): string {
    if ageGroup == LessThan15 then "Below 15 years"
    else if ageGroup == Between15And18 then "Between 15-18 years"
    else "18 years & above"
  }

  /** The age-group badge, banded with the same thresholds as `updateAge`. */
  function AgeGroupLabel(age: int): (text: string)
    ensures text == BandLabel(AgeBand(age))
  {
    if age < 15 then "Below 15 years"
    else if age < 18 then "Between 15-18 years"
    else "18 years & above"
  }

  /**
   * Whether the form is on screen at all: while the schedule loads a spinner takes its
   * place, and after a failed load the error text does. The `Show…` predicates below
   * are the conditions inside the form.
   */
  predicate FormShown(s: FeeCalculatorUiState) {
    !s.isLoading && s.error == ""
  }

  /** The service type dropdown: passports and identity certificates, never a flat-fee type. */
  predicate ShowServiceTypeField(s: FeeCalculatorUiState): (shown: bool)
    ensures ShowAgeAndSchemeFields(s) ==> shown
    ensures s.applicationType == "identity_certificate" ==> shown
    ensures shown ==> s.applicationType !in FlatFeeTypes
  {
    s.applicationType == "passport" || s.applicationType == "identity_certificate"
  }

  /** The age field and the scheme field are passport-only; without an age there is no discount. */
  predicate ShowAgeAndSchemeFields(s: FeeCalculatorUiState): (shown: bool)
    ensures !shown ==> !ShouldApplyDiscount(s)
  {
    s.applicationType == "passport"
  }

  /** The pages dropdown sits in the passport block and is hidden for the under-15 group. */
  predicate ShowPagesField(s: FeeCalculatorUiState): (shown: bool)
    ensures shown ==> ShowAgeAndSchemeFields(s)
    ensures s.ageGroup == LessThan15 ==> !shown
  {
    s.applicationType == "passport" && s.ageGroup != LessThan15
  }

  /** The reissue reason sits in the passport block, under the service type, and only for reissues. */
  predicate ShowReissueReasonField(s: FeeCalculatorUiState): (shown: bool)
    ensures shown ==> ShowAgeAndSchemeFields(s) && ShowServiceTypeField(s)
    ensures shown ==> !ShouldApplyDiscount(s)
  {
    s.applicationType == "passport" && s.serviceType == "reissue"
  }

  /** The lost-status dropdown is nested under the reissue reason, for "lost_damaged" only. */
  predicate ShowLostStatusField(s: FeeCalculatorUiState): (shown: bool)
    ensures shown ==> ShowReissueReasonField(s)
    ensures ShowReissueReasonField(s) && s.reissueReason != "lost_damaged" ==> !shown
  {
    ShowReissueReasonField(s) && s.reissueReason == "lost_damaged"
  }

  /** Whatever a hidden field holds, the fee and the discount do not depend on it. */
  lemma HiddenFieldsDoNotAffectFee(s: FeeCalculatorUiState, v: string, age: int)
    ensures !ShowServiceTypeField(s) ==> CalculateFee(s.(serviceType := v)) == CalculateFee(s)
    ensures !ShowAgeAndSchemeFields(s) ==>
              CalculateFee(s.(scheme := v)) == CalculateFee(s)
              && CalculateFee(s.(age := age, ageGroup := v)) == CalculateFee(s)
              && !ShouldApplyDiscount(s.(age := age))
    ensures !ShowPagesField(s) ==> CalculateFee(s.(pages := v)) == CalculateFee(s)
    ensures !ShowReissueReasonField(s) ==> CalculateFee(s.(reissueReason := v)) == CalculateFee(s)
    ensures !ShowLostStatusField(s) ==> CalculateFee(s.(lostStatus := v)) == CalculateFee(s)
  {
    CalculateFeeFollowsPath(s);
    CalculateFeeFollowsPath(s.(serviceType := v));
    CalculateFeeFollowsPath(s.(scheme := v));
    CalculateFeeFollowsPath(s.(age := age, ageGroup := v));
    CalculateFeeFollowsPath(s.(pages := v));
    CalculateFeeFollowsPath(s.(reissueReason := v));
    CalculateFeeFollowsPath(s.(lostStatus := v));
  }

  /** Kotlin's `Double.toInt()`: rounds toward zero and saturates at the `Int` range. */
  function TruncateToInt(x: real): (n: int)
    ensures IntMin <= n <= IntMax
    ensures 0.0 <= x < (IntMax + 1) as real ==> n as real <= x < n as real + 1.0
    ensures (IntMin - 1) as real < x <= 0.0 ==> n as real - 1.0 < x <= n as real
    ensures x >= IntMax as real ==> n == IntMax
    ensures x <= IntMin as real ==> n == IntMin
  {
    if x >= 0.0 then
      (if x >= IntMax as real then IntMax else x.Floor)
    else
      (if x <= IntMin as real then IntMin else -((-x).Floor))
  }

  /** The fee line: `"₹ ${finalFee.toInt()}.00"`. */
  function FeeText(fee: real): (text: string)
    ensures |text| > 5 && text[..2] == "₹ " && text[|text| - 3..] == ".00"
  {
    "₹ " + IntToString(TruncateToInt(fee)) + ".00"
  }

  /** Between the currency sign and ".00" the fee line holds the whole rupees of the fee. */
  lemma FeeTextShowsWholeRupees(fee: real)
    requires 0.0 <= fee < (IntMax + 1) as real
    ensures var t := FeeText(fee);
            |t| > 5 && t[..2] == "₹ " && t[|t| - 3..] == ".00" && AllDigits(t[2..|t| - 3])
            && DigitsValue(t[2..|t| - 3]) as real <= fee < DigitsValue(t[2..|t| - 3]) as real + 1.0
  {
    var n := TruncateToInt(fee);
    var digits := NatToString(n);
    var t := FeeText(fee);
    assert t == "₹ " + digits + ".00";
    assert t[2..|t| - 3] == digits;
    DigitsValueOfNatToString(n);
  }

  /** `CustomDropdownField`'s text: the label paired with the current key, else the key itself. */
  function DisplayName(options: seq<(string, string)>, value: string): (name: string)
    ensures (forall i | 0 <= i < |options| :: options[i].0 != value) ==> name == value
    ensures forall i | 0 <= i < |options| ::
              options[i].0 == value && (forall j | 0 <= j < i :: options[j].0 != value) ==> name == options[i].1
  {
    if options == [] then value
    else if options[0].0 == value then options[0].1
    else DisplayName(options[1..], value)
  }
}
