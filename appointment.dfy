/**
 * Appointment booking: a location, a date and a time slot are picked one at a time,
 * and the screen keeps a derived "complete" flag up to date after each pick.
 */
module Appointment {
  import opened Wrappers

  /** The fields of a Passport Seva Kendra the booking flow uses. */
  datatype Location = Location(id: string, name: string, address: string, distance: string)

  datatype TimeSlot = TimeSlot(id: string, time: string, isAvailable: bool)

  datatype AppointmentUiState = AppointmentUiState(
    selectedLocation: Option<Location>,
    selectedDate: string,
    selectedTimeSlot: Option<TimeSlot>,
    isAppointmentValid: bool,
    isAppointmentConfirmed: bool,
    showConfirmationDialog: bool)

  const DefaultAppointmentUiState := AppointmentUiState(None, "", None, false, false, false)

  /**
   * `validateAppointment`: a booking is complete once a location, a non-empty date and
   * a time slot are all chosen. The slot's own availability is not consulted.
   */
  function ValidateAppointment(location: Option<Location>, date: string, timeSlot: Option<TimeSlot>): (valid: bool)
    ensures valid ==> location.Some? && timeSlot.Some? && |date| > 0
    ensures location.None? || date == [] || timeSlot.None? ==> !valid
  {
    location.Some? && date != [] && timeSlot.Some?
  }

  /** The derived flag agrees with the three selections. */
  predicate ValidFlagCurrent(s: AppointmentUiState) {
    s.isAppointmentValid == ValidateAppointment(s.selectedLocation, s.selectedDate, s.selectedTimeSlot)
  }

  /** An unavailable slot still completes a booking as far as the flag is concerned. */
  lemma UnavailableSlotStillValid(l: Location, date: string, id: string, time: string)
    requires date != []
    ensures ValidateAppointment(Some(l), date, Some(TimeSlot(id, time, false)))
  {
  }

  class AppointmentViewModel {
    var uiState: AppointmentUiState

    predicate Valid()
      reads this
    {
      ValidFlagCurrent(uiState)
    }

    constructor ()
      ensures uiState == DefaultAppointmentUiState && Valid()
    {
      uiState := DefaultAppointmentUiState;
    }

    method SelectLocation(location: Location)
      modifies this
      ensures uiState == old(uiState).(selectedLocation := Some(location),
                                       isAppointmentValid := uiState.isAppointmentValid)
      ensures Valid()
      ensures uiState.isAppointmentValid <==> old(uiState).selectedDate != [] && old(uiState).selectedTimeSlot.Some?
    {
      uiState := uiState.(selectedLocation := Some(location),
                          isAppointmentValid := ValidateAppointment(Some(location), uiState.selectedDate,
                                                                    uiState.selectedTimeSlot));
    }

    method SelectDate(date: string)
      modifies this
      ensures uiState == old(uiState).(selectedDate := date, isAppointmentValid := uiState.isAppointmentValid)
      ensures Valid()
      ensures uiState.isAppointmentValid <==>
                old(uiState).selectedLocation.Some? && date != [] && old(uiState).selectedTimeSlot.Some?
    {
      uiState := uiState.(selectedDate := date,
                          isAppointmentValid := ValidateAppointment(uiState.selectedLocation, date,
                                                                    uiState.selectedTimeSlot));
    }

    method SelectTimeSlot(timeSlot: TimeSlot)
      modifies this
      ensures uiState == old(uiState).(selectedTimeSlot := Some(timeSlot),
                                       isAppointmentValid := uiState.isAppointmentValid)
      ensures Valid()
      ensures uiState.isAppointmentValid <==> old(uiState).selectedLocation.Some? && old(uiState).selectedDate != []
    {
      uiState := uiState.(selectedTimeSlot := Some(timeSlot),
                          isAppointmentValid := ValidateAppointment(uiState.selectedLocation, uiState.selectedDate,
                                                                    Some(timeSlot)));
    }

    method ShowConfirmationDialog()
      modifies this
      ensures uiState == old(uiState).(showConfirmationDialog := true)
      ensures old(Valid()) ==> Valid()
    {
      uiState := uiState.(showConfirmationDialog := true);
    }

    method DismissConfirmationDialog()
      modifies this
      ensures uiState == old(uiState).(showConfirmationDialog := false)
      ensures old(Valid()) ==> Valid()
    {
      uiState := uiState.(showConfirmationDialog := false);
    }

    /** Confirms whatever is selected: the view model itself does not require a complete booking. */
    method ConfirmAppointment()
      modifies this
      ensures uiState == old(uiState).(isAppointmentConfirmed := true, showConfirmationDialog := false)
      ensures old(Valid()) ==> Valid()
    {
      uiState := uiState.(isAppointmentConfirmed := true, showConfirmationDialog := false);
    }
  }

  /** Picking a location, then a date, then a time slot leaves a complete booking. */
  method BookInOrder(vm: AppointmentViewModel, l: Location, date: string, slot: TimeSlot)
    requires date != []
    modifies vm
    ensures vm.Valid() && vm.uiState.isAppointmentValid
  {
    vm.SelectLocation(l);
    vm.SelectDate(date);
    vm.SelectTimeSlot(slot);
  }
}
