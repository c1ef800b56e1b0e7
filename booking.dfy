/**
 * `ReservationViewModel`: the pending booking (one selected space and one
 * selected date) and the step that turns it into a PENDING reservation handed
 * to the dashboard store.
 */
module Booking {
  import opened Wrappers
  import opened Text
  import opened Model
  import opened Dashboard

  const FillAllFields := "Por favor complete todos los campos"

  /** The reservation `createReservation` builds at wall-clock time `nowMillis`:
      its id is that time in decimal. */
  function PendingReservation(space: Space, date: Timestamp, userId: string, nowMillis: nat): (r: Reservation)
    ensures r.status == PENDING && r.spaceId == space.id && r.spaceName == space.name
    ensures r.userId == userId && r.dateTime == date
    ensures (forall i | 0 <= i < |r.id| :: IsAsciiDigit(r.id[i])) && DecimalValue(r.id) == nowMillis
  {
    Reservation(DecimalString(nowMillis), space.id, space.name, userId, date, PENDING)
  }

  class ReservationViewModel {
    var selectedSpace: Option<Space>
    var selectedDate: Option<Timestamp>
    var isLoading: bool
    var errorMessage: Option<string>
    /** The `lateinit` store: `null` until it is attached. */
    var dashboard: DashboardViewModel?

    constructor ()
      ensures selectedSpace == None && selectedDate == None
      ensures !isLoading && errorMessage == None && dashboard == null
    {
      selectedSpace, selectedDate := None, None;
      isLoading, errorMessage := false, None;
      dashboard := null;
    }

    /** The start-up wiring that hands the shared store to this view model. */
    method AttachDashboard(store: DashboardViewModel)
      modifies this`dashboard
      ensures dashboard == store
    {
      dashboard := store;
    }

    /** `setSelectedSpace` */
    method SetSelectedSpace(space: Space)
      modifies this`selectedSpace
      ensures selectedSpace == Some(space)
    {
      selectedSpace := Some(space);
    }

    /** `setSelectedDate` */
    method SetSelectedDate(date: Timestamp)
      modifies this`selectedDate
      ensures selectedDate == Some(date)
    {
      selectedDate := Some(date);
    }

    /** `createReservation`: refuses an incomplete selection; otherwise builds
        a PENDING reservation for `userId`, adds it to the attached store and
        clears the form. `nowMillis` is the clock read that names the
        reservation. */
    method CreateReservation(userId: string, nowMillis: nat) returns (ok: bool)
      modifies this`selectedSpace, this`selectedDate, this`errorMessage, dashboard
      ensures ok <==> old(selectedSpace).Some? && old(selectedDate).Some?
      ensures !ok ==>
                && errorMessage == Some(FillAllFields)
                && selectedSpace == old(selectedSpace) && selectedDate == old(selectedDate)
                && (dashboard != null ==> unchanged(dashboard))
      ensures ok ==> selectedSpace == None && selectedDate == None && errorMessage == None
      ensures ok && dashboard != null ==>
                var r := PendingReservation(old(selectedSpace).value, old(selectedDate).value, userId, nowMillis);
                && dashboard.reservations == old(dashboard.reservations) + [r]
                && dashboard.spaces == old(dashboard.spaces)
                && dashboard.isLoading == old(dashboard.isLoading)
                && dashboard.isAdmin == old(dashboard.isAdmin)
                && dashboard.allActiveReservations == old(dashboard.allActiveReservations)
                && (dashboard.isAdmin ==>
                      dashboard.spaceStatistics == Tally(dashboard.reservations + dashboard.allActiveReservations))
                && (!dashboard.isAdmin ==> dashboard.spaceStatistics == old(dashboard.spaceStatistics))
    {
      if selectedSpace.None? || selectedDate.None? {
        errorMessage := Some(FillAllFields);
        return false;
      }
      var reservation := PendingReservation(selectedSpace.value, selectedDate.value, userId, nowMillis);
      if dashboard != null {
        dashboard.AddReservation(reservation);
      }
      ClearForm();
      return true;
    }

    /** `updateReservation`: succeeds exactly when a date is selected, and
        changes nothing. */
    method UpdateReservation(reservation: Reservation) returns (ok: bool)
      ensures ok <==> selectedDate.Some?
    {
      ok := selectedDate.Some?;
    }

    /** `clearForm` */
    method ClearForm()
      modifies this`selectedSpace, this`selectedDate, this`errorMessage
      ensures selectedSpace == None && selectedDate == None && errorMessage == None
    {
      selectedSpace, selectedDate, errorMessage := None, None, None;
    }
  }

  /** The booking flow: without a selection the first attempt fails; after
      choosing a space and a date it succeeds and the store gains one PENDING
      reservation for that space and date; the form is then empty, so an
      immediate second attempt fails again. */
  method BookingFlow(space: Space, date: Timestamp, now: Timestamp, nowMillis: nat)
    returns (first: bool, second: bool, third: bool, booked: seq<Reservation>)
    ensures !first && second && !third
    ensures booked == MockReservations(now) + [PendingReservation(space, date, "u1", nowMillis)]
    ensures booked[|booked| - 1].status == PENDING && booked[|booked| - 1].spaceId == space.id
  {
    var store := new DashboardViewModel(now);
    var form := new ReservationViewModel();
    form.AttachDashboard(store);
    first := form.CreateReservation("u1", nowMillis);
    form.SetSelectedSpace(space);
    form.SetSelectedDate(date);
    second := form.CreateReservation("u1", nowMillis);
    third := form.CreateReservation("u1", nowMillis);
    booked := store.reservations;
  }
}
