/** The booked-appointments screen: a five-record seed loaded after a simulated
    delay, cancel (guarded by the current status and by the user's confirmation)
    and reschedule (through a modal with a date and a time-slot picker). */
module BookedAppointments {
  import opened Common

  datatype Status = Confirmed | Pending | Cancelled

  datatype Appointment = Appointment(id: string, doctor: string, date: string, timeSlot: string, status: Status)

  const Seed: seq<Appointment> := [
    Appointment("app_001", "Dr. John Doe", "2024-05-01", "10:00 AM - 11:00 AM", Confirmed),
    Appointment("app_002", "Dr. Jane Smith", "2024-05-02", "2:00 PM - 3:00 PM", Pending),
    Appointment("app_003", "Dr. Emily Johnson", "2024-05-03", "11:00 AM - 12:00 PM", Cancelled),
    Appointment("app_004", "Dr. Michael Brown", "2024-05-04", "1:00 PM - 2:00 PM", Confirmed),
    Appointment("app_005", "Dr. Sarah Lee", "2024-05-05", "3:00 PM - 4:00 PM", Pending)
  ]

  const AvailableDates: seq<string> := ["2024-05-06", "2024-05-07", "2024-05-08", "2024-05-09", "2024-05-10"]

  const AvailableTimeSlots: seq<string> :=
    ["09:00 AM - 10:00 AM", "10:00 AM - 11:00 AM", "11:00 AM - 12:00 PM",
     "01:00 PM - 02:00 PM", "02:00 PM - 03:00 PM", "03:00 PM - 04:00 PM"]

  // ---------------------------------------------------------------------------
  // The status machine and the update-by-id map
  // ---------------------------------------------------------------------------

  /** What the two handlers do to the record they target. */
  datatype Change = Cancel | Reschedule(date: string, timeSlot: string)

  /** Status after a change: cancelling gives Cancelled, rescheduling gives
      Pending whatever the status was before. */
  function NextStatus(s: Status, c: Change): (r: Status)
    ensures r != Confirmed
    ensures r == Cancelled <==> c.Cancel?
  {
    match c
    case Cancel => Cancelled
    case Reschedule(_, _) => Pending
  }

  /** The spread-update of one record: `{ ...app, status }` or
      `{ ...app, date, timeSlot, status }`. */
  function Apply(a: Appointment, c: Change): (r: Appointment)
    ensures r.id == a.id && r.doctor == a.doctor && r.status == NextStatus(a.status, c)
    ensures c.Cancel? ==> r.date == a.date && r.timeSlot == a.timeSlot
    ensures c.Reschedule? ==> r.date == c.date && r.timeSlot == c.timeSlot
  {
    match c
    case Cancel => a.(status := Cancelled)
    case Reschedule(d, t) => a.(date := d, timeSlot := t, status := Pending)
  }

  /** `apps.map(app => app.id === id ? change(app) : app)`. */
  function UpdateById(apps: seq<Appointment>, id: string, c: Change): (r: seq<Appointment>)
    ensures |r| == |apps|
  {
    if apps == [] then []
    else [if apps[0].id == id then Apply(apps[0], c) else apps[0]] + UpdateById(apps[1..], id, c)
  }

  /** The update keeps length and order, changes exactly the records carrying
      the id, and leaves every other record as it was. */
  lemma {:induction false} UpdateByIdAt(apps: seq<Appointment>, id: string, c: Change)
    ensures |UpdateById(apps, id, c)| == |apps|
    ensures forall i :: 0 <= i < |apps| ==>
      UpdateById(apps, id, c)[i] == if apps[i].id == id then Apply(apps[i], c) else apps[i]
  {
    if apps != [] {
      UpdateByIdAt(apps[1..], id, c);
      assert forall i :: 1 <= i < |apps| ==> apps[i] == apps[1..][i - 1];
    }
  }

  /** The sequence of ids is unchanged by either handler. */
  lemma IdsPreserved(apps: seq<Appointment>, id: string, c: Change, i: nat)
    requires i < |apps|
    ensures |UpdateById(apps, id, c)| == |apps| && UpdateById(apps, id, c)[i].id == apps[i].id
  {
    UpdateByIdAt(apps, id, c);
  }

  /** An id that no record carries leaves the list as it was. */
  lemma {:induction false} UpdateUnknownId(apps: seq<Appointment>, id: string, c: Change)
    requires forall i :: 0 <= i < |apps| ==> apps[i].id != id
    ensures UpdateById(apps, id, c) == apps
  {
    if apps != [] {
      assert forall i :: 1 <= i < |apps| ==> apps[1..][i - 1] == apps[i];
      UpdateUnknownId(apps[1..], id, c);
    }
  }

  /** Cancelling twice is cancelling once. */
  lemma CancelIdempotent(apps: seq<Appointment>, id: string)
    ensures UpdateById(UpdateById(apps, id, Cancel), id, Cancel) == UpdateById(apps, id, Cancel)
  {
    var once := UpdateById(apps, id, Cancel);
    UpdateByIdAt(apps, id, Cancel);
    UpdateByIdAt(once, id, Cancel);
  }

  /** A reschedule moves a record to Pending with both new values set together,
      even when it had been cancelled. */
  lemma RescheduleRevivesCancelled(apps: seq<Appointment>, i: nat, d: string, t: string)
    requires i < |apps| && apps[i].status == Cancelled
    ensures |UpdateById(apps, apps[i].id, Reschedule(d, t))| == |apps|
    ensures var r := UpdateById(apps, apps[i].id, Reschedule(d, t))[i];
            r.status == Pending && r.date == d && r.timeSlot == t && r.id == apps[i].id
  {
    UpdateByIdAt(apps, apps[i].id, Reschedule(d, t));
  }

  // ---------------------------------------------------------------------------
  // The screen
  // ---------------------------------------------------------------------------

  class AppointmentsScreen {
    var appointments: seq<Appointment>
    var toast: Toast
    var selected: Option<Appointment>
    var rescheduleVisible: bool
    var loading: bool
    var newDate: string
    var newTimeSlot: string

    /** The initial state with the mount effect started: the list is empty and
        loading until the simulated fetch completes. */
    constructor ()
      ensures appointments == [] && loading && toast == InitialToast
      ensures selected == None && !rescheduleVisible
      ensures newDate == AvailableDates[0] && newTimeSlot == AvailableTimeSlots[0]
    {
      appointments := [];
      toast := InitialToast;
      selected := None;
      rescheduleVisible := false;
      loading := true;
      newDate, newTimeSlot := AvailableDates[0], AvailableTimeSlots[0];
    }

    /** The simulated fetch completes. */
    method LoadFinished()
      modifies this`appointments, this`loading
      ensures appointments == Seed && !loading
    {
      appointments := Seed;
      loading := false;
    }

    /** Open the reschedule modal for `a`, with both pickers at their first entry. */
    method OpenReschedule(a: Appointment)
      modifies this`selected, this`newDate, this`newTimeSlot, this`rescheduleVisible
      ensures selected == Some(a) && rescheduleVisible
      ensures newDate == AvailableDates[0] && newTimeSlot == AvailableTimeSlots[0]
    {
      selected := Some(a);
      newDate := AvailableDates[0];
      newTimeSlot := AvailableTimeSlots[0];
      rescheduleVisible := true;
    }

    method PickDate(d: string)
      modifies this`newDate
      ensures newDate == d
    {
      newDate := d;
    }

    method PickTimeSlot(t: string)
      modifies this`newTimeSlot
      ensures newTimeSlot == t
    {
      newTimeSlot := t;
    }

    /** Dismissing the modal hides it; the selection stays. */
    method CloseReschedule()
      modifies this`rescheduleVisible
      ensures !rescheduleVisible
    {
      rescheduleVisible := false;
    }

    /** Cancel `a` (the record as the list showed it). An already-cancelled record
        only gets an info toast; declining the confirmation changes nothing;
        a confirmed cancel sets Cancelled on the records with that id. */
    method CancelAppointment(a: Appointment, confirmed: bool)
      modifies this`appointments, this`toast, this`loading
      ensures a.status == Cancelled ==>
        appointments == old(appointments) && loading == old(loading) &&
        toast == Shown("Appointment is already cancelled.", Info)
      ensures a.status != Cancelled && !confirmed ==>
        appointments == old(appointments) && loading == old(loading) && toast == old(toast)
      ensures a.status != Cancelled && confirmed ==>
        appointments == UpdateById(old(appointments), a.id, Cancel) && !loading &&
        toast == Shown("Appointment cancelled successfully.", Success)
      ensures |appointments| == |old(appointments)|
    {
      UpdateByIdAt(appointments, a.id, Cancel);
      if a.status == Cancelled {
        toast := Shown("Appointment is already cancelled.", Info);
        return;
      }
      if confirmed {
        loading := true;
        appointments := UpdateById(appointments, a.id, Cancel);
        toast := Shown("Appointment cancelled successfully.", Success);
        loading := false;
      }
    }

    /** Submit the reschedule modal. Without a selection nothing happens; with an
        empty date or slot an error toast is shown; otherwise the selected record
        gets the new date, slot and Pending, the modal closes and the selection
        is cleared. */
    method SubmitReschedule()
      modifies this`appointments, this`toast, this`loading, this`rescheduleVisible, this`selected
      ensures old(selected).None? ==>
        appointments == old(appointments) && toast == old(toast) && loading == old(loading) &&
        rescheduleVisible == old(rescheduleVisible) && selected == old(selected)
      ensures old(selected).Some? && (newDate == "" || newTimeSlot == "") ==>
        appointments == old(appointments) && loading == old(loading) &&
        rescheduleVisible == old(rescheduleVisible) && selected == old(selected) &&
        toast == Shown("Please select both date and time slot.", Error)
      ensures old(selected).Some? && newDate != "" && newTimeSlot != "" ==>
        appointments == UpdateById(old(appointments), old(selected).value.id, Reschedule(newDate, newTimeSlot)) &&
        toast == Shown("Appointment rescheduled successfully.", Success) &&
        !rescheduleVisible && selected == None && !loading
      ensures |appointments| == |old(appointments)|
    {
      if selected.None? {
        return;
      }
      UpdateByIdAt(appointments, selected.value.id, Reschedule(newDate, newTimeSlot));
      if newDate == "" || newTimeSlot == "" {
        toast := Shown("Please select both date and time slot.", Error);
        return;
      }
      loading := true;
      appointments := UpdateById(appointments, selected.value.id, Reschedule(newDate, newTimeSlot));
      toast := Shown("Appointment rescheduled successfully.", Success);
      rescheduleVisible := false;
      selected := None;
      loading := false;
    }

    method ToastTimerFires()
      modifies this`toast
      ensures toast == old(toast).Expired()
    {
      toast := toast.Expired();
    }
  }

  /** On the seed, cancelling app_001 changes its status only, and rescheduling the
      cancelled app_003 makes it Pending. */
  lemma SeedExamples()
    ensures UpdateById(Seed, "app_001", Cancel)[0].status == Cancelled
    ensures UpdateById(Seed, "app_001", Cancel)[1..] == Seed[1..]
    ensures UpdateById(Seed, "app_003", Reschedule("2024-05-06", "09:00 AM - 10:00 AM"))[2]
         == Appointment("app_003", "Dr. Emily Johnson", "2024-05-06", "09:00 AM - 10:00 AM", Pending)
  {
    UpdateByIdAt(Seed, "app_001", Cancel);
    UpdateByIdAt(Seed, "app_003", Reschedule("2024-05-06", "09:00 AM - 10:00 AM"));
  }
}
