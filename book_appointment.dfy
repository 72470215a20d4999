/** The book-appointment screen: a seven-field form checked against a
    declarative schema, a cascade of dependent option lists driven by the
    selected hospital and doctor, and the submit handler. */
module BookAppointment {
  import opened Common
  import Patterns

  // ---------------------------------------------------------------------------
  // The form and its schema
  // ---------------------------------------------------------------------------

  datatype Field = Hospital | Doctor | Date | TimeSlot | PaymentAmount | PaymentMethod | TransactionId

  const AllFields: set<Field> := {Hospital, Doctor, Date, TimeSlot, PaymentAmount, PaymentMethod, TransactionId}

  /** The form values; None is a field the user never touched (undefined). */
  datatype BookingForm = BookingForm(
    hospital: Option<string>, doctor: Option<string>, date: Option<string>, timeSlot: Option<string>,
    paymentAmount: Option<string>, paymentMethod: Option<string>, transactionId: Option<string>)

  const BlankForm := BookingForm(None, None, None, None, None, None, None)

  function Get(f: BookingForm, fld: Field): Option<string> {
    match fld
    case Hospital => f.hospital
    case Doctor => f.doctor
    case Date => f.date
    case TimeSlot => f.timeSlot
    case PaymentAmount => f.paymentAmount
    case PaymentMethod => f.paymentMethod
    case TransactionId => f.transactionId
  }

  /** A field's onChange: set that one value. */
  function With(f: BookingForm, fld: Field, v: string): (r: BookingForm)
    ensures Get(r, fld) == Some(v)
    ensures forall g :: g != fld ==> Get(r, g) == Get(f, g)
  {
    match fld
    case Hospital => f.(hospital := Some(v))
    case Doctor => f.(doctor := Some(v))
    case Date => f.(date := Some(v))
    case TimeSlot => f.(timeSlot := Some(v))
    case PaymentAmount => f.(paymentAmount := Some(v))
    case PaymentMethod => f.(paymentMethod := Some(v))
    case TransactionId => f.(transactionId := Some(v))
  }

  /** A required string: defined and not empty. */
  predicate Present(v: Option<string>) {
    v.Some? && Filled(v.value)
  }

  function RequiredMessage(fld: Field): string {
    match fld
    case Hospital => "Hospital selection is required"
    case Doctor => "Doctor selection is required"
    case Date => "Date is required"
    case TimeSlot => "Time slot selection is required"
    case PaymentAmount => "Payment amount is required"
    case PaymentMethod => "Payment method selection is required"
    case TransactionId => "Transaction ID is required"
  }

  const AmountMessage := "Enter a valid amount"

  /** The first failing rule of one field, if any. */
  function FieldError(f: BookingForm, fld: Field): (r: Option<string>)
    ensures r.Some? <==>
      !Present(Get(f, fld)) || (fld == PaymentAmount && !Patterns.AmountShape(Get(f, fld).value))
  {
    var v := Get(f, fld);
    if !Present(v) then Some(RequiredMessage(fld))
    else
      Patterns.AmountCorrect(v.value);
      if fld == PaymentAmount && !Patterns.IsAmount(v.value) then Some(AmountMessage)
      else None
  }

  /** The resolver's error map: one message per failing field. */
  function Errors(f: BookingForm): (r: map<Field, string>)
    ensures forall fld :: fld in r <==> FieldError(f, fld).Some?
  {
    map fld | fld in AllFields && FieldError(f, fld).Some? :: FieldError(f, fld).value
  }

  /** The schema accepts a form exactly when all seven fields are filled and the
      amount is digits, optionally followed by "." and one or two digits. */
  lemma SchemaAccepts(f: BookingForm)
    ensures Errors(f) == map[] <==>
      (forall fld :: Present(Get(f, fld))) && f.paymentAmount.Some? &&
      Patterns.AmountShape(f.paymentAmount.value)
  {
    if Errors(f) == map[] {
      forall fld ensures Present(Get(f, fld)) {
        assert fld !in Errors(f);
      }
      assert PaymentAmount !in Errors(f);
    } else {
      var fld :| fld in Errors(f);
      assert FieldError(f, fld).Some?;
    }
  }

  /** A missing or empty field is reported with its own message. */
  lemma MissingFieldReported(f: BookingForm, fld: Field)
    requires !Present(Get(f, fld))
    ensures fld in Errors(f) && Errors(f)[fld] == RequiredMessage(fld)
  {
    assert FieldError(f, fld).Some?;
  }

  /** A present amount of the wrong format is reported as such. */
  lemma BadAmountReported(f: BookingForm)
    requires Present(f.paymentAmount) && !Patterns.AmountShape(f.paymentAmount.value)
    ensures PaymentAmount in Errors(f) && Errors(f)[PaymentAmount] == AmountMessage
  {
    assert FieldError(f, PaymentAmount).Some?;
  }

  // ---------------------------------------------------------------------------
  // Option lists of the cascade
  // ---------------------------------------------------------------------------

  const HospitalOptions: seq<string> := ["General Hospital", "City Clinic", "Downtown Medical"]
  const DoctorOptions: seq<string> := ["Dr. John Doe", "Dr. Jane Smith", "Dr. Emily Johnson"]
  const DateOptions: seq<string> := ["2024-05-01", "2024-05-02", "2024-05-03"]
  const SlotOptions: seq<string> :=
    ["09:00 AM - 10:00 AM", "10:00 AM - 11:00 AM", "11:00 AM - 12:00 PM",
     "02:00 PM - 03:00 PM", "03:00 PM - 04:00 PM"]
  const PaymentMethods: seq<string> := ["CBE", "Telebirr", "Dashen Bank"]

  /** What `if (x)` on a watched value tests. */
  predicate Chosen(v: Option<string>) {
    v.Some? && Filled(v.value)
  }

  /** The lists a settled screen shows: doctors follow the hospital; dates are
      either empty or the full list and need a doctor; slots follow the doctor
      and the dates together. */
  predicate Settled(f: BookingForm, doctors: seq<string>, dates: seq<string>, slots: seq<string>) {
    doctors == (if Chosen(f.hospital) then DoctorOptions else []) &&
    (dates == [] || (dates == DateOptions && Chosen(f.doctor))) &&
    slots == (if Chosen(f.doctor) && dates != [] then SlotOptions else [])
  }

  /** The emptiness facts a settled cascade guarantees. */
  lemma SettledMeaning(f: BookingForm, doctors: seq<string>, dates: seq<string>, slots: seq<string>)
    requires Settled(f, doctors, dates, slots)
    ensures doctors != [] <==> Chosen(f.hospital)
    ensures dates != [] ==> Chosen(f.doctor)
    ensures slots != [] <==> Chosen(f.doctor) && dates != []
  {
  }

  // ---------------------------------------------------------------------------
  // The screen
  // ---------------------------------------------------------------------------

  class BookingScreen {
    var form: BookingForm
    var hospitals: seq<string>
    var doctors: seq<string>
    var dates: seq<string>
    var timeSlots: seq<string>
    var paymentMethods: seq<string>
    var errors: map<Field, string>
    var loading: bool
    var toast: Toast
    /** The route pushed after a successful booking, if any. */
    var route: Option<string>

    predicate Valid()
      reads this
    {
      Settled(form, doctors, dates, timeSlots)
    }

    /** The first render with all mount effects run: the hospitals are loaded
        and every dependent list is empty. */
    constructor ()
      ensures Valid()
      ensures form == BlankForm && hospitals == HospitalOptions && paymentMethods == PaymentMethods
      ensures doctors == [] && dates == [] && timeSlots == []
      ensures errors == map[] && !loading && toast == InitialToast && route == None
    {
      form := BlankForm;
      hospitals := HospitalOptions;
      doctors, dates, timeSlots := [], [], [];
      paymentMethods := PaymentMethods;
      errors := map[];
      loading := false;
      toast := InitialToast;
      route := None;
    }

    /** The effect on the selected hospital: load or clear the doctors and reset
        both dependent lists. */
    method HospitalEffect()
      modifies this`doctors, this`dates, this`timeSlots
      ensures doctors == (if Chosen(form.hospital) then DoctorOptions else [])
      ensures dates == [] && timeSlots == []
    {
      if Chosen(form.hospital) {
        doctors := DoctorOptions;
      } else {
        doctors := [];
      }
      dates := [];
      timeSlots := [];
    }

    /** The effect on the selected doctor: load or clear the dates and reset the
        slots. */
    method DoctorEffect()
      modifies this`dates, this`timeSlots
      ensures dates == (if Chosen(form.doctor) then DateOptions else [])
      ensures timeSlots == []
    {
      if Chosen(form.doctor) {
        dates := DateOptions;
      } else {
        dates := [];
      }
      timeSlots := [];
    }

    /** The effect on the doctor and the dates, reading the dates as they were
        when the render that triggered it happened. */
    method SlotsEffect(renderedDates: seq<string>)
      modifies this`timeSlots
      ensures timeSlots == (if Chosen(form.doctor) && renderedDates != [] then SlotOptions else [])
    {
      if Chosen(form.doctor) && |renderedDates| > 0 {
        timeSlots := SlotOptions;
      } else {
        timeSlots := [];
      }
    }

    /** One field's onChange, then the effects whose watched values changed, over
        as many renders as it takes to settle. A change of hospital leaves the
        date list empty even when a doctor is still selected. */
    method Change(fld: Field, v: string)
      requires Valid()
      modifies this`form, this`doctors, this`dates, this`timeSlots
      ensures Valid()
      ensures form == With(old(form), fld, v)
      ensures fld == Hospital && old(form.hospital) != Some(v) ==>
        doctors == (if Filled(v) then DoctorOptions else []) && dates == [] && timeSlots == []
      ensures fld == Doctor && old(form.doctor) != Some(v) ==>
        doctors == old(doctors) &&
        dates == (if Filled(v) then DateOptions else []) &&
        timeSlots == (if Filled(v) then SlotOptions else [])
      ensures !(fld == Hospital && old(form.hospital) != Some(v)) &&
              !(fld == Doctor && old(form.doctor) != Some(v)) ==>
        doctors == old(doctors) && dates == old(dates) && timeSlots == old(timeSlots)
    {
      var hospitalChanged := fld == Hospital && form.hospital != Some(v);
      var doctorChanged := fld == Doctor && form.doctor != Some(v);
      form := With(form, fld, v);
      if hospitalChanged {
        // first render: the hospital effect; the next render sees new dates
        HospitalEffect();
        SlotsEffect(dates);
      } else if doctorChanged {
        // first render: the doctor effect, then the slots effect on the old dates
        var rendered := dates;
        DoctorEffect();
        SlotsEffect(rendered);
        // next render: the dates changed, so the slots effect runs again
        SlotsEffect(dates);
      }
    }

    /** The booking handler, given data that passed the schema. A failing
        navigation falls into the catch branch; loading ends false either way. */
    method HandleBookAppointment(navigationFails: bool)
      requires Errors(form) == map[]
      modifies this`loading, this`toast, this`route
      ensures !loading
      ensures !navigationFails ==>
        toast == Shown("Appointment booked successfully!", Success) && route == Some("/booked-appointments")
      ensures navigationFails ==>
        toast == Shown("Failed to book appointment. Please try again.", Error) && route == old(route)
    {
      loading := true;
      toast := Shown("Appointment booked successfully!", Success);
      if navigationFails {
        toast := Shown("Failed to book appointment. Please try again.", Error);
      } else {
        route := Some("/booked-appointments");
      }
      loading := false;
    }

    /** The submit button: validate, record the errors, and run the handler only
        on a form the schema accepts. */
    method Submit(navigationFails: bool)
      modifies this`errors, this`loading, this`toast, this`route
      ensures errors == Errors(form)
      ensures errors != map[] ==> loading == old(loading) && toast == old(toast) && route == old(route)
      ensures errors == map[] ==> !loading
      ensures errors == map[] && !navigationFails ==>
        toast == Shown("Appointment booked successfully!", Success) && route == Some("/booked-appointments")
      ensures errors == map[] && navigationFails ==>
        toast == Shown("Failed to book appointment. Please try again.", Error) && route == old(route)
      ensures route != old(route) ==>
        (forall fld :: Present(Get(form, fld))) && form.paymentAmount.Some? &&
        Patterns.AmountShape(form.paymentAmount.value)
    {
      SchemaAccepts(form);
      errors := Errors(form);
      if errors == map[] {
        HandleBookAppointment(navigationFails);
      }
    }

    method ToastTimerFires()
      modifies this`toast
      ensures toast == old(toast).Expired()
    {
      toast := toast.Expired();
    }
  }

  /** The amount examples, through the schema's error for that field. */
  lemma AmountFieldExamples(f: BookingForm)
    ensures FieldError(f.(paymentAmount := Some("12.50")), PaymentAmount) == None
    ensures FieldError(f.(paymentAmount := Some("12.")), PaymentAmount) == Some(AmountMessage)
    ensures FieldError(f.(paymentAmount := Some("")), PaymentAmount) == Some("Payment amount is required")
  {
    Patterns.AmountExamples();
  }

  /** Selecting a hospital and then a doctor, from the first render, shows every
      option list. */
  lemma CascadeExample()
    ensures var f := With(With(BlankForm, Hospital, "City Clinic"), Doctor, "Dr. Jane Smith");
            Settled(f, DoctorOptions, DateOptions, SlotOptions)
  {
  }
}
