/** The medical-record details screen: the route id is looked up in a
    two-record seed; a miss raises an error toast that no timer hides, and the
    screen keeps showing its loading view. The history list, whose five
    records link here, is kept only as its seed. */
module MedicalHistoryDetails {
  import opened Common

  datatype MedicalRecord = MedicalRecord(id: string, date: string, diagnosis: string,
                                         prescriptions: seq<string>, labResults: string)

  const Rec001 := MedicalRecord("rec_001", "2024-04-15", "Hypertension", ["Medication A", "Medication B"], "Blood Pressure: 140/90")
  const Rec002 := MedicalRecord("rec_002", "2024-03-10", "Diabetes", ["Medication C"], "Blood Sugar: 150 mg/dL")

  /** The records this screen can show. */
  const Seed: seq<MedicalRecord> := [Rec001, Rec002]

  /** The records of the history list, each linking here by id. */
  const HistorySeed: seq<MedicalRecord> := [
    Rec001,
    Rec002,
    MedicalRecord("rec_003", "2024-02-20", "Asthma", ["Inhaler D"], "FEV1: 80%"),
    MedicalRecord("rec_004", "2024-01-05", "Migraine", ["Painkiller E"], "No significant findings"),
    MedicalRecord("rec_005", "2023-12-22", "Allergy", ["Antihistamine F"], "Elevated IgE levels")
  ]

  const NotFoundMessage := "Medical record not found."
  const DownloadMessage := "Download functionality not implemented yet."

  function IdOf(rec: MedicalRecord): string {
    rec.id
  }

  /** `sampleMedicalRecords.find(rec => rec.id === id)`; an absent route id
      matches nothing. */
  function Lookup(id: Option<string>): Option<MedicalRecord> {
    FindByRouteId(Seed, IdOf, id)
  }

  class RecordDetailsScreen {
    var routeId: Option<string>
    var record: Option<MedicalRecord>
    var toast: Toast

    /** The effect on the route id: show the record found, or raise the
        not-found toast (the three setters, no hide step) and leave the record
        as it was. */
    method LookupEffect()
      modifies this`record, this`toast
      ensures Lookup(routeId).Some? ==> record == Lookup(routeId) && toast == old(toast)
      ensures Lookup(routeId).None? ==>
        record == old(record) && toast == Raised(old(toast), NotFoundMessage, Error)
    {
      var found := Lookup(routeId);
      if found.Some? {
        record := found;
      } else {
        toast := Raised(toast, NotFoundMessage, Error);
      }
    }

    /** The first render with the route id `id`, and its effect. */
    constructor (id: Option<string>)
      ensures routeId == id && record == Lookup(id)
      ensures record.Some? ==> toast == InitialToast
      ensures record.None? ==> toast == Raised(InitialToast, NotFoundMessage, Error) && toast.visible
      ensures record.None? ==> CurrentView() == Loading && CurrentView().ToastOnScreen() == None
    {
      routeId := id;
      record := None;
      toast := InitialToast;
      new;
      LookupEffect();
    }

    /** A new route id: the effect runs again only if the id changed. */
    method RouteChanged(id: Option<string>)
      modifies this
      ensures routeId == id
      ensures id == old(routeId) ==> record == old(record) && toast == old(toast)
      ensures id != old(routeId) && Lookup(id).Some? ==> record == Lookup(id) && toast == old(toast)
      ensures id != old(routeId) && Lookup(id).None? ==>
        record == old(record) && toast == Raised(old(toast), NotFoundMessage, Error)
    {
      if id != routeId {
        routeId := id;
        LookupEffect();
      }
    }

    /** Only the loading view while no record is set; otherwise the record,
        with the toast component showing the message while `visible` holds. */
    function CurrentView(): (v: DetailView<MedicalRecord>)
      reads this
      ensures v.Loading? <==> record.None?
      ensures v.Showing? ==> v.record == record.value
      ensures v.ToastOnScreen() == if record.Some? && toast.visible then Some(toast.message) else None
    {
      DetailViewOf(record, toast)
    }

    /** The download button: an info toast, nothing else. */
    method DownloadReport()
      modifies this`toast
      ensures toast == Shown(DownloadMessage, Info)
    {
      toast := Shown(DownloadMessage, Info);
    }

    method ToastTimerFires()
      modifies this`toast
      ensures toast == old(toast).Expired()
    {
      toast := toast.Expired();
    }
  }

  /** On a first visit that misses, the toast's visible flag stays set through
      a timer event, yet the loading view renders no toast: the message is
      not on screen at the render of that miss (a later hit shows it, see
      `MissThenHit`). */
  lemma NotFoundToastStays()
    ensures Raised(InitialToast, NotFoundMessage, Error).Expired().visible
    ensures DetailViewOf<MedicalRecord>(None, Raised(InitialToast, NotFoundMessage, Error)).ToastOnScreen() == None
  {
    NotFoundShownOnlyOverRecord<MedicalRecord>(None, InitialToast, NotFoundMessage);
  }

  /** A first visit to rec_003, which the history list links to, then a route
      change to rec_001 and a timer event: the record found is shown with
      "Medical record not found." still on screen. */
  method MissThenHit() returns (v: DetailView<MedicalRecord>)
    ensures v.Showing? && v.record == Rec001
    ensures v.ToastOnScreen() == Some(NotFoundMessage)
  {
    var screen := new RecordDetailsScreen(Some(HistorySeed[2].id));
    screen.RouteChanged(Some(Rec001.id));
    screen.ToastTimerFires();
    v := screen.CurrentView();
  }

  /** Of the five records the history list links to, only rec_001 and rec_002
      are found, and each is found as the same record. */
  lemma HistoryLinksFound(k: nat)
    requires k < |HistorySeed|
    ensures var r := Lookup(Some(HistorySeed[k].id));
            (r.Some? <==> k < 2) && (r.Some? ==> r.value == HistorySeed[k])
  {
  }
}
