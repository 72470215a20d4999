/** The institution-details screen: the route id is looked up in a two-record
    seed; a miss raises an error toast that no timer hides, and the screen keeps
    showing its loading view. */
module InstitutionDetails {
  import opened Common
  import InstitutionsFilter

  datatype Institution = Institution(id: string, name: string, address: string, phoneNumber: string, services: seq<string>)

  const Seed: seq<Institution> := [
    Institution("inst_001", "Addis Ababa General Hospital", "Kirkos, Addis Ababa", "+251-113-123456",
                ["Emergency", "Surgery", "Cardiology"]),
    Institution("inst_002", "Mekelle Referral Hospital", "Mekelle, Tigray", "+251-141-654321",
                ["Emergency", "Trauma Care"])
  ]

  const NotFoundMessage := "Institution not found."

  function IdOf(inst: Institution): string {
    inst.id
  }

  /** `sampleInstitutions.find(inst => inst.id === id)`; an absent route id
      matches nothing. */
  function Lookup(id: Option<string>): Option<Institution> {
    FindByRouteId(Seed, IdOf, id)
  }

  class InstitutionDetailsScreen {
    var routeId: Option<string>
    var institution: Option<Institution>
    var toast: Toast

    /** The effect on the route id: show the record found, or raise the
        not-found toast (the three setters, no hide step) and leave the
        institution as it was. */
    method LookupEffect()
      modifies this`institution, this`toast
      ensures Lookup(routeId).Some? ==> institution == Lookup(routeId) && toast == old(toast)
      ensures Lookup(routeId).None? ==>
        institution == old(institution) && toast == Raised(old(toast), NotFoundMessage, Error)
    {
      var found := Lookup(routeId);
      if found.Some? {
        institution := found;
      } else {
        toast := Raised(toast, NotFoundMessage, Error);
      }
    }

    /** The first render with the route id `id`, and its effect. */
    constructor (id: Option<string>)
      ensures routeId == id && institution == Lookup(id)
      ensures institution.Some? ==> toast == InitialToast
      ensures institution.None? ==> toast == Raised(InitialToast, NotFoundMessage, Error) && toast.visible
      ensures institution.None? ==> CurrentView() == Loading && CurrentView().ToastOnScreen() == None
    {
      routeId := id;
      institution := None;
      toast := InitialToast;
      new;
      LookupEffect();
    }

    /** A new route id: the effect runs again only if the id changed. */
    method RouteChanged(id: Option<string>)
      modifies this
      ensures routeId == id
      ensures id == old(routeId) ==> institution == old(institution) && toast == old(toast)
      ensures id != old(routeId) && Lookup(id).Some? ==> institution == Lookup(id) && toast == old(toast)
      ensures id != old(routeId) && Lookup(id).None? ==>
        institution == old(institution) && toast == Raised(old(toast), NotFoundMessage, Error)
    {
      if id != routeId {
        routeId := id;
        LookupEffect();
      }
    }

    /** Only the loading view while no institution is set; otherwise the institution,
        with the toast component showing the message while `visible` holds. */
    function CurrentView(): (v: DetailView<Institution>)
      reads this
      ensures v.Loading? <==> institution.None?
      ensures v.Showing? ==> v.record == institution.value
      ensures v.ToastOnScreen() == if institution.Some? && toast.visible then Some(toast.message) else None
    {
      DetailViewOf(institution, toast)
    }
  }

  /** On a first visit that misses, the toast's visible flag stays set through
      a timer event, yet the loading view renders no toast: the message is
      not on screen at the render of that miss (a later hit shows it, see
      `MissThenHit`). */
  lemma NotFoundToastStays()
    ensures Raised(InitialToast, NotFoundMessage, Error).Expired().visible
    ensures DetailViewOf<Institution>(None, Raised(InitialToast, NotFoundMessage, Error)).ToastOnScreen() == None
  {
    NotFoundShownOnlyOverRecord<Institution>(None, InitialToast, NotFoundMessage);
  }

  /** A first visit to an unknown id, then a route change to inst_001: the
      record found is shown with "Institution not found." still on screen. */
  method MissThenHit() returns (v: DetailView<Institution>)
    ensures v.Showing? && v.record == Seed[0]
    ensures v.ToastOnScreen() == Some(NotFoundMessage)
  {
    var screen := new InstitutionDetailsScreen(Some("inst_999"));
    screen.RouteChanged(Some("inst_001"));
    v := screen.CurrentView();
  }

  /** The filter screen links to twenty institutions; all but the first two
      take the not-found path. */
  lemma FilterLinksMissing(k: nat)
    requires 2 <= k < |InstitutionsFilter.Seed|
    ensures Lookup(Some(InstitutionsFilter.Seed[k].id)) == None
  {
  }

  /** The first two institutions the filter screen links to are found, as the
      record with the same id and name. */
  lemma FilterLinksPresent(k: nat)
    requires k < 2
    ensures var r := Lookup(Some(InstitutionsFilter.Seed[k].id));
            r == Some(Seed[k]) && r.value.name == InstitutionsFilter.Seed[k].name
  {
  }
}
