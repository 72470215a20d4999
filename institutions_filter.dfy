/** The emergency-institutions filter screen: a 20-record seed, the picker
    option lists derived from it once on mount, and the Apply Filter handler,
    which narrows the seed by up to three criteria in turn. */
module InstitutionsFilter {
  import opened Common

  /** An institution as the filter screen knows it (the displayed distance is
      not part of the model). */
  datatype Institution = Institution(
    id: string, name: string, specialty: string, services: seq<string>, availability: string)

  /** The 20 seed records, in the order of the source array. */
  const Inst001 := Institution("inst_001", "Addis Ababa General Hospital", "Cardiology", ["Emergency", "Surgery"], "Open Now")
  const Inst002 := Institution("inst_002", "Mekelle Referral Hospital", "Trauma Care", ["Emergency"], "24/7")
  const Inst003 := Institution("inst_003", "Gondar University Hospital", "Neurology", ["Emergency", "Neurology"], "Open Now")
  const Inst004 := Institution("inst_004", "Bahir Dar Medical Center", "Orthopedics", ["Emergency", "Orthopedics"], "24/7")
  const Inst005 := Institution("inst_005", "Dire Dawa Health Institute", "Pediatrics", ["Emergency", "Pediatrics"], "Open Now")
  const Inst006 := Institution("inst_006", "Harar Regional Hospital", "Gastroenterology", ["Emergency", "Gastroenterology"], "24/7")
  const Inst007 := Institution("inst_007", "Jimma University Medical Center", "Oncology", ["Emergency", "Oncology"], "Open Now")
  const Inst008 := Institution("inst_008", "Hawassa Comprehensive Hospital", "Endocrinology", ["Emergency", "Endocrinology"], "24/7")
  const Inst009 := Institution("inst_009", "Shashemene General Hospital", "Dermatology", ["Emergency", "Dermatology"], "Open Now")
  const Inst010 := Institution("inst_010", "Assosa Referral Hospital", "Ophthalmology", ["Emergency", "Ophthalmology"], "24/7")
  const Inst011 := Institution("inst_011", "Wolaita Sodo Comprehensive Hospital", "Nephrology", ["Emergency", "Nephrology"], "Open Now")
  const Inst012 := Institution("inst_012", "Awassa Regional Referral Hospital", "Hematology", ["Emergency", "Hematology"], "24/7")
  const Inst013 := Institution("inst_013", "Arba Minch General Hospital", "Psychiatry", ["Emergency", "Psychiatry"], "Open Now")
  const Inst014 := Institution("inst_014", "Goba University Hospital", "Pulmonology", ["Emergency", "Pulmonology"], "24/7")
  const Inst015 := Institution("inst_015", "Bale Regional Hospital", "Urology", ["Emergency", "Urology"], "Open Now")
  const Inst016 := Institution("inst_016", "Harari Health Center", "Rheumatology", ["Emergency", "Rheumatology"], "24/7")
  const Inst017 := Institution("inst_017", "Debre Birhan Hospital", "Otolaryngology", ["Emergency", "Otolaryngology"], "Open Now")
  const Inst018 := Institution("inst_018", "Dessie Referral Hospital", "Geriatrics", ["Emergency", "Geriatrics"], "24/7")
  const Inst019 := Institution("inst_019", "Sodo General Hospital", "Allergology", ["Emergency", "Allergology"], "Open Now")
  const Inst020 := Institution("inst_020", "Jijiga Regional Hospital", "Immunology", ["Emergency", "Immunology"], "24/7")

  const Seed: seq<Institution> :=
    [Inst001] + [Inst002] + [Inst003] + [Inst004] + [Inst005] + [Inst006] + [Inst007]
    + [Inst008] + [Inst009] + [Inst010] + [Inst011] + [Inst012] + [Inst013] + [Inst014]
    + [Inst015] + [Inst016] + [Inst017] + [Inst018] + [Inst019] + [Inst020]

  const AvailabilityOptions: seq<string> := ["Open Now", "24/7"]

  // ---------------------------------------------------------------------------
  // Option lists: Array.from(new Set(...)) over the seed
  // ---------------------------------------------------------------------------

  function Specialties(s: seq<Institution>): (r: seq<string>)
    ensures |r| == |s| && forall i :: 0 <= i < |s| ==> r[i] == s[i].specialty
  {
    if s == [] then [] else [s[0].specialty] + Specialties(s[1..])
  }

  /** All services of all institutions, concatenated in order (flatMap). */
  function AllServices(s: seq<Institution>): (r: seq<string>)
    ensures forall v :: v in r <==> exists i :: 0 <= i < |s| && v in s[i].services
  {
    if s == [] then []
    else
      var rest := AllServices(s[1..]);
      assert forall i :: 1 <= i < |s| ==> s[i] == s[1..][i - 1];
      assert forall v :: v in rest ==> exists i :: 0 <= i < |s| && v in s[i].services by {
        forall v | v in rest ensures exists i :: 0 <= i < |s| && v in s[i].services {
          var j :| 0 <= j < |s[1..]| && v in s[1..][j].services;
          assert v in s[j + 1].services;
        }
      }
      s[0].services + rest
  }

  predicate NoDuplicates(s: seq<string>) {
    forall i, j :: 0 <= i < j < |s| ==> s[i] != s[j]
  }

  /** Insertion-ordered set semantics: keep each value at its first occurrence. */
  function Dedup(s: seq<string>): (r: seq<string>)
    ensures forall x :: x in r <==> x in s
    ensures NoDuplicates(r)
  {
    if s == [] then []
    else
      var d := Dedup(s[..|s| - 1]);
      assert forall x :: x in s[..|s| - 1] ==> x in s;
      assert forall x :: x in s ==> x in s[..|s| - 1] || x == s[|s| - 1];
      if s[|s| - 1] in d then d else d + [s[|s| - 1]]
  }

  function FirstIndex(s: seq<string>, x: string): (k: nat)
    requires x in s
    ensures k < |s| && s[k] == x && forall j :: 0 <= j < k ==> s[j] != x
  {
    if s[0] == x then 0
    else
      var k := 1 + FirstIndex(s[1..], x);
      assert forall j :: 1 <= j < k ==> s[j] == s[1..][j - 1];
      k
  }

  lemma FirstIndexPrefix(p: seq<string>, y: string, x: string)
    requires x in p
    ensures FirstIndex(p + [y], x) == FirstIndex(p, x)
  {
    var s := p + [y];
    var f, g := FirstIndex(s, x), FirstIndex(p, x);
    assert s[g] == x;
  }

  /** The option list is in first-occurrence order of the source sequence. */
  lemma {:induction false} DedupFirstOccurrenceOrder(s: seq<string>, i: nat, j: nat)
    requires i < j < |Dedup(s)|
    ensures FirstIndex(s, Dedup(s)[i]) < FirstIndex(s, Dedup(s)[j])
    decreases |s|
  {
    var p, y := s[..|s| - 1], s[|s| - 1];
    assert s == p + [y];
    var d := Dedup(p);
    var x1, x2 := Dedup(s)[i], Dedup(s)[j];
    assert x1 in d;
    FirstIndexPrefix(p, y, x1);
    if j < |d| {
      DedupFirstOccurrenceOrder(p, i, j);
      FirstIndexPrefix(p, y, x2);
    } else {
      assert x2 == y && y !in p;
      assert FirstIndex(s, y) == |p|;
    }
  }

  /** A duplicate-free sequence is its own option list. */
  lemma {:induction false} DedupOfDistinct(s: seq<string>)
    requires NoDuplicates(s)
    ensures Dedup(s) == s
    decreases |s|
  {
    if s != [] {
      var p := s[..|s| - 1];
      DedupOfDistinct(p);
      assert s[|s| - 1] !in p;
      assert s == p + [s[|s| - 1]];
    }
  }

  // ---------------------------------------------------------------------------
  // Filtering
  // ---------------------------------------------------------------------------

  /** One `.filter` step of the Apply Filter handler. */
  datatype Criterion = SpecialtyIs(specialty: string) | OffersService(service: string) | AvailabilityIs(availability: string)

  predicate Satisfies(inst: Institution, k: Criterion) {
    match k
    case SpecialtyIs(v) => inst.specialty == v
    case OffersService(v) => v in inst.services
    case AvailabilityIs(v) => inst.availability == v
  }

  /** `results.filter(...)` for one criterion. */
  function Keep(s: seq<Institution>, k: Criterion): (r: seq<Institution>)
    ensures |r| <= |s|
  {
    if s == [] then []
    else if Satisfies(s[0], k) then [s[0]] + Keep(s[1..], k)
    else Keep(s[1..], k)
  }

  /** A filter step keeps, in order, each record meeting its criterion exactly
      as often as `s` holds it, and no other record. */
  lemma {:induction false} KeepCorrect(s: seq<Institution>, k: Criterion)
    ensures IsSubseq(Keep(s, k), s)
    ensures forall x :: multiset(Keep(s, k))[x] == if Satisfies(x, k) then multiset(s)[x] else 0
    ensures forall x :: x in Keep(s, k) <==> x in s && Satisfies(x, k)
  {
    KeepCounts(s, k);
    forall x ensures x in Keep(s, k) <==> x in s && Satisfies(x, k) {
      assert x in Keep(s, k) <==> multiset(Keep(s, k))[x] > 0;
      assert x in s <==> multiset(s)[x] > 0;
    }
  }

  lemma {:induction false} KeepCounts(s: seq<Institution>, k: Criterion)
    ensures IsSubseq(Keep(s, k), s)
    ensures forall x :: multiset(Keep(s, k))[x] == if Satisfies(x, k) then multiset(s)[x] else 0
  {
    if s != [] {
      KeepCounts(s[1..], k);
      assert s == [s[0]] + s[1..];
    }
  }

  /** The three picker values; the empty string is "All ...". */
  datatype Selection = Selection(specialty: string, service: string, availability: string)

  const NoSelection := Selection("", "", "")

  /** An institution matches a selection when it meets every non-empty criterion. */
  predicate Matches(inst: Institution, sel: Selection) {
    && (sel.specialty == "" || inst.specialty == sel.specialty)
    && (sel.service == "" || sel.service in inst.services)
    && (sel.availability == "" || inst.availability == sel.availability)
  }

  /** Reference definition of the filter result: the records of `s` that match
      every non-empty criterion, in the order of `s`. */
  function Matching(s: seq<Institution>, sel: Selection): seq<Institution> {
    if s == [] then []
    else if Matches(s[0], sel) then [s[0]] + Matching(s[1..], sel)
    else Matching(s[1..], sel)
  }

  /** The result is an order-preserving subsequence of `s` that holds each
      matching record exactly as often as `s` does, and no other record. */
  lemma {:induction false} MatchingCorrect(s: seq<Institution>, sel: Selection)
    ensures IsSubseq(Matching(s, sel), s)
    ensures forall x :: multiset(Matching(s, sel))[x] == if Matches(x, sel) then multiset(s)[x] else 0
  {
    if s != [] {
      MatchingCorrect(s[1..], sel);
      assert s == [s[0]] + s[1..];
    }
  }

  lemma MatchingMembers(s: seq<Institution>, sel: Selection, x: Institution)
    ensures x in Matching(s, sel) <==> x in s && Matches(x, sel)
  {
    MatchingCorrect(s, sel);
    assert x in Matching(s, sel) <==> multiset(Matching(s, sel))[x] > 0;
    assert x in s <==> multiset(s)[x] > 0;
  }

  /** The picker value a criterion stands for. */
  function Value(k: Criterion): string {
    match k
    case SpecialtyIs(v) => v
    case OffersService(v) => v
    case AvailabilityIs(v) => v
  }

  /** The criterion's picker is at "All ..." in `sel`. */
  predicate Unset(sel: Selection, k: Criterion) {
    match k
    case SpecialtyIs(_) => sel.specialty == ""
    case OffersService(_) => sel.service == ""
    case AvailabilityIs(_) => sel.availability == ""
  }

  /** `sel` with the criterion's picker set to its value. */
  function Refine(sel: Selection, k: Criterion): Selection {
    match k
    case SpecialtyIs(v) => sel.(specialty := v)
    case OffersService(v) => sel.(service := v)
    case AvailabilityIs(v) => sel.(availability := v)
  }

  /** With all three pickers at "All ...", every record is kept, in order. */
  lemma {:induction false} NoSelectionKeepsAll(s: seq<Institution>)
    ensures Matching(s, NoSelection) == s
  {
    if s != [] { NoSelectionKeepsAll(s[1..]); }
  }

  /** One more filter step on a matching result is matching the refined selection. */
  lemma {:induction false} KeepRefines(s: seq<Institution>, sel: Selection, k: Criterion)
    requires Value(k) != "" && Unset(sel, k)
    ensures Keep(Matching(s, sel), k) == Matching(s, Refine(sel, k))
  {
    if s != [] {
      KeepRefines(s[1..], sel, k);
    }
  }

  /** Adding a criterion never enlarges the result: it is a subsequence of the old one. */
  lemma {:induction false} RefineNarrows(s: seq<Institution>, sel: Selection, k: Criterion)
    requires Unset(sel, k)
    ensures IsSubseq(Matching(s, Refine(sel, k)), Matching(s, sel))
    ensures |Matching(s, Refine(sel, k))| <= |Matching(s, sel)|
  {
    if Value(k) == "" {
      assert Refine(sel, k) == sel;
      SubseqRefl(Matching(s, sel));
    } else {
      KeepRefines(s, sel, k);
      KeepCorrect(Matching(s, sel), k);
    }
    SubseqLength(Matching(s, Refine(sel, k)), Matching(s, sel));
  }

  /** The steps commute: the order in which criteria are applied does not matter. */
  lemma {:induction false} KeepCommutes(s: seq<Institution>, a: Criterion, b: Criterion)
    ensures Keep(Keep(s, a), b) == Keep(Keep(s, b), a)
  {
    if s != [] { KeepCommutes(s[1..], a, b); }
  }

  // ---------------------------------------------------------------------------
  // Facts about the seed
  // ---------------------------------------------------------------------------

  /** The contribution of one record to a filter result. */
  function Pick(x: Institution, sel: Selection): seq<Institution> {
    if Matches(x, sel) then [x] else []
  }
  /** One step of the filter: the first record's contribution, then the rest. */
  lemma MatchingUnfold(s: seq<Institution>, sel: Selection)
    requires s != []
    ensures Matching(s, sel) == Pick(s[0], sel) + Matching(s[1..], sel)
  {
  }

  /** Filtering distributes over concatenation. */
  lemma {:induction false} MatchingConcat(a: seq<Institution>, b: seq<Institution>, sel: Selection)
    ensures Matching(a + b, sel) == Matching(a, sel) + Matching(b, sel)
  {
    if a == [] {
      assert a + b == b;
    } else {
      MatchingConcat(a[1..], b, sel);
      assert (a + b)[0] == a[0] && (a + b)[1..] == a[1..] + b;
      MatchingUnfold(a + b, sel);
      MatchingUnfold(a, sel);
      var p, m, n := Pick(a[0], sel), Matching(a[1..], sel), Matching(b, sel);
      assert p + (m + n) == (p + m) + n;
    }
  }

  lemma MatchingSnoc(r: seq<Institution>, x: Institution, sel: Selection)
    ensures Matching(r + [x], sel) == Matching(r, sel) + Pick(x, sel)
  {
    MatchingConcat(r, [x], sel);
    assert [x][1..] == [];
  }
  /** The filter result over the seed, record by record, for any selection. */
  lemma SeedPointwise(sel: Selection)
    ensures Matching(Seed, sel) == Pick(Inst001, sel) + Pick(Inst002, sel) + Pick(Inst003, sel) + Pick(Inst004, sel) + Pick(Inst005, sel) + Pick(Inst006, sel) + Pick(Inst007, sel) + Pick(Inst008, sel) + Pick(Inst009, sel) + Pick(Inst010, sel) + Pick(Inst011, sel) + Pick(Inst012, sel) + Pick(Inst013, sel) + Pick(Inst014, sel) + Pick(Inst015, sel) + Pick(Inst016, sel) + Pick(Inst017, sel) + Pick(Inst018, sel) + Pick(Inst019, sel) + Pick(Inst020, sel)
  {
    MatchingSnoc([Inst001] + [Inst002] + [Inst003] + [Inst004] + [Inst005] + [Inst006] + [Inst007] + [Inst008] + [Inst009] + [Inst010] + [Inst011] + [Inst012] + [Inst013] + [Inst014] + [Inst015] + [Inst016] + [Inst017] + [Inst018] + [Inst019], Inst020, sel);
    MatchingSnoc([Inst001] + [Inst002] + [Inst003] + [Inst004] + [Inst005] + [Inst006] + [Inst007] + [Inst008] + [Inst009] + [Inst010] + [Inst011] + [Inst012] + [Inst013] + [Inst014] + [Inst015] + [Inst016] + [Inst017] + [Inst018], Inst019, sel);
    MatchingSnoc([Inst001] + [Inst002] + [Inst003] + [Inst004] + [Inst005] + [Inst006] + [Inst007] + [Inst008] + [Inst009] + [Inst010] + [Inst011] + [Inst012] + [Inst013] + [Inst014] + [Inst015] + [Inst016] + [Inst017], Inst018, sel);
    MatchingSnoc([Inst001] + [Inst002] + [Inst003] + [Inst004] + [Inst005] + [Inst006] + [Inst007] + [Inst008] + [Inst009] + [Inst010] + [Inst011] + [Inst012] + [Inst013] + [Inst014] + [Inst015] + [Inst016], Inst017, sel);
    MatchingSnoc([Inst001] + [Inst002] + [Inst003] + [Inst004] + [Inst005] + [Inst006] + [Inst007] + [Inst008] + [Inst009] + [Inst010] + [Inst011] + [Inst012] + [Inst013] + [Inst014] + [Inst015], Inst016, sel);
    MatchingSnoc([Inst001] + [Inst002] + [Inst003] + [Inst004] + [Inst005] + [Inst006] + [Inst007] + [Inst008] + [Inst009] + [Inst010] + [Inst011] + [Inst012] + [Inst013] + [Inst014], Inst015, sel);
    MatchingSnoc([Inst001] + [Inst002] + [Inst003] + [Inst004] + [Inst005] + [Inst006] + [Inst007] + [Inst008] + [Inst009] + [Inst010] + [Inst011] + [Inst012] + [Inst013], Inst014, sel);
    MatchingSnoc([Inst001] + [Inst002] + [Inst003] + [Inst004] + [Inst005] + [Inst006] + [Inst007] + [Inst008] + [Inst009] + [Inst010] + [Inst011] + [Inst012], Inst013, sel);
    MatchingSnoc([Inst001] + [Inst002] + [Inst003] + [Inst004] + [Inst005] + [Inst006] + [Inst007] + [Inst008] + [Inst009] + [Inst010] + [Inst011], Inst012, sel);
    MatchingSnoc([Inst001] + [Inst002] + [Inst003] + [Inst004] + [Inst005] + [Inst006] + [Inst007] + [Inst008] + [Inst009] + [Inst010], Inst011, sel);
    MatchingSnoc([Inst001] + [Inst002] + [Inst003] + [Inst004] + [Inst005] + [Inst006] + [Inst007] + [Inst008] + [Inst009], Inst010, sel);
    MatchingSnoc([Inst001] + [Inst002] + [Inst003] + [Inst004] + [Inst005] + [Inst006] + [Inst007] + [Inst008], Inst009, sel);
    MatchingSnoc([Inst001] + [Inst002] + [Inst003] + [Inst004] + [Inst005] + [Inst006] + [Inst007], Inst008, sel);
    MatchingSnoc([Inst001] + [Inst002] + [Inst003] + [Inst004] + [Inst005] + [Inst006], Inst007, sel);
    MatchingSnoc([Inst001] + [Inst002] + [Inst003] + [Inst004] + [Inst005], Inst006, sel);
    MatchingSnoc([Inst001] + [Inst002] + [Inst003] + [Inst004], Inst005, sel);
    MatchingSnoc([Inst001] + [Inst002] + [Inst003], Inst004, sel);
    MatchingSnoc([Inst001] + [Inst002], Inst003, sel);
    MatchingSnoc([Inst001], Inst002, sel);
    assert Matching([Inst001], sel) == Pick(Inst001, sel);
  }

  /** Only the first record has the specialty Cardiology. */
  lemma CardiologyIsFirstOnly()
    ensures Matching(Seed, Selection("Cardiology", "", "")) == [Seed[0]]
  {
    SeedPointwise(Selection("Cardiology", "", ""));
  }

  /** Every record offers the Emergency service. */
  lemma EmergencyIsEverywhere()
    ensures Matching(Seed, Selection("", "Emergency", "")) == Seed
  {
    SeedPointwise(Selection("", "Emergency", ""));
  }

  /** Half of the records are "Open Now", the other half "24/7". */
  lemma AvailabilitySplitsInHalves()
    ensures |Matching(Seed, Selection("", "", "Open Now"))| == 10
    ensures |Matching(Seed, Selection("", "", "24/7"))| == 10
  {
    assert |Matching(Seed, Selection("", "", "Open Now"))| == 10 by {
      SeedPointwise(Selection("", "", "Open Now"));
    }
    assert |Matching(Seed, Selection("", "", "24/7"))| == 10 by {
      SeedPointwise(Selection("", "", "24/7"));
    }
  }

  // ---------------------------------------------------------------------------
  // The screen
  // ---------------------------------------------------------------------------

  class FilterScreen {
    var specialties: seq<string>
    var services: seq<string>
    var availabilityOptions: seq<string>
    var filtered: seq<Institution>
    var selectedSpecialty: string
    var selectedService: string
    var selectedAvailability: string
    var toast: Toast

    /** The state before the mount effect has run. */
    constructor ()
      ensures specialties == [] && services == [] && availabilityOptions == AvailabilityOptions
      ensures filtered == [] && CurrentSelection() == NoSelection && toast == InitialToast
    {
      specialties, services, availabilityOptions := [], [], AvailabilityOptions;
      filtered := [];
      selectedSpecialty, selectedService, selectedAvailability := "", "", "";
      toast := InitialToast;
    }

    function CurrentSelection(): Selection
      reads this
    {
      Selection(selectedSpecialty, selectedService, selectedAvailability)
    }

    /** The mount effect: the option lists, duplicate-free in first-occurrence
        order, and the whole seed as the initial list. */
    method Mount()
      modifies this`specialties, this`services, this`filtered
      ensures specialties == Dedup(Specialties(Seed)) && services == Dedup(AllServices(Seed))
      ensures filtered == Seed == Matching(Seed, NoSelection)
    {
      specialties := Dedup(Specialties(Seed));
      services := Dedup(AllServices(Seed));
      filtered := Seed;
      NoSelectionKeepsAll(Seed);
    }

    method SelectSpecialty(v: string)
      modifies this`selectedSpecialty
      ensures selectedSpecialty == v
    {
      selectedSpecialty := v;
    }

    method SelectService(v: string)
      modifies this`selectedService
      ensures selectedService == v
    {
      selectedService := v;
    }

    method SelectAvailability(v: string)
      modifies this`selectedAvailability
      ensures selectedAvailability == v
    {
      selectedAvailability := v;
    }

    /** Narrow the seed by each non-empty picker in turn; the result is the
        reference filter of the current selection, and a success toast is
        shown whether or not anything matched. */
    method ApplyFilter()
      modifies this`filtered, this`toast
      ensures filtered == Matching(Seed, CurrentSelection())
      ensures IsSubseq(filtered, Seed)
      ensures toast == Shown("Filters applied successfully.", Success)
    {
      var results := Seed;
      ghost var sel := NoSelection;
      NoSelectionKeepsAll(Seed);
      if selectedSpecialty != "" {
        KeepRefines(Seed, sel, SpecialtyIs(selectedSpecialty));
        results := Keep(results, SpecialtyIs(selectedSpecialty));
        sel := Refine(sel, SpecialtyIs(selectedSpecialty));
      }
      assert results == Matching(Seed, sel) && sel == Selection(selectedSpecialty, "", "");
      if selectedService != "" {
        KeepRefines(Seed, sel, OffersService(selectedService));
        results := Keep(results, OffersService(selectedService));
        sel := Refine(sel, OffersService(selectedService));
      }
      assert results == Matching(Seed, sel) && sel == Selection(selectedSpecialty, selectedService, "");
      if selectedAvailability != "" {
        KeepRefines(Seed, sel, AvailabilityIs(selectedAvailability));
        results := Keep(results, AvailabilityIs(selectedAvailability));
        sel := Refine(sel, AvailabilityIs(selectedAvailability));
      }
      assert results == Matching(Seed, sel) && sel == CurrentSelection();
      MatchingCorrect(Seed, sel);
      filtered := results;
      toast := Shown("Filters applied successfully.", Success);
    }

    /** The scheduled hide step of showToast. */
    method ToastTimerFires()
      modifies this`toast
      ensures toast == old(toast).Expired()
    {
      toast := toast.Expired();
    }
  }
}
