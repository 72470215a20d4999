/** The emergency-contacts screen: a two-record seed, add with a length-derived
    id, edit through a modal with a phone-format check, and confirmed delete. */
module EmergencyContacts {
  import opened Common
  import Patterns

  datatype Contact = Contact(id: string, name: string, phoneNumber: string, relationship: string)

  /** The three text inputs of the add form and of the edit modal. */
  datatype ContactForm = ContactForm(name: string, phoneNumber: string, relationship: string)

  datatype FormField = Name | PhoneNumber | Relationship

  const EmptyForm := ContactForm("", "", "")

  const Seed: seq<Contact> := [
    Contact("contact_001", "Jane Doe", "+251-911-123456", "Mother"),
    Contact("contact_002", "John Smith", "+251-922-654321", "Brother")
  ]

  /** Typing into one input: `{ ...form, field: text }`. */
  function WithField(f: ContactForm, fld: FormField, text: string): (r: ContactForm)
    ensures fld == Name ==> r == ContactForm(text, f.phoneNumber, f.relationship)
    ensures fld == PhoneNumber ==> r == ContactForm(f.name, text, f.relationship)
    ensures fld == Relationship ==> r == ContactForm(f.name, f.phoneNumber, text)
  {
    match fld
    case Name => f.(name := text)
    case PhoneNumber => f.(phoneNumber := text)
    case Relationship => f.(relationship := text)
  }

  /** The required-fields check shared by add and update: all three truthy. */
  predicate Complete(f: ContactForm) {
    Filled(f.name) && Filled(f.phoneNumber) && Filled(f.relationship)
  }

  // ---------------------------------------------------------------------------
  // Generated ids
  // ---------------------------------------------------------------------------

  /** `contact_${n}`. */
  function IdOf(n: nat): string {
    "contact_" + DecimalString(n)
  }

  /** The id an add gives: one more than the current number of contacts. */
  function NextId(cs: seq<Contact>): string {
    IdOf(|cs| + 1)
  }

  /** The generated id carries the number it was made from. */
  lemma IdOfReadsBack(n: nat)
    ensures |IdOf(n)| > 8 && IdOf(n)[..8] == "contact_"
    ensures ParseDecimal(IdOf(n)[8..]) == n
  {
    assert IdOf(n)[8..] == DecimalString(n);
    DecimalRoundTrip(n);
  }

  lemma IdOfInjective(m: nat, n: nat)
    requires m != n
    ensures IdOf(m) != IdOf(n)
  {
    IdOfReadsBack(m);
    IdOfReadsBack(n);
  }

  /** No generated id has a leading zero, so none equals a zero-padded seed id. */
  lemma GeneratedIsNotPadded(n: nat, suffix: string)
    requires |suffix| > 1 && suffix[0] == '0'
    ensures IdOf(n) != "contact_" + suffix
  {
    assert IdOf(n)[8..] == DecimalString(n);
    assert ("contact_" + suffix)[8..] == suffix;
    if n == 0 {
      assert DecimalString(0) == "0";
    }
  }

  // ---------------------------------------------------------------------------
  // The three list changes
  // ---------------------------------------------------------------------------

  /** `[...contacts, { id: contact_${contacts.length + 1}, ...form }]`. */
  function Appended(cs: seq<Contact>, f: ContactForm): (r: seq<Contact>)
    ensures |r| == |cs| + 1 && r[..|cs|] == cs
  {
    cs + [Contact(NextId(cs), f.name, f.phoneNumber, f.relationship)]
  }

  /** An add puts exactly one record at the end, carrying the form's fields and
      the numbered id, and leaves the records before it untouched. */
  lemma AppendedShape(cs: seq<Contact>, f: ContactForm)
    ensures var r := Appended(cs, f);
      |r| == |cs| + 1 && r[..|cs|] == cs &&
      r[|cs|].name == f.name && r[|cs|].phoneNumber == f.phoneNumber &&
      r[|cs|].relationship == f.relationship &&
      r[|cs|].id == "contact_" + DecimalString(|cs| + 1) &&
      ParseDecimal(r[|cs|].id[8..]) == |cs| + 1
  {
    IdOfReadsBack(|cs| + 1);
  }

  /** `contacts.map(c => c.id === id ? { ...c, ...form } : c)`. */
  function MergeById(cs: seq<Contact>, id: string, f: ContactForm): (r: seq<Contact>)
    ensures |r| == |cs|
  {
    if cs == [] then []
    else
      [if cs[0].id == id then Contact(cs[0].id, f.name, f.phoneNumber, f.relationship) else cs[0]]
      + MergeById(cs[1..], id, f)
  }

  /** The merge keeps length, order and every id, gives every record carrying
      the id the form's three fields, and leaves the other records as they were. */
  lemma {:induction false} MergeByIdAt(cs: seq<Contact>, id: string, f: ContactForm)
    ensures |MergeById(cs, id, f)| == |cs|
    ensures forall i :: 0 <= i < |cs| ==> MergeById(cs, id, f)[i].id == cs[i].id
    ensures forall i :: 0 <= i < |cs| && cs[i].id == id ==>
      MergeById(cs, id, f)[i] == Contact(id, f.name, f.phoneNumber, f.relationship)
    ensures forall i :: 0 <= i < |cs| && cs[i].id != id ==> MergeById(cs, id, f)[i] == cs[i]
  {
    if cs != [] {
      MergeByIdAt(cs[1..], id, f);
      assert forall i :: 1 <= i < |cs| ==> cs[i] == cs[1..][i - 1];
    }
  }

  /** `contacts.filter(c => c.id !== id)`. */
  function RemoveById(cs: seq<Contact>, id: string): (r: seq<Contact>)
    ensures |r| <= |cs|
  {
    if cs == [] then []
    else if cs[0].id == id then RemoveById(cs[1..], id)
    else [cs[0]] + RemoveById(cs[1..], id)
  }

  /** Delete keeps, in order, each record whose id differs exactly as often as
      the list holds it, and no record with the id. */
  lemma {:induction false} RemoveByIdCorrect(cs: seq<Contact>, id: string)
    ensures IsSubseq(RemoveById(cs, id), cs)
    ensures forall c :: multiset(RemoveById(cs, id))[c] == if c.id != id then multiset(cs)[c] else 0
    ensures forall c :: c in RemoveById(cs, id) <==> c in cs && c.id != id
  {
    if cs != [] {
      RemoveByIdCorrect(cs[1..], id);
      var r := RemoveById(cs[1..], id);
      if cs[0].id != id {
        assert RemoveById(cs, id) == [cs[0]] + r;
        assert ([cs[0]] + r)[1..] == r;
      } else {
        SubseqRefl(r);
      }
      assert cs == [cs[0]] + cs[1..];
    }
  }

  /** Deleting an id nobody carries changes nothing. */
  lemma {:induction false} RemoveUnknownId(cs: seq<Contact>, id: string)
    requires forall i :: 0 <= i < |cs| ==> cs[i].id != id
    ensures RemoveById(cs, id) == cs
  {
    if cs != [] {
      assert forall i :: 1 <= i < |cs[1..]| ==> cs[1..][i] == cs[i + 1];
      RemoveUnknownId(cs[1..], id);
    }
  }

  // ---------------------------------------------------------------------------
  // Id freshness: adds alone never repeat an id; a delete followed by an add can
  // ---------------------------------------------------------------------------

  /** Ids are pairwise distinct and no future add (with the list longer than now)
      can produce one of them. */
  ghost predicate FreshIds(cs: seq<Contact>) {
    (forall i, j :: 0 <= i < j < |cs| ==> cs[i].id != cs[j].id) &&
    (forall k: nat, i :: |cs| < k && 0 <= i < |cs| ==> cs[i].id != IdOf(k))
  }

  /** The seed's ids are fresh; moreover no add at all, whatever the list's
      length, generates one of the two padded seed ids. */
  lemma SeedFresh()
    ensures FreshIds(Seed)
    ensures forall k: nat, i :: 0 <= i < |Seed| ==> Seed[i].id != IdOf(k)
  {
    forall k: nat, i | 0 <= i < |Seed| ensures Seed[i].id != IdOf(k) {
      if i == 0 {
        assert Seed[i].id == "contact_" + "001";
        GeneratedIsNotPadded(k, "001");
      } else {
        assert Seed[i].id == "contact_" + "002";
        GeneratedIsNotPadded(k, "002");
      }
    }
  }

  /** An add keeps the ids fresh. */
  lemma AppendKeepsFresh(cs: seq<Contact>, f: ContactForm)
    requires FreshIds(cs)
    ensures FreshIds(Appended(cs, f))
  {
    var r := Appended(cs, f);
    assert forall i :: 0 <= i < |cs| ==> r[i] == cs[i];
    forall k: nat, i | |r| < k && 0 <= i < |r| ensures r[i].id != IdOf(k) {
      if i == |cs| { IdOfInjective(k, |cs| + 1); }
    }
  }

  /** Any run of adds from the seed yields pairwise distinct ids. */
  function AddAll(cs: seq<Contact>, forms: seq<ContactForm>): seq<Contact>
    decreases |forms|
  {
    if forms == [] then cs else AddAll(Appended(cs, forms[0]), forms[1..])
  }

  lemma {:induction false} AddsKeepIdsDistinct(cs: seq<Contact>, forms: seq<ContactForm>)
    requires FreshIds(cs)
    ensures FreshIds(AddAll(cs, forms))
    decreases |forms|
  {
    if forms != [] {
      AppendKeepsFresh(cs, forms[0]);
      AddsKeepIdsDistinct(Appended(cs, forms[0]), forms[1..]);
    }
  }

  lemma SeedAddsDistinct(forms: seq<ContactForm>)
    ensures var r := AddAll(Seed, forms);
      forall i, j :: 0 <= i < j < |r| ==> r[i].id != r[j].id
  {
    SeedFresh();
    AddsKeepIdsDistinct(Seed, forms);
  }

  /** From the seed: add, delete contact_001, add again. Both added records get
      the id contact_3. */
  lemma DeleteThenAddRepeatsId(f: ContactForm, g: ContactForm)
    ensures var once := Appended(Seed, f);
            var twice := Appended(RemoveById(once, "contact_001"), g);
            |twice| == 3 && twice[1].id == "contact_3" && twice[2].id == "contact_3"
  {
    var once := Appended(Seed, f);
    assert DecimalString(3) == "3";
    assert NextId(Seed) == "contact_3";
    assert once == [Seed[0], Seed[1], Contact("contact_3", f.name, f.phoneNumber, f.relationship)];
    var c3 := once[2];
    assert once[1..] == [Seed[1], c3];
    assert Seed[1].id != "contact_001" by { assert Seed[1].id[10] != "contact_001"[10]; }
    assert c3.id != "contact_001" by { assert |c3.id| != |"contact_001"|; }
    assert [Seed[1], c3][1..] == [c3];
    assert RemoveById([c3], "contact_001") == [c3];
    assert RemoveById([Seed[1], c3], "contact_001") == [Seed[1], c3];
    assert RemoveById(once, "contact_001") == [Seed[1], c3];
  }

  // ---------------------------------------------------------------------------
  // The screen
  // ---------------------------------------------------------------------------

  class ContactsScreen {
    var contacts: seq<Contact>
    var toast: Toast
    var newContact: ContactForm
    var editVisible: bool
    var contactToEdit: Option<Contact>
    var editedContact: ContactForm

    /** The state before the mount effect: no contacts, empty forms, no modal. */
    constructor ()
      ensures contacts == [] && toast == InitialToast
      ensures newContact == EmptyForm && editedContact == EmptyForm
      ensures !editVisible && contactToEdit == None
    {
      contacts := [];
      toast := InitialToast;
      newContact := EmptyForm;
      editVisible := false;
      contactToEdit := None;
      editedContact := EmptyForm;
    }

    /** The mount effect loads the seed. */
    method Mount()
      modifies this`contacts
      ensures contacts == Seed && FreshIds(contacts)
    {
      contacts := Seed;
      SeedFresh();
    }

    method TypeNew(fld: FormField, text: string)
      modifies this`newContact
      ensures newContact == WithField(old(newContact), fld, text)
    {
      newContact := WithField(newContact, fld, text);
    }

    method TypeEdited(fld: FormField, text: string)
      modifies this`editedContact
      ensures editedContact == WithField(old(editedContact), fld, text)
    {
      editedContact := WithField(editedContact, fld, text);
    }

    /** Add the new-contact form as a record. Only the three fields' presence is
        checked; the phone format is not. */
    method AddContact()
      modifies this`contacts, this`newContact, this`toast
      ensures !Complete(old(newContact)) ==>
        contacts == old(contacts) && newContact == old(newContact) &&
        toast == Shown("Please fill in all fields.", Error)
      ensures Complete(old(newContact)) ==>
        contacts == Appended(old(contacts), old(newContact)) && newContact == EmptyForm &&
        toast == Shown("Emergency contact added successfully!", Success)
      ensures FreshIds(old(contacts)) ==> FreshIds(contacts)
    {
      if !Complete(newContact) {
        toast := Shown("Please fill in all fields.", Error);
        return;
      }
      if FreshIds(contacts) { AppendKeepsFresh(contacts, newContact); }
      contacts := Appended(contacts, newContact);
      newContact := EmptyForm;
      toast := Shown("Emergency contact added successfully!", Success);
    }

    /** Open the edit modal on `c`, copying its three fields into the form. */
    method EditContact(c: Contact)
      modifies this`contactToEdit, this`editedContact, this`editVisible
      ensures contactToEdit == Some(c) && editVisible
      ensures editedContact == ContactForm(c.name, c.phoneNumber, c.relationship)
    {
      contactToEdit := Some(c);
      editedContact := ContactForm(c.name, c.phoneNumber, c.relationship);
      editVisible := true;
    }

    /** Save the edit modal: the required check, then the phone format
        `+251-` three digits `-` six digits, then the merge when a contact is
        being edited (nothing at all happens when none is). */
    method UpdateContact()
      modifies this`contacts, this`toast, this`editVisible, this`contactToEdit
      ensures !Complete(editedContact) ==>
        contacts == old(contacts) && editVisible == old(editVisible) &&
        contactToEdit == old(contactToEdit) && toast == Shown("Please fill in all fields.", Error)
      ensures Complete(editedContact) && !Patterns.PhoneShape(editedContact.phoneNumber) ==>
        contacts == old(contacts) && editVisible == old(editVisible) &&
        contactToEdit == old(contactToEdit) &&
        toast == Shown("Invalid phone number format. Use +251-XXX-XXXXXX.", Error)
      ensures Complete(editedContact) && Patterns.PhoneShape(editedContact.phoneNumber) ==>
        if old(contactToEdit).Some? then
          contacts == MergeById(old(contacts), old(contactToEdit).value.id, editedContact) &&
          !editVisible && contactToEdit == None &&
          toast == Shown("Emergency contact updated successfully!", Success)
        else
          contacts == old(contacts) && editVisible == old(editVisible) &&
          contactToEdit == old(contactToEdit) && toast == old(toast)
      ensures |contacts| == |old(contacts)|
    {
      if !Complete(editedContact) {
        toast := Shown("Please fill in all fields.", Error);
        return;
      }
      Patterns.PhoneCorrect(editedContact.phoneNumber);
      if !Patterns.IsPhone(editedContact.phoneNumber) {
        toast := Shown("Invalid phone number format. Use +251-XXX-XXXXXX.", Error);
        return;
      }
      if contactToEdit.Some? {
        MergeByIdAt(contacts, contactToEdit.value.id, editedContact);
        contacts := MergeById(contacts, contactToEdit.value.id, editedContact);
        editVisible := false;
        contactToEdit := None;
        toast := Shown("Emergency contact updated successfully!", Success);
      }
    }

    /** Delete after the confirmation dialog; declining changes nothing. */
    method DeleteContact(id: string, confirmed: bool)
      modifies this`contacts, this`toast
      ensures !confirmed ==> contacts == old(contacts) && toast == old(toast)
      ensures confirmed ==>
        contacts == RemoveById(old(contacts), id) &&
        toast == Shown("Emergency contact deleted.", Success)
      ensures IsSubseq(contacts, old(contacts))
      ensures forall c :: c in contacts ==> c in old(contacts)
    {
      RemoveByIdCorrect(contacts, id);
      SubseqRefl(contacts);
      if confirmed {
        contacts := RemoveById(contacts, id);
        toast := Shown("Emergency contact deleted.", Success);
      }
    }

    /** Dismissing the modal hides it; the edited contact stays. */
    method CloseEdit()
      modifies this`editVisible
      ensures !editVisible
    {
      editVisible := false;
    }

    method ToastTimerFires()
      modifies this`toast
      ensures toast == old(toast).Expired()
    {
      toast := toast.Expired();
    }
  }
}
