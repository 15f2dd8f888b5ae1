/** The form state of the card-editing dialog
    (components/boards/edit-card-dialog.tsx): the reset from the card when
    the dialog opens, filling the fields from a chosen contact, the tag
    toggle, and the contact id handed over on submit. */
module EditCardForm {
  import opened Common
  import ContactForm
  import Types

  /** The card as the dialog receives it: nullable text columns, an
      optional linked contact and an optional list of tag ids. */
  datatype CardView = CardView(
    id: Id,
    title: string,
    description: Option<string>,
    phone: Option<string>,
    email: Option<string>,
    contactId: Option<Id>,
    tagIds: Option<seq<Id>>)

  /** A contact as the dialog reads it: `tagIds` is its `tags` key, a list
      of tag ids when present. */
  datatype ContactView = ContactView(
    id: Id,
    name: string,
    phone: string,
    email: Option<string>,
    tagIds: Option<seq<Id>>)

  /** The contacts the dialog loads through `getContacts`. That query embeds
      the links as `contact_tags`, so no row has a `tags` key. */
  function Listed(rows: seq<Types.Contact>): (vs: seq<ContactView>)
    ensures |vs| == |rows|
    ensures forall i :: 0 <= i < |rows| ==>
      vs[i] == ContactView(rows[i].id, rows[i].name, rows[i].phone, rows[i].email, None)
  {
    seq(|rows|, i requires 0 <= i < |rows| => ContactView(rows[i].id, rows[i].name, rows[i].phone, rows[i].email, None))
  }

  /** A contact picked from the loaded list is one of the client's rows and
      carries no tag list, so selecting it never copies tags. */
  lemma ListedContactCarriesNoTags(rows: seq<Types.Contact>, contactId: Id)
    ensures FindContact(Listed(rows), contactId).Some? ==>
      && FindContact(Listed(rows), contactId).value.tagIds.None?
      && exists r :: r in rows && r.id == contactId && FindContact(Listed(rows), contactId).value.name == r.name
  {
    var vs := Listed(rows);
    var found := FindContact(vs, contactId);
    if found.Some? {
      var i :| 0 <= i < |vs| && vs[i] == found.value;
      assert rows[i] in rows;
    }
  }

  /** `x || ""` for a nullable string. */
  function OrEmpty(x: Option<string>): (s: string)
    ensures x.None? ==> s == ""
    ensures x.Some? ==> s == x.value
  {
    if x.None? then "" else x.value
  }

  /** `card?.tags?.map((t) => t.id) || []`. */
  function TagIdsOrNone(tagIds: Option<seq<Id>>): (ids: seq<Id>)
    ensures tagIds.None? ==> ids == []
    ensures tagIds.Some? ==> ids == tagIds.value
  {
    if tagIds.None? then [] else tagIds.value
  }

  /** `contacts.find((c) => c.id === contactId)`. */
  function FindContact(contacts: seq<ContactView>, contactId: Id): (r: Option<ContactView>)
    ensures r.Some? ==> r.value in contacts && r.value.id == contactId
    ensures r.None? <==> forall c :: c in contacts ==> c.id != contactId
  {
    match FindIndex(contacts, (c: ContactView) => c.id == contactId)
    case None => None
    case Some(i) => Some(contacts[i])
  }

  /** The contact id passed to `updateCard`: `undefined` for "none" and for
      the empty string, the id itself otherwise. */
  function SubmittedContactId(selected: string): (r: Option<Id>)
    ensures r.None? <==> selected == "none" || selected == ""
    ensures r.Some? ==> r.value == selected
  {
    if selected == "none" then None
    else if selected == "" then None
    else Some(selected)
  }

  class Form {
    var title: string
    var description: string
    var phone: string
    var email: string
    var selectedTags: seq<Id>
    var selectedContactId: string

    /** The initial state, taken from the card as the reset does. */
    constructor (card: CardView)
      ensures title == card.title
      ensures description == OrEmpty(card.description)
      ensures phone == OrEmpty(card.phone)
      ensures email == OrEmpty(card.email)
      ensures selectedTags == TagIdsOrNone(card.tagIds)
      ensures selectedContactId == OrEmpty(card.contactId)
    {
      title := card.title;
      description := OrEmpty(card.description);
      phone := OrEmpty(card.phone);
      email := OrEmpty(card.email);
      selectedTags := TagIdsOrNone(card.tagIds);
      selectedContactId := OrEmpty(card.contactId);
    }

    /** The effect run when the dialog opens: every field is reset from the
        card, null columns becoming "". */
    method ResetFromCard(card: CardView)
      modifies this
      ensures title == card.title
      ensures description == OrEmpty(card.description)
      ensures phone == OrEmpty(card.phone)
      ensures email == OrEmpty(card.email)
      ensures selectedTags == TagIdsOrNone(card.tagIds)
      ensures selectedContactId == OrEmpty(card.contactId)
    {
      title := card.title;
      description := OrEmpty(card.description);
      phone := OrEmpty(card.phone);
      email := OrEmpty(card.email);
      selectedTags := TagIdsOrNone(card.tagIds);
      selectedContactId := OrEmpty(card.contactId);
    }

    /** handleContactSelect: the selection always changes; a known contact
        other than "none" also fills title, phone and email, and its tags
        when the contact carries a tag list (an empty list included). The
        contacts the dialog loads carry none (`ListedContactCarriesNoTags`). */
    method HandleContactSelect(contactId: string, contacts: seq<ContactView>)
      modifies this
      ensures selectedContactId == contactId
      ensures description == old(description)
      ensures contactId == "none" || FindContact(contacts, contactId).None? ==>
        && title == old(title) && phone == old(phone) && email == old(email)
        && selectedTags == old(selectedTags)
      ensures contactId != "none" && FindContact(contacts, contactId).Some? ==>
        var c := FindContact(contacts, contactId).value;
        && title == c.name && phone == c.phone && email == OrEmpty(c.email)
        && selectedTags == (if c.tagIds.Some? then c.tagIds.value else old(selectedTags))
    {
      selectedContactId := contactId;
      if contactId == "none" {
        return;
      }
      var contact := FindContact(contacts, contactId);
      if contact.Some? {
        title := contact.value.name;
        phone := contact.value.phone;
        email := OrEmpty(contact.value.email);
        if contact.value.tagIds.Some? {
          selectedTags := contact.value.tagIds.value;
        }
      }
    }

    /** toggleTag: the same toggle as the contact form's. */
    method ToggleTag(tagId: Id)
      modifies this
      ensures selectedTags == ContactForm.ToggleTag(old(selectedTags), tagId)
      ensures tagId in selectedTags <==> tagId !in old(selectedTags)
      ensures title == old(title) && description == old(description) && phone == old(phone)
      ensures email == old(email) && selectedContactId == old(selectedContactId)
    {
      selectedTags := ContactForm.ToggleTag(selectedTags, tagId);
    }
  }

  /** Choosing "none" in the selector unlinks the card on submit, and so
      does a card that had no contact. */
  lemma NoneUnlinks()
    ensures SubmittedContactId("none") == None
    ensures SubmittedContactId(OrEmpty(None)) == None
  {
  }

  /** A contact picked from the list is the one linked on submit. */
  lemma PickedContactLinked(contacts: seq<ContactView>, contactId: string)
    requires FindContact(contacts, contactId).Some?
    requires contactId != "none" && contactId != ""
    ensures SubmittedContactId(contactId) == Some(FindContact(contacts, contactId).value.id)
  {
  }
}
