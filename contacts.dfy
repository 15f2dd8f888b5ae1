/** The contact actions of lib/actions/contacts.ts over four tables:
    `contacts`, the link tables `contact_tags` and `contact_custom_values`,
    and `custom_fields`. Reads are scoped to the caller's client and fall
    back to an empty list; writes by id carry no client check; a contact's
    links are written after the contact and their errors are not checked. */
module Contacts {
  import opened Common
  import opened Types

  function ContactId(c: Contact): Id { c.id }

  function FieldId(f: CustomField): Id { f.id }

  /** One `{ fieldId, value }` pair sent by the contact form. */
  datatype CustomValueInput = CustomValueInput(fieldId: Id, value: string)

  /** The `contact_tags` rows inserted for `tagIds`, one per id, in order. */
  function TagRows(contactId: Id, tagIds: seq<Id>): (rows: seq<ContactTag>)
    ensures |rows| == |tagIds|
    ensures forall i :: 0 <= i < |tagIds| ==> rows[i] == ContactTag(contactId, tagIds[i])
  {
    seq(|tagIds|, i requires 0 <= i < |tagIds| => ContactTag(contactId, tagIds[i]))
  }

  /** `.filter((cv) => cv.value)`: entries with a non-empty value. */
  function NonEmptyValue(): CustomValueInput -> bool
  {
    (v: CustomValueInput) => v.value != ""
  }

  /** The `contact_custom_values` rows inserted for `values`: one per entry
      with a non-empty value, in order. */
  function ValueRows(contactId: Id, values: seq<CustomValueInput>): (rows: seq<ContactCustomValue>)
    ensures |rows| == |Filter(values, NonEmptyValue())|
    ensures forall i :: 0 <= i < |rows| ==>
      var v := Filter(values, NonEmptyValue())[i];
      rows[i] == ContactCustomValue(contactId, v.fieldId, Some(v.value)) && v.value != ""
  {
    var kept := Filter(values, NonEmptyValue());
    seq(|kept|, i requires 0 <= i < |kept| => ContactCustomValue(contactId, kept[i].fieldId, Some(kept[i].value)))
  }

  /** An entry with an empty value gives no row, and nothing is written when
      every value is empty. */
  lemma ValueRowsSkipEmpty(contactId: Id, values: seq<CustomValueInput>)
    requires forall i :: 0 <= i < |values| ==> values[i].value == ""
    ensures ValueRows(contactId, values) == []
  {
    FilterNone(values, NonEmptyValue());
  }

  function TagOf(contactId: Id): ContactTag -> bool
  {
    (t: ContactTag) => t.contactId == contactId
  }

  function ValueOf(contactId: Id): ContactCustomValue -> bool
  {
    (v: ContactCustomValue) => v.contactId == contactId
  }

  function NotTagOf(contactId: Id): ContactTag -> bool
  {
    (t: ContactTag) => t.contactId != contactId
  }

  function NotValueOf(contactId: Id): ContactCustomValue -> bool
  {
    (v: ContactCustomValue) => v.contactId != contactId
  }

  /** `delete().eq("contact_id", id)` followed by the insert of `added`
      (all rows of that contact): afterwards the contact's links are exactly
      `added`, and every other contact's links are as they were. */
  lemma {:induction false} ReplaceTagLinks(links: seq<ContactTag>, contactId: Id, added: seq<ContactTag>, other: Id)
    requires forall i :: 0 <= i < |added| ==> added[i].contactId == contactId
    ensures Filter(Filter(links, NotTagOf(contactId)) + added, TagOf(contactId)) == added
    ensures other != contactId ==>
      Filter(Filter(links, NotTagOf(contactId)) + added, TagOf(other)) == Filter(links, TagOf(other))
  {
    var kept := Filter(links, NotTagOf(contactId));
    FilterAppend(kept, added, TagOf(contactId));
    FilterNone(kept, TagOf(contactId));
    FilterAllOf(added, TagOf(contactId));
    if other != contactId {
      FilterAppend(kept, added, TagOf(other));
      assert forall i :: 0 <= i < |added| ==> !TagOf(other)(added[i]);
      FilterNone(added, TagOf(other));
      FilterNarrow(links, TagOf(other), NotTagOf(contactId));
    }
  }

  /** The same replacement on `contact_custom_values`. */
  lemma {:induction false} ReplaceValueLinks(links: seq<ContactCustomValue>, contactId: Id, added: seq<ContactCustomValue>, other: Id)
    requires forall i :: 0 <= i < |added| ==> added[i].contactId == contactId
    ensures Filter(Filter(links, NotValueOf(contactId)) + added, ValueOf(contactId)) == added
    ensures other != contactId ==>
      Filter(Filter(links, NotValueOf(contactId)) + added, ValueOf(other)) == Filter(links, ValueOf(other))
  {
    var kept := Filter(links, NotValueOf(contactId));
    FilterAppend(kept, added, ValueOf(contactId));
    FilterNone(kept, ValueOf(contactId));
    FilterAllOf(added, ValueOf(contactId));
    if other != contactId {
      FilterAppend(kept, added, ValueOf(other));
      assert forall i :: 0 <= i < |added| ==> !ValueOf(other)(added[i]);
      FilterNone(added, ValueOf(other));
      FilterNarrow(links, ValueOf(other), NotValueOf(contactId));
    }
  }

  // ---------------------------------------------------------------------
  // Reads
  // ---------------------------------------------------------------------

  /** `order("created_at", { ascending: false })` on contacts. */
  predicate ContactNewerFirst(a: Contact, b: Contact) { a.createdAt >= b.createdAt }

  lemma ContactNewerFirstTotal()
    ensures Total(ContactNewerFirst)
  {
  }

  function ContactOfClient(clientId: Id): Contact -> bool
  {
    (c: Contact) => c.clientId == clientId
  }

  /** getContacts. `queryFails` stands for the query reporting an error or
      the action throwing; either way the list is empty. */
  function GetContacts(session: Session, contacts: seq<Contact>, queryFails: bool): (r: seq<Contact>)
    ensures RequireClient(session).Err? || queryFails ==> r == []
    ensures RequireClient(session).Ok? && !queryFails ==>
      multiset(r) == multiset(Filter(contacts, ContactOfClient(RequireClient(session).value)))
    ensures Sorted(r, ContactNewerFirst)
  {
    if RequireClient(session).Err? || queryFails then []
    else
      ContactNewerFirstTotal();
      Sort(Filter(contacts, ContactOfClient(RequireClient(session).value)), ContactNewerFirst)
  }

  /** The list holds exactly the caller client's contacts. */
  lemma GetContactsExactly(session: Session, contacts: seq<Contact>, c: Contact)
    requires RequireClient(session).Ok?
    ensures c in GetContacts(session, contacts, false) <==> c in contacts && c.clientId == RequireClient(session).value
  {
    SameElements(GetContacts(session, contacts, false), Filter(contacts, ContactOfClient(RequireClient(session).value)));
  }

  /** getContact: the row with that id, whichever client owns it.
      `.single()` fails when no row has the id. */
  function GetContact(user: Option<Id>, contactId: Id, contacts: seq<Contact>, queryFails: bool): (r: Result<Contact>)
    ensures user.None? ==> r == Err(Message("Unauthorized"))
    ensures user.Some? && (queryFails || forall c :: c in contacts ==> c.id != contactId) ==> r == Err(DatastoreError)
    ensures r.Ok? ==> r.value in contacts && r.value.id == contactId
  {
    if user.None? then Err(Message("Unauthorized"))
    else if queryFails then Err(DatastoreError)
    else match FindIndex(contacts, (c: Contact) => c.id == contactId)
      case None => Err(DatastoreError)
      case Some(i) => Ok(contacts[i])
  }

  /** With a primary key, getContact finds any existing contact, with no
      regard to the caller's client. */
  lemma GetContactFindsAny(user: Id, contacts: seq<Contact>, c: Contact)
    requires KeysDistinct(contacts, ContactId)
    requires c in contacts
    ensures GetContact(Some(user), c.id, contacts, false) == Ok(c)
  {
    var i :| 0 <= i < |contacts| && contacts[i] == c;
    var r := GetContact(Some(user), c.id, contacts, false);
    assert r.Ok?;
    var j :| 0 <= j < |contacts| && contacts[j] == r.value;
    assert ContactId(contacts[i]) == ContactId(contacts[j]);
  }

  predicate FieldNameLe(a: CustomField, b: CustomField) { LexLe(a.name, b.name) }

  lemma FieldNameLeTotal()
    ensures Total(FieldNameLe)
  {
    forall a: CustomField, b: CustomField ensures FieldNameLe(a, b) || FieldNameLe(b, a) {
      LexLeTotal(a.name, b.name);
    }
  }

  function FieldOfClient(clientId: Id): CustomField -> bool
  {
    (f: CustomField) => f.clientId == clientId
  }

  /** getCustomFields: the caller client's fields by name ascending, or
      an empty list. */
  function GetCustomFields(session: Session, fields: seq<CustomField>, queryFails: bool): (r: seq<CustomField>)
    ensures RequireClient(session).Err? || queryFails ==> r == []
    ensures RequireClient(session).Ok? && !queryFails ==>
      multiset(r) == multiset(Filter(fields, FieldOfClient(RequireClient(session).value)))
    ensures Sorted(r, FieldNameLe)
  {
    if RequireClient(session).Err? || queryFails then []
    else
      FieldNameLeTotal();
      Sort(Filter(fields, FieldOfClient(RequireClient(session).value)), FieldNameLe)
  }

  lemma GetCustomFieldsExactly(session: Session, fields: seq<CustomField>, f: CustomField)
    requires RequireClient(session).Ok?
    ensures f in GetCustomFields(session, fields, false) <==> f in fields && f.clientId == RequireClient(session).value
  {
    SameElements(GetCustomFields(session, fields, false), Filter(fields, FieldOfClient(RequireClient(session).value)));
  }

  // ---------------------------------------------------------------------
  // Writes
  // ---------------------------------------------------------------------

  /** The table after `update({ name, phone, email }).eq("id", contactId)`. */
  function Edited(rows: seq<Contact>, contactId: Id, name: string, phone: string, email: Option<string>): (r: seq<Contact>)
    ensures |r| == |rows|
    ensures forall i :: 0 <= i < |rows| && rows[i].id != contactId ==> r[i] == rows[i]
    ensures forall i :: 0 <= i < |rows| && rows[i].id == contactId ==>
      r[i] == rows[i].(name := name, phone := phone, email := email)
  {
    seq(|rows|, i requires 0 <= i < |rows| =>
      if rows[i].id == contactId then rows[i].(name := name, phone := phone, email := email) else rows[i])
  }

  class ContactStore {
    var contacts: seq<Contact>
    var contactTags: seq<ContactTag>
    var customValues: seq<ContactCustomValue>
    var customFields: seq<CustomField>

    ghost predicate Valid()
      reads this
    {
      KeysDistinct(contacts, ContactId) && KeysDistinct(customFields, FieldId)
    }

    constructor ()
      ensures Valid()
      ensures contacts == [] && contactTags == [] && customValues == [] && customFields == []
    {
      contacts := [];
      contactTags := [];
      customValues := [];
      customFields := [];
    }

    /** createContact. The contact insert may fail (`insertFails`); the
        link inserts that follow may fail too, silently, each leaving its
        table as it was. */
    method CreateContact(session: Session, name: string, phone: string, email: Option<string>,
                         tagIds: seq<Id>, values: seq<CustomValueInput>,
                         newId: Id, now: Timestamp, insertFails: bool, tagsFail: bool, valuesFail: bool)
      returns (r: Result<Contact>)
      requires Valid()
      requires FreshKey(contacts, ContactId, newId)
      modifies this
      ensures Valid()
      ensures customFields == old(customFields)
      ensures RequireClient(session).Err? ==> r == Err(RequireClient(session).failure)
      ensures RequireClient(session).Ok? && insertFails ==> r == Err(DatastoreError)
      ensures r.Err? ==> contacts == old(contacts) && contactTags == old(contactTags) && customValues == old(customValues)
      ensures RequireClient(session).Ok? && !insertFails ==>
        && r == Ok(Contact(newId, name, phone, email, RequireClient(session).value, session.user.value, now))
        && contacts == old(contacts) + [r.value]
        && contactTags == old(contactTags) + (if tagsFail then [] else TagRows(newId, tagIds))
        && customValues == old(customValues) + (if valuesFail then [] else ValueRows(newId, values))
    {
      var client := RequireClient(session);
      if client.Err? {
        return Err(client.failure);
      }
      if insertFails {
        return Err(DatastoreError);
      }
      var contact := Contact(newId, name, phone, email, client.value, session.user.value, now);
      AppendKeepsKeysDistinct(contacts, contact, ContactId);
      contacts := contacts + [contact];
      if |tagIds| > 0 && !tagsFail {
        contactTags := contactTags + TagRows(newId, tagIds);
      }
      if |values| > 0 {
        var valueInserts := ValueRows(newId, values);
        if |valueInserts| > 0 && !valuesFail {
          customValues := customValues + valueInserts;
        }
      }
      r := Ok(contact);
    }

    /** updateContact: rewrites name, phone and email of the row with that
        id, then replaces the contact's tag links and custom values. Each of
        the four link writes may fail silently. */
    method UpdateContact(contactId: Id, name: string, phone: string, email: Option<string>,
                         tagIds: seq<Id>, values: seq<CustomValueInput>, updateFails: bool,
                         tagDeleteFails: bool, tagInsertFails: bool, valueDeleteFails: bool, valueInsertFails: bool)
      returns (r: Result<()>)
      requires Valid()
      modifies this
      ensures Valid()
      ensures customFields == old(customFields)
      ensures updateFails ==>
        && r == Err(DatastoreError)
        && contacts == old(contacts) && contactTags == old(contactTags) && customValues == old(customValues)
      ensures !updateFails ==> r == Ok(()) && contacts == Edited(old(contacts), contactId, name, phone, email)
      ensures !updateFails ==>
        contactTags == (if tagDeleteFails then old(contactTags) else Filter(old(contactTags), NotTagOf(contactId)))
                       + (if tagInsertFails then [] else TagRows(contactId, tagIds))
      ensures !updateFails ==>
        customValues == (if valueDeleteFails then old(customValues) else Filter(old(customValues), NotValueOf(contactId)))
                        + (if valueInsertFails then [] else ValueRows(contactId, values))
    {
      if updateFails {
        return Err(DatastoreError);
      }
      contacts := Edited(contacts, contactId, name, phone, email);
      ReplaceTags(contactId, tagIds, tagDeleteFails, tagInsertFails);
      ReplaceValues(contactId, values, valueDeleteFails, valueInsertFails);
      r := Ok(());
    }

    /** The tag links of updateContact: delete the contact's links, then
        insert one per given id (skipped for an empty list). */
    method ReplaceTags(contactId: Id, tagIds: seq<Id>, deleteFails: bool, insertFails: bool)
      modifies this
      ensures contacts == old(contacts) && customValues == old(customValues) && customFields == old(customFields)
      ensures contactTags == (if deleteFails then old(contactTags) else Filter(old(contactTags), NotTagOf(contactId)))
                             + (if insertFails then [] else TagRows(contactId, tagIds))
    {
      var tags := contactTags;
      if !deleteFails {
        tags := Filter(tags, NotTagOf(contactId));
      }
      if |tagIds| > 0 && !insertFails {
        tags := tags + TagRows(contactId, tagIds);
      } else {
        assert tags == tags + [];
      }
      contactTags := tags;
    }

    /** The custom values of updateContact: delete the contact's values,
        then insert the non-empty entries (skipped when there are none). */
    method ReplaceValues(contactId: Id, values: seq<CustomValueInput>, deleteFails: bool, insertFails: bool)
      modifies this
      ensures contacts == old(contacts) && contactTags == old(contactTags) && customFields == old(customFields)
      ensures customValues == (if deleteFails then old(customValues) else Filter(old(customValues), NotValueOf(contactId)))
                              + (if insertFails then [] else ValueRows(contactId, values))
    {
      var vals := customValues;
      if !deleteFails {
        vals := Filter(vals, NotValueOf(contactId));
      }
      var valueInserts := ValueRows(contactId, values);
      if |values| > 0 && |valueInserts| > 0 && !insertFails {
        vals := vals + valueInserts;
      } else {
        assert insertFails || valueInserts == [];
        assert vals == vals + [];
      }
      customValues := vals;
    }

    /** deleteContact: removes the row with that id and no other. */
    method DeleteContact(contactId: Id, deleteFails: bool) returns (r: Result<()>)
      requires Valid()
      modifies this
      ensures Valid()
      ensures contactTags == old(contactTags) && customValues == old(customValues) && customFields == old(customFields)
      ensures deleteFails ==> r == Err(DatastoreError) && contacts == old(contacts)
      ensures !deleteFails ==> r == Ok(()) && contacts == Filter(old(contacts), (c: Contact) => c.id != contactId)
      ensures !deleteFails ==> forall c :: c in contacts <==> c in old(contacts) && c.id != contactId
    {
      if deleteFails {
        return Err(DatastoreError);
      }
      FilterKeepsKeysDistinct(contacts, (c: Contact) => c.id != contactId, ContactId);
      contacts := Filter(contacts, (c: Contact) => c.id != contactId);
      r := Ok(());
    }

    /** createCustomField. */
    method CreateCustomField(session: Session, name: string, fieldType: FieldType,
                             newId: Id, now: Timestamp, insertFails: bool)
      returns (r: Result<CustomField>)
      requires Valid()
      requires FreshKey(customFields, FieldId, newId)
      modifies this
      ensures Valid()
      ensures contacts == old(contacts) && contactTags == old(contactTags) && customValues == old(customValues)
      ensures RequireClient(session).Err? ==> r == Err(RequireClient(session).failure)
      ensures RequireClient(session).Ok? && insertFails ==> r == Err(DatastoreError)
      ensures r.Err? ==> customFields == old(customFields)
      ensures RequireClient(session).Ok? && !insertFails ==>
        && r == Ok(CustomField(newId, name, fieldType, RequireClient(session).value, now))
        && customFields == old(customFields) + [r.value]
    {
      var client := RequireClient(session);
      if client.Err? {
        return Err(client.failure);
      }
      if insertFails {
        return Err(DatastoreError);
      }
      var field := CustomField(newId, name, fieldType, client.value, now);
      AppendKeepsKeysDistinct(customFields, field, FieldId);
      customFields := customFields + [field];
      r := Ok(field);
    }

    /** deleteCustomField: removes the row with that id and no other. */
    method DeleteCustomField(fieldId: Id, deleteFails: bool) returns (r: Result<()>)
      requires Valid()
      modifies this
      ensures Valid()
      ensures contacts == old(contacts) && contactTags == old(contactTags) && customValues == old(customValues)
      ensures deleteFails ==> r == Err(DatastoreError) && customFields == old(customFields)
      ensures !deleteFails ==> r == Ok(()) && customFields == Filter(old(customFields), (f: CustomField) => f.id != fieldId)
      ensures !deleteFails ==> forall f :: f in customFields <==> f in old(customFields) && f.id != fieldId
    {
      if deleteFails {
        return Err(DatastoreError);
      }
      FilterKeepsKeysDistinct(customFields, (f: CustomField) => f.id != fieldId, FieldId);
      customFields := Filter(customFields, (f: CustomField) => f.id != fieldId);
      r := Ok(());
    }
  }

  /** After a fully successful updateContact the contact's tag links are
      exactly the given tag ids, in order, and its custom values exactly the
      non-empty entries; other contacts' links are untouched. */
  lemma UpdateReplacesLinks(tags: seq<ContactTag>, values: seq<ContactCustomValue>, contactId: Id,
                            tagIds: seq<Id>, inputs: seq<CustomValueInput>, other: Id)
    ensures Filter(Filter(tags, NotTagOf(contactId)) + TagRows(contactId, tagIds), TagOf(contactId))
            == TagRows(contactId, tagIds)
    ensures Filter(Filter(values, NotValueOf(contactId)) + ValueRows(contactId, inputs), ValueOf(contactId))
            == ValueRows(contactId, inputs)
    ensures other != contactId ==>
      Filter(Filter(tags, NotTagOf(contactId)) + TagRows(contactId, tagIds), TagOf(other)) == Filter(tags, TagOf(other))
    ensures other != contactId ==>
      Filter(Filter(values, NotValueOf(contactId)) + ValueRows(contactId, inputs), ValueOf(other)) == Filter(values, ValueOf(other))
  {
    ReplaceTagLinks(tags, contactId, TagRows(contactId, tagIds), other);
    ReplaceValueLinks(values, contactId, ValueRows(contactId, inputs), other);
  }
}
