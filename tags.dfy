/** The tag actions of lib/actions/tags.ts over the `tags` table: the
    caller client's tags by name, creation under the caller's client, and
    deletion by id. */
module Tags {
  import opened Common
  import opened Types

  function TagId(t: Tag): Id { t.id }

  /** `order("name", { ascending: true })`. */
  predicate TagNameLe(a: Tag, b: Tag) { LexLe(a.name, b.name) }

  lemma TagNameLeTotal()
    ensures Total(TagNameLe)
  {
    forall a: Tag, b: Tag ensures TagNameLe(a, b) || TagNameLe(b, a) {
      LexLeTotal(a.name, b.name);
    }
  }

  function TagOfClient(clientId: Id): Tag -> bool
  {
    (t: Tag) => t.clientId == clientId
  }

  /** getTags. `queryFails` stands for the query reporting an error or the
      action throwing; either way the list is empty. */
  function GetTags(session: Session, rows: seq<Tag>, queryFails: bool): (r: seq<Tag>)
    ensures RequireClient(session).Err? || queryFails ==> r == []
    ensures RequireClient(session).Ok? && !queryFails ==>
      multiset(r) == multiset(Filter(rows, TagOfClient(RequireClient(session).value)))
    ensures Sorted(r, TagNameLe)
  {
    if RequireClient(session).Err? || queryFails then []
    else
      TagNameLeTotal();
      Sort(Filter(rows, TagOfClient(RequireClient(session).value)), TagNameLe)
  }

  /** The list holds exactly the caller client's tags. */
  lemma GetTagsExactly(session: Session, rows: seq<Tag>, t: Tag)
    requires RequireClient(session).Ok?
    ensures t in GetTags(session, rows, false) <==> t in rows && t.clientId == RequireClient(session).value
  {
    SameElements(GetTags(session, rows, false), Filter(rows, TagOfClient(RequireClient(session).value)));
  }

  /** The `tags` table; `id` is the primary key. */
  class TagTable {
    var rows: seq<Tag>

    ghost predicate Valid()
      reads this
    {
      KeysDistinct(rows, TagId)
    }

    constructor ()
      ensures Valid() && rows == []
    {
      rows := [];
    }

    /** createTag: the new tag belongs to the caller's client. */
    method CreateTag(session: Session, name: string, color: string, newId: Id, now: Timestamp, insertFails: bool)
      returns (r: Result<Tag>)
      requires Valid()
      requires FreshKey(rows, TagId, newId)
      modifies this
      ensures Valid()
      ensures RequireClient(session).Err? ==> r == Err(RequireClient(session).failure)
      ensures RequireClient(session).Ok? && insertFails ==> r == Err(DatastoreError)
      ensures r.Err? ==> rows == old(rows)
      ensures RequireClient(session).Ok? && !insertFails ==>
        && r == Ok(Tag(newId, name, color, RequireClient(session).value, now))
        && rows == old(rows) + [r.value]
    {
      var client := RequireClient(session);
      if client.Err? {
        return Err(client.failure);
      }
      if insertFails {
        return Err(DatastoreError);
      }
      var tag := Tag(newId, name, color, client.value, now);
      AppendKeepsKeysDistinct(rows, tag, TagId);
      rows := rows + [tag];
      r := Ok(tag);
    }

    /** deleteTag: removes the row with that id, whichever client owns it. */
    method DeleteTag(tagId: Id, deleteFails: bool) returns (r: Result<()>)
      requires Valid()
      modifies this
      ensures Valid()
      ensures deleteFails ==> r == Err(DatastoreError) && rows == old(rows)
      ensures !deleteFails ==> r == Ok(()) && rows == Filter(old(rows), (t: Tag) => t.id != tagId)
      ensures !deleteFails ==> forall t :: t in rows <==> t in old(rows) && t.id != tagId
    {
      if deleteFails {
        return Err(DatastoreError);
      }
      FilterKeepsKeysDistinct(rows, (t: Tag) => t.id != tagId, TagId);
      rows := Filter(rows, (t: Tag) => t.id != tagId);
      r := Ok(());
    }
  }

  /** A tag just created is listed for its creator's client. */
  lemma CreatedTagListed(session: Session, rows: seq<Tag>, tag: Tag)
    requires RequireClient(session).Ok? && tag.clientId == RequireClient(session).value
    ensures tag in GetTags(session, rows + [tag], false)
  {
    GetTagsExactly(session, rows + [tag], tag);
  }
}
