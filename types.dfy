/** The record shapes and enumerated domains of lib/types.ts, plus the rows
    the actions write that the type file leaves implicit (a card's status,
    the link rows of contacts) and the caller's session. Timestamps are
    integers; nullable columns are `Option`s. */
module Types {
  import opened Common

  datatype Role = User | Admin | SuperAdmin

  /** The string stored in `profiles.role`. */
  function RoleName(r: Role): string
  {
    match r
    case User => "user"
    case Admin => "admin"
    case SuperAdmin => "super_admin"
  }

  datatype ClientStatus = Active | Inactive | Suspended

  datatype BillingPeriod = Monthly | Quarterly | Yearly

  datatype FieldType = Text | Number | Date | Email | Phone | Url | Textarea

  datatype Profile = Profile(
    id: Id,
    email: string,
    fullName: Option<string>,
    role: Role,
    clientId: Option<Id>)

  datatype Client = Client(
    id: Id,
    name: string,
    email: string,
    phone: Option<string>,
    planId: Option<Id>,
    status: ClientStatus,
    createdAt: Timestamp)

  datatype Plan = Plan(
    id: Id,
    name: string,
    description: Option<string>,
    price: real,
    billingPeriod: BillingPeriod,
    maxBoards: int,
    maxUsers: int,
    features: map<string, bool>,
    createdAt: Timestamp)

  datatype Board = Board(
    id: Id,
    name: string,
    description: Option<string>,
    clientId: Id,
    createdBy: Id,
    createdAt: Timestamp)

  datatype Stage = Stage(
    id: Id,
    name: string,
    boardId: Id,
    position: int,
    color: Option<string>,
    createdAt: Timestamp)

  /** A lead. The cards table also holds the free-text `status` column that
      createCard and updateCard write. */
  datatype Card = Card(
    id: Id,
    title: string,
    description: Option<string>,
    stageId: Id,
    boardId: Id,
    position: int,
    phone: Option<string>,
    email: Option<string>,
    status: string,
    createdBy: Id,
    createdAt: Timestamp)

  datatype Tag = Tag(
    id: Id,
    name: string,
    color: string,
    clientId: Id,
    createdAt: Timestamp)

  datatype Contact = Contact(
    id: Id,
    name: string,
    phone: string,
    email: Option<string>,
    clientId: Id,
    createdBy: Id,
    createdAt: Timestamp)

  datatype CustomField = CustomField(
    id: Id,
    name: string,
    fieldType: FieldType,
    clientId: Id,
    createdAt: Timestamp)

  /** A row of `contact_custom_values`. */
  datatype ContactCustomValue = ContactCustomValue(
    contactId: Id,
    customFieldId: Id,
    value: Option<string>)

  /** A row of `contact_tags`. */
  datatype ContactTag = ContactTag(contactId: Id, tagId: Id)

  /** What an action learns about its caller: the authenticated user id
      (`auth.getUser()`) and that user's profile row, if one was found. */
  datatype Session = Session(user: Option<Id>, profile: Option<Profile>)

  /** The caller check that opens the scoped actions: the caller's
      non-empty client id, or `unauthorized` without a signed-in user and
      `noProfile` without a profile or a client id. */
  function ClientOf(session: Session, unauthorized: string, noProfile: string): (r: Result<Id>)
    ensures session.user.None? ==> r == Err(Message(unauthorized))
    ensures session.user.Some? && (session.profile.None? || !Truthy(session.profile.value.clientId))
            ==> r == Err(Message(noProfile))
    ensures r.Ok? <==> session.user.Some? && session.profile.Some? && Truthy(session.profile.value.clientId)
    ensures r.Ok? ==> r.value == session.profile.value.clientId.value && r.value != ""
  {
    if session.user.None? then Err(Message(unauthorized))
    else if session.profile.None? || !Truthy(session.profile.value.clientId) then Err(Message(noProfile))
    else Ok(session.profile.value.clientId.value)
  }

  /** The check of the contact, custom-field and tag actions. */
  function RequireClient(session: Session): Result<Id>
  {
    ClientOf(session, "Unauthorized", "Profile not found")
  }

  /** Lexicographic order on strings by character code (`.order("name")`). */
  predicate LexLe(a: string, b: string)
    decreases |a|
  {
    a == [] || (b != [] && (a[0] < b[0] || (a[0] == b[0] && LexLe(a[1..], b[1..]))))
  }

  lemma {:induction false} LexLeTotal(a: string, b: string)
    ensures LexLe(a, b) || LexLe(b, a)
    decreases |a|
  {
    if a != [] && b != [] && a[0] == b[0] {
      LexLeTotal(a[1..], b[1..]);
    }
  }
}
